/**
 The text a delivered page is judged by: comments gone, literals emptied, line terminators made one
 (src/client/qmlpalette.cpp).
 */
module PaletteText {
  import opened Prelude

  const BYTE_ORDER_MARK := '\U{FEFF}'

  /** The four characters that end a line for QML's lexer. */
  predicate EndsLine(c: char) {
    c == '\n' || c == '\r' || c == '\U{2028}' || c == '\U{2029}'
  }

  predicate IsQuote(c: char) {
    c == '"' || c == '\'' || c == '`'
  }

  // ---------------------------------------------------------------------------------------------
  // The automaton: one character at a time
  // ---------------------------------------------------------------------------------------------

  datatype Mode =
    | Code
    | AfterCr             // in code, the terminator of a "\r" already written
    | Slash               // in code, a "/" not yet written
    | LineComment
    | Block
    | BlockStar           // in a block comment, just after a "*"
    | BlockCr             // in a block comment, just after a "\r"
    | Literal(quote: char)
    | Escape(quote: char) // in a literal, just after a backslash

  function CodeEmit(c: char): string {
    if c == BYTE_ORDER_MARK || c == '/' then "" else if EndsLine(c) then "\n" else [c]
  }

  function CodeNext(c: char): Mode {
    if c == '\r' then AfterCr
    else if IsQuote(c) then Literal(c)
    else if c == '/' then Slash
    else Code
  }

  function BlockNext(c: char): Mode {
    if c == '\r' then BlockCr else if c == '*' then BlockStar else Block
  }

  function BlockEmit(c: char): string {
    if EndsLine(c) then "\n" else ""
  }

  function Next(m: Mode, c: char): Mode {
    match m
    case Code => CodeNext(c)
    case AfterCr => if c == '\n' then Code else CodeNext(c)
    case Slash => if c == '/' then LineComment else if c == '*' then Block else CodeNext(c)
    case LineComment => if EndsLine(c) then CodeNext(c) else LineComment
    case Block => BlockNext(c)
    case BlockStar => if c == '/' then Code else BlockNext(c)
    case BlockCr => if c == '\n' then Block else BlockNext(c)
    case Literal(q) =>
      if c == '\\' then Escape(q) else if c == q then Code
      else if q != '`' && EndsLine(c) then CodeNext(c) else m
    case Escape(q) => Literal(q)
  }

  function Emit(m: Mode, c: char): string {
    match m
    case Code => CodeEmit(c)
    case AfterCr => if c == '\n' then "" else CodeEmit(c)
    case Slash => if c == '/' || c == '*' then "" else "/" + CodeEmit(c)
    case LineComment => if EndsLine(c) then CodeEmit(c) else ""
    case Block => BlockEmit(c)
    case BlockStar => if c == '/' then "" else BlockEmit(c)
    case BlockCr => if c == '\n' then "" else BlockEmit(c)
    case Literal(q) =>
      if c == '\\' then "" else if c == q then [q]
      else if q != '`' && EndsLine(c) then [q] + CodeEmit(c) else ""
    case Escape(q) => ""
  }

  /** What the end of the text makes of an unfinished mode. */
  function Finish(m: Mode): string {
    match m
    case Slash => "/"
    case Literal(q) => [q]
    case Escape(q) => [q]
    case _ => ""
  }

  /** What the automaton writes for the text from position `i` on. */
  function Scan(m: Mode, s: string, i: nat): string
    requires i <= |s|
    decreases |s| - i, 1
  {
    if i == |s| then Finish(m) else Emit(m, s[i]) + Rest(m, s, i)
  }

  /** What it writes once it has read the character at `i`. */
  function Rest(m: Mode, s: string, i: nat): string
    requires i < |s|
    decreases |s| - i, 0
  {
    Scan(Next(m, s[i]), s, i + 1)
  }

  // ---------------------------------------------------------------------------------------------
  // The scan as the palette runs it, jumping over literals and comments
  // ---------------------------------------------------------------------------------------------

  // How the automaton reads one character of a literal.

  lemma EscapeStep(quote: char, s: string, i: nat)
    requires i <= |s|
    ensures Scan(Escape(quote), s, i) == if i < |s| then Scan(Literal(quote), s, i + 1) else [quote]
  {
  }

  lemma LiteralEscape(quote: char, s: string, i: nat)
    requires i < |s| && s[i] == '\\'
    ensures Scan(Literal(quote), s, i) == if i + 1 < |s| then Scan(Literal(quote), s, i + 2) else [quote]
  {
    EscapeStep(quote, s, i + 1);
    assert Emit(Literal(quote), s[i]) == "" && Rest(Literal(quote), s, i) == Scan(Escape(quote), s, i + 1);
  }

  lemma LiteralCloses(quote: char, s: string, i: nat)
    requires i < |s| && IsQuote(quote) && s[i] == quote
    ensures Scan(Literal(quote), s, i) == [quote] + Scan(Code, s, i + 1)
  {
  }

  lemma LiteralBreaks(quote: char, s: string, i: nat)
    requires i < |s| && IsQuote(quote) && quote != '`' && EndsLine(s[i])
    ensures Scan(Literal(quote), s, i) == [quote] + Scan(Code, s, i)
  {
    Regroup([quote], CodeEmit(s[i]), Scan(CodeNext(s[i]), s, i + 1));
  }

  lemma LiteralRuns(quote: char, s: string, i: nat)
    requires i < |s| && s[i] != '\\' && s[i] != quote && (quote == '`' || !EndsLine(s[i]))
    ensures Scan(Literal(quote), s, i) == Scan(Literal(quote), s, i + 1)
  {
  }

  /** The position behind the literal whose inside begins at `i`. */
  function LiteralEnd(quote: char, s: string, i: nat): (end: nat)
    ensures end <= |s|
    decreases |s| - i
  {
    if i >= |s| then |s|
    else if s[i] == '\\' then LiteralEnd(quote, s, i + 2)
    else if s[i] == quote then i + 1
    else if quote != '`' && EndsLine(s[i]) then i
    else LiteralEnd(quote, s, i + 1)
  }

  /** Of the inside of a literal the automaton writes the closing quote alone. */
  lemma {:induction false} LiteralIsEmptied(quote: char, s: string, i: nat)
    requires i <= |s| && IsQuote(quote)
    ensures i <= LiteralEnd(quote, s, i)
    ensures Scan(Literal(quote), s, i) == [quote] + Scan(Code, s, LiteralEnd(quote, s, i))
    decreases |s| - i
  {
    if i == |s| {
      assert Scan(Literal(quote), s, i) == [quote] && Scan(Code, s, i) == "";
    } else if s[i] == '\\' {
      LiteralEscape(quote, s, i);
      if i + 1 < |s| {
        LiteralIsEmptied(quote, s, i + 2);
      } else {
        assert LiteralEnd(quote, s, i) == |s| && Scan(Code, s, |s|) == "";
      }
    } else if s[i] == quote {
      LiteralCloses(quote, s, i);
    } else if quote != '`' && EndsLine(s[i]) {
      LiteralBreaks(quote, s, i);
    } else {
      LiteralRuns(quote, s, i);
      LiteralIsEmptied(quote, s, i + 1);
    }
  }

  lemma LiteralOpens(s: string, i: nat)
    requires i < |s| && IsQuote(s[i])
    ensures Scan(Code, s, i) == [s[i]] + Scan(Literal(s[i]), s, i + 1)
  {
  }

  /** From the opening quote at `index` to the last character of the literal: a closing quote follows
      the opening one, whatever was between them. */
  method ConsumeString(source: string, index: nat, out: string) returns (last: nat, body: string)
    requires index < |source| && IsQuote(source[index])
    ensures index <= last < |source|
    ensures body == out + [source[index]] + [source[index]]
    ensures body + Scan(Code, source, last + 1) == out + Scan(Code, source, index)
  {
    var quote := source[index];
    LiteralOpens(source, index);
    LiteralIsEmptied(quote, source, index + 1);
    last, body := SkipString(source, index, out);
    Regroup(out, [quote], [quote] + Scan(Code, source, last + 1));
    Regroup(out + [quote], [quote], Scan(Code, source, last + 1));
  }

  method SkipString(source: string, index: nat, out: string) returns (last: nat, body: string)
    requires index < |source| && index + 1 <= LiteralEnd(source[index], source, index + 1)
    ensures last + 1 == LiteralEnd(source[index], source, index + 1)
    ensures body == out + [source[index]] + [source[index]]
  {
    var quote := source[index];
    body := out + [quote];
    var scan := index + 1;
    while scan < |source|
      invariant index < scan
      invariant LiteralEnd(quote, source, scan) == LiteralEnd(quote, source, index + 1)
    {
      var character := source[scan];
      if character == '\\' {
        scan := scan + 2;
        continue;
      }
      if character == quote {
        return scan, body + [quote];
      }
      if quote != '`' && EndsLine(character) {
        return scan - 1, body + [quote];
      }
      scan := scan + 1;
    }
    return |source| - 1, body + [quote];
  }

  lemma BlockStep(s: string, i: nat)
    requires i < |s|
    ensures EndsLine(s[i]) ==>
              Scan(Block, s, i) ==
              "\n" + (if s[i] == '\r' && i + 1 < |s| && s[i + 1] == '\n' then Scan(Block, s, i + 2)
                      else Scan(Block, s, i + 1))
    ensures s[i] == '*' ==>
              Scan(Block, s, i) ==
              if i + 1 < |s| && s[i + 1] == '/' then Scan(Code, s, i + 2) else Scan(Block, s, i + 1)
    ensures !EndsLine(s[i]) && s[i] != '*' ==> Scan(Block, s, i) == Scan(Block, s, i + 1)
  {
    if s[i] == '*' {
      StarStep(s, i + 1);
    } else if s[i] == '\r' {
      BlockCrStep(s, i + 1);
    }
  }

  lemma StarStep(s: string, i: nat)
    requires i <= |s|
    ensures Scan(BlockStar, s, i) == if i < |s| && s[i] == '/' then Scan(Code, s, i + 1) else Scan(Block, s, i)
  {
  }

  lemma BlockCrStep(s: string, i: nat)
    requires i <= |s|
    ensures Scan(BlockCr, s, i) == if i < |s| && s[i] == '\n' then Scan(Block, s, i + 1) else Scan(Block, s, i)
  {
  }

  /** The position behind the block comment whose inside begins at `i`. */
  function BlockEnd(s: string, i: nat): (end: nat)
    ensures end <= |s|
    decreases |s| - i
  {
    if i >= |s| then |s|
    else if s[i] == '*' && i + 1 < |s| && s[i + 1] == '/' then i + 2
    else if s[i] == '\r' && i + 1 < |s| && s[i + 1] == '\n' then BlockEnd(s, i + 2)
    else BlockEnd(s, i + 1)
  }

  /** The line terminators in it, each written as one newline. */
  function BlockLines(s: string, i: nat): string
    decreases |s| - i
  {
    if i >= |s| then ""
    else if s[i] == '*' && i + 1 < |s| && s[i + 1] == '/' then ""
    else if s[i] == '\r' && i + 1 < |s| && s[i + 1] == '\n' then "\n" + BlockLines(s, i + 2)
    else BlockEmit(s[i]) + BlockLines(s, i + 1)
  }

  /** Of the inside of a block comment the automaton writes its line terminators alone. */
  lemma {:induction false} BlockIsEmptied(s: string, i: nat)
    requires i <= |s|
    ensures i <= BlockEnd(s, i)
    ensures Scan(Block, s, i) == BlockLines(s, i) + Scan(Code, s, BlockEnd(s, i))
    decreases |s| - i
  {
    if i == |s| {
      assert Scan(Block, s, i) == "" && Scan(Code, s, i) == "";
    } else {
      BlockStep(s, i);
      if s[i] == '\r' && i + 1 < |s| && s[i + 1] == '\n' {
        BlockIsEmptied(s, i + 2);
        Regroup("\n", BlockLines(s, i + 2), Scan(Code, s, BlockEnd(s, i + 2)));
      } else if !(s[i] == '*' && i + 1 < |s| && s[i + 1] == '/') {
        BlockIsEmptied(s, i + 1);
        Regroup(BlockEmit(s[i]), BlockLines(s, i + 1), Scan(Code, s, BlockEnd(s, i + 1)));
      }
    }
  }

  lemma BlockOpens(s: string, i: nat)
    requires i + 1 < |s| && s[i] == '/' && s[i + 1] == '*'
    ensures Scan(Code, s, i) == Scan(Block, s, i + 2)
  {
    assert Scan(Slash, s, i + 1) == Scan(Block, s, i + 2);
  }

  /** From the "/" of a block comment at `index` to its last character. */
  method ConsumeBlockComment(source: string, index: nat, out: string) returns (last: nat, body: string)
    requires index + 1 < |source| && source[index] == '/' && source[index + 1] == '*'
    ensures index < last < |source|
    ensures body + Scan(Code, source, last + 1) == out + Scan(Code, source, index)
  {
    BlockOpens(source, index);
    BlockIsEmptied(source, index + 2);
    last, body := SkipBlock(source, index, out);
    Regroup(out, BlockLines(source, index + 2), Scan(Code, source, last + 1));
  }

  method SkipBlock(source: string, index: nat, out: string) returns (last: nat, body: string)
    requires index + 2 <= |source| && index + 2 <= BlockEnd(source, index + 2)
    ensures last + 1 == BlockEnd(source, index + 2)
    ensures body == out + BlockLines(source, index + 2)
  {
    body := out;
    var scan := index + 2;
    while scan < |source|
      invariant index + 2 <= scan <= |source|
      invariant BlockEnd(source, scan) == BlockEnd(source, index + 2)
      invariant body + BlockLines(source, scan) == out + BlockLines(source, index + 2)
    {
      var character := source[scan];
      if EndsLine(character) {
        if character == '\r' && scan + 1 < |source| && source[scan + 1] == '\n' {
          scan := scan + 1;
        }
        Regroup(body, "\n", BlockLines(source, scan + 1));
        body := body + "\n";
        scan := scan + 1;
        continue;
      }
      if character == '*' && scan + 1 < |source| && source[scan + 1] == '/' {
        return scan + 1, body;
      }
      scan := scan + 1;
    }
    return |source| - 1, body;
  }

  /** The end of a line comment: the position of its terminator, or the end of the text. */
  method SkipLineComment(source: string, index: nat) returns (scan: nat)
    requires index + 1 < |source| && source[index] == '/' && source[index + 1] == '/'
    ensures index + 2 <= scan <= |source|
    ensures Scan(Code, source, scan) == Scan(Code, source, index)
  {
    scan := index + 2;
    assert Scan(Slash, source, index + 1) == Scan(LineComment, source, scan);
    assert Scan(Code, source, index) == Scan(Slash, source, index + 1);
    while scan < |source| && !EndsLine(source[scan])
      invariant index + 2 <= scan <= |source|
      invariant Scan(LineComment, source, scan) == Scan(Code, source, index)
    {
      scan := scan + 1;
    }
  }

  lemma AfterCrStep(s: string, i: nat)
    requires i <= |s|
    ensures Scan(AfterCr, s, i) == if i < |s| && s[i] == '\n' then Scan(Code, s, i + 1) else Scan(Code, s, i)
  {
  }

  lemma SlashStep(s: string, i: nat)
    requires i <= |s| && (i == |s| || (s[i] != '/' && s[i] != '*'))
    ensures Scan(Slash, s, i) == "/" + Scan(Code, s, i)
  {
    if i < |s| {
      Regroup("/", CodeEmit(s[i]), Scan(CodeNext(s[i]), s, i + 1));
    }
  }

  /** What the scan writes at a position in code, when no literal and no comment begins there. */
  lemma CodeStep(s: string, i: nat)
    requires i < |s| && !IsQuote(s[i])
    requires s[i] == '/' && i + 1 < |s| ==> s[i + 1] != '/' && s[i + 1] != '*'
    ensures s[i] == BYTE_ORDER_MARK ==> Scan(Code, s, i) == Scan(Code, s, i + 1)
    ensures EndsLine(s[i]) ==>
              Scan(Code, s, i) ==
              "\n" + Scan(Code, s, if s[i] == '\r' && i + 1 < |s| && s[i + 1] == '\n' then i + 2 else i + 1)
    ensures s[i] != BYTE_ORDER_MARK && !EndsLine(s[i]) ==> Scan(Code, s, i) == [s[i]] + Scan(Code, s, i + 1)
  {
    if s[i] == '\r' {
      AfterCrStep(s, i + 1);
    } else if s[i] == '/' {
      SlashStep(s, i + 1);
    }
  }

  /** The index-jumping scan computes what the automaton does. */
  method Stripped(source: string) returns (body: string)
    ensures body == Scan(Code, source, 0)
  {
    body := "";
    var index := 0;
    while index < |source|
      invariant 0 <= index <= |source|
      invariant body + Scan(Code, source, index) == Scan(Code, source, 0)
    {
      var character := source[index];
      var hasNext := index + 1 < |source|;
      if IsQuote(character) {
        index, body := ConsumeString(source, index, body);
        index := index + 1;
        continue;
      }
      if character == '/' && hasNext && source[index + 1] == '/' {
        index := SkipLineComment(source, index);
        continue;
      }
      if character == '/' && hasNext && source[index + 1] == '*' {
        index, body := ConsumeBlockComment(source, index, body);
        index := index + 1;
        continue;
      }
      index, body := KeepCharacter(source, index, body);
      index := index + 1;
    }
  }

  /** A character of code: a byte order mark is dropped, a line terminator is one newline, and the rest stays. */
  method KeepCharacter(source: string, index: nat, out: string) returns (last: nat, body: string)
    requires index < |source| && !IsQuote(source[index])
    requires source[index] == '/' && index + 1 < |source| ==> source[index + 1] != '/' && source[index + 1] != '*'
    ensures index <= last < |source|
    ensures body + Scan(Code, source, last + 1) == out + Scan(Code, source, index)
  {
    var character := source[index];
    CodeStep(source, index);
    last, body := index, out;
    if character == BYTE_ORDER_MARK {
      return;
    }
    if EndsLine(character) {
      if character == '\r' && index + 1 < |source| && source[index + 1] == '\n' {
        last := index + 1;
      }
      Regroup(out, "\n", Scan(Code, source, last + 1));
      body := out + "\n";
      return;
    }
    Regroup(out, [character], Scan(Code, source, index + 1));
    body := out + [character];
  }

  // ---------------------------------------------------------------------------------------------
  // What the stripped text looks like
  // ---------------------------------------------------------------------------------------------

  predicate Proper(m: Mode) {
    (m.Literal? || m.Escape?) ==> IsQuote(m.quote)
  }

  /** A newline is the only terminator left, and no byte order mark is. */
  ghost predicate Clean(s: string) {
    forall c :: c in s ==> c != BYTE_ORDER_MARK && (EndsLine(c) ==> c == '\n')
  }

  lemma {:induction false} ScanIsClean(m: Mode, s: string, i: nat)
    requires Proper(m) && i <= |s|
    ensures Clean(Scan(m, s, i))
    decreases |s| - i
  {
    if i < |s| {
      ScanIsClean(Next(m, s[i]), s, i + 1);
    }
  }

  /** Quotes occur only as adjacent pairs of the same quote: every literal left is empty. */
  predicate Paired(s: string) {
    if s == "" then true
    else if IsQuote(s[0]) then |s| >= 2 && s[1] == s[0] && Paired(s[2..])
    else Paired(s[1..])
  }

  lemma PlainThenPaired(prefix: string, s: string)
    requires |prefix| <= 2 && (forall c :: c in prefix ==> !IsQuote(c)) && Paired(s)
    ensures Paired(prefix + s)
  {
    if |prefix| == 1 {
      assert (prefix + s)[1..] == s;
    } else if |prefix| == 2 {
      assert (prefix + s)[1..] == prefix[1..] + s;
      assert (prefix[1..] + s)[1..] == s;
    } else {
      assert prefix + s == s;
    }
  }

  lemma PairThenPaired(q: char, s: string)
    requires IsQuote(q) && Paired(s)
    ensures Paired([q] + ([q] + s))
  {
    assert ([q] + ([q] + s))[2..] == s;
  }

  /** What the text holds of a literal the automaton is inside: its opening quote. */
  function Opened(m: Mode): string {
    if m.Literal? || m.Escape? then [m.quote] else ""
  }

  lemma {:induction false} ScanIsPaired(m: Mode, s: string, i: nat)
    requires Proper(m) && i <= |s|
    ensures Paired(Opened(m) + Scan(m, s, i))
    decreases |s| - i
  {
    if i == |s| {
      FinishIsPaired(m);
    } else {
      ScanIsPaired(Next(m, s[i]), s, i + 1);
      var rest := Scan(Next(m, s[i]), s, i + 1);
      if m.Literal? || m.Escape? {
        LiteralStepIsPaired(m, s[i], rest);
      } else {
        CodeStepIsPaired(m, s[i], rest);
        assert Opened(m) + Scan(m, s, i) == Emit(m, s[i]) + rest;
      }
    }
  }

  lemma FinishIsPaired(m: Mode)
    requires Proper(m)
    ensures Paired(Opened(m) + Finish(m))
  {
    if m.Literal? || m.Escape? {
      PairThenPaired(m.quote, "");
      assert [m.quote] + ([m.quote] + "") == Opened(m) + Finish(m);
    } else {
      PlainThenPaired(Finish(m), "");
      assert Opened(m) + Finish(m) == Finish(m) + "";
    }
  }

  lemma CodeStepIsPaired(m: Mode, c: char, rest: string)
    requires !m.Literal? && !m.Escape? && Paired(Opened(Next(m, c)) + rest)
    ensures Paired(Emit(m, c) + rest)
  {
    var n := Next(m, c);
    if n.Literal? {
      var before := if m.Slash? then "/" else "";
      PlainThenPaired(before, [c] + rest);
      Regroup(before, [c], rest);
      assert Emit(m, c) == before + [c];
    } else {
      assert Opened(n) + rest == rest;
      PlainThenPaired(Emit(m, c), rest);
    }
  }

  lemma LiteralStepIsPaired(m: Mode, c: char, rest: string)
    requires Proper(m) && (m.Literal? || m.Escape?) && Paired(Opened(Next(m, c)) + rest)
    ensures Paired(Opened(m) + (Emit(m, c) + rest))
  {
    var n := Next(m, c);
    if n.Literal? || n.Escape? {
      assert Emit(m, c) + rest == rest;
    } else {
      assert Opened(n) + rest == rest;
      var after := if c == m.quote then "" else CodeEmit(c);
      assert Emit(m, c) == [m.quote] + after;
      PlainThenPaired(after, rest);
      PairThenPaired(m.quote, after + rest);
      Regroup([m.quote], after, rest);
    }
  }

  /** Inside a literal, where a line terminator is data. */
  predicate InLiteral(m: Mode) {
    m.Escape? || m == Literal('`')
  }

  /** The line terminators of the text outside literals, a "\r\n" counted once. `afterCr` says that
      the character before was a "\r" that counted. */
  function Terminators(m: Mode, afterCr: bool, s: string, i: nat): nat
    requires i <= |s|
    decreases |s| - i
  {
    if i == |s| then 0
    else
      var counts := EndsLine(s[i]) && !InLiteral(m);
      (if counts && !(afterCr && s[i] == '\n') then 1 else 0)
      + Terminators(Next(m, s[i]), counts && s[i] == '\r', s, i + 1)
  }

  function Newlines(s: string): nat {
    if s == "" then 0 else (if s[0] == '\n' then 1 else 0) + Newlines(s[1..])
  }

  lemma {:induction false} NewlinesAdd(a: string, b: string)
    ensures Newlines(a + b) == Newlines(a) + Newlines(b)
  {
    if a == "" {
      assert a + b == b;
    } else {
      assert (a + b)[1..] == a[1..] + b;
      NewlinesAdd(a[1..], b);
    }
  }

  lemma {:induction false} ScanKeepsLines(m: Mode, s: string, i: nat)
    requires Proper(m) && i <= |s|
    ensures Newlines(Scan(m, s, i)) == Terminators(m, m.AfterCr? || m.BlockCr?, s, i)
    decreases |s| - i
  {
    if i < |s| {
      var n := Next(m, s[i]);
      ScanKeepsLines(n, s, i + 1);
      NewlinesAdd(Emit(m, s[i]), Scan(n, s, i + 1));
      EmittedLines(m, s[i]);
      assert (n.AfterCr? || n.BlockCr?) == (EndsLine(s[i]) && !InLiteral(m) && s[i] == '\r');
    }
  }

  lemma EmittedLines(m: Mode, c: char)
    requires Proper(m)
    ensures Newlines(Emit(m, c)) ==
            if EndsLine(c) && !InLiteral(m) && !((m.AfterCr? || m.BlockCr?) && c == '\n') then 1 else 0
  {
    NewlinesAdd("/", CodeEmit(c));
    if m.Literal? {
      NewlinesAdd([m.quote], CodeEmit(c));
    }
    assert Newlines("\n") == 1 && Newlines("/") == 0 && Newlines("") == 0;
  }

  /** The stripped text has one kind of terminator and no mark, only empty literals, and as many lines
      as the page has outside its literals. */
  lemma StrippedText(source: string)
    ensures Clean(Scan(Code, source, 0)) && Paired(Scan(Code, source, 0))
    ensures Newlines(Scan(Code, source, 0)) == Terminators(Code, false, source, 0)
  {
    ScanIsClean(Code, source, 0);
    ScanIsPaired(Code, source, 0);
    assert Opened(Code) + Scan(Code, source, 0) == Scan(Code, source, 0);
    ScanKeepsLines(Code, source, 0);
  }
}
