/**
 Which delivered page the palette admits (src/client/qmlpalette.cpp): the statement splitter, the
 header scan and the final sweep, against one condition on the stripped text.
 */
module Palette {
  import opened PaletteText

  /** QChar::isSpace. */
  predicate IsSpace(c: char) {
    || '\U{0009}' <= c <= '\U{000D}' || c == ' ' || c == '\U{0085}' || c == '\U{00A0}' || c == '\U{1680}'
    || '\U{2000}' <= c <= '\U{200A}' || c == '\U{2028}' || c == '\U{2029}' || c == '\U{202F}'
    || c == '\U{205F}' || c == '\U{3000}'
  }

  /** Where a statement ends. */
  predicate IsSeparator(c: char) {
    c == '\n' || c == ';'
  }

  /** The Unicode letter-or-number test, of which only this is used: no space, separator or quote passes it. */
  ghost predicate Unicode(letterOrNumber: char -> bool) {
    forall c :: IsSpace(c) || IsSeparator(c) || c == '"' || c == '\'' ==> !letterOrNumber(c)
  }

  predicate IsIdentifierChar(c: char, letterOrNumber: char -> bool) {
    letterOrNumber(c) || c == '_' || c == '$'
  }

  // ---------------------------------------------------------------------------------------------
  // Statements
  // ---------------------------------------------------------------------------------------------

  /** Nothing but spaces, and no separator. */
  predicate Blank(b: string, lo: nat, hi: nat)
    requires lo <= hi <= |b|
  {
    forall j :: lo <= j < hi ==> IsSpace(b[j]) && !IsSeparator(b[j])
  }

  predicate NoSeparator(b: string, lo: nat, hi: nat)
    requires lo <= hi <= |b|
  {
    forall j :: lo <= j < hi ==> !IsSeparator(b[j])
  }

  /** From `k` on, up to `lo`, there is only blank text behind a separator or the start. */
  predicate LeftEdge(b: string, k: nat, lo: nat) {
    k <= lo <= |b| && (k == 0 || IsSeparator(b[k - 1])) && Blank(b, k, lo)
  }

  predicate RightEdge(b: string, hi: nat, k: nat) {
    hi <= k <= |b| && (k == |b| || IsSeparator(b[k])) && Blank(b, hi, k)
  }

  /** A statement: text without separators or outer spaces, with nothing but spaces between it and the
      separators around it. */
  ghost predicate IsStatement(b: string, lo: nat, hi: nat) {
    && lo < hi <= |b| && !IsSpace(b[lo]) && !IsSpace(b[hi - 1]) && NoSeparator(b, lo, hi)
    && (exists k: nat :: LeftEdge(b, k, lo))
    && (exists k: nat :: RightEdge(b, hi, k))
  }

  datatype Statement = Statement(offset: nat, text: string)

  ghost predicate Describes(b: string, st: Statement) {
    && st.offset + |st.text| <= |b|
    && st.text == b[st.offset..st.offset + |st.text|]
    && IsStatement(b, st.offset, st.offset + |st.text|)
  }

  /** A statement inside a stretch between separators takes all of it but the blanks. */
  lemma StatementInStretch(b: string, begin: nat, end: nat, lo: nat, hi: nat)
    requires begin <= end <= |b| && NoSeparator(b, begin, end)
    requires begin == 0 || IsSeparator(b[begin - 1])
    requires end == |b| || IsSeparator(b[end])
    requires IsStatement(b, lo, hi) && begin <= lo <= end
    ensures lo < end && hi <= end && Blank(b, begin, lo) && Blank(b, hi, end)
  {
    var k: nat :| LeftEdge(b, k, lo);
    assert lo < end;
    assert k == begin;
    assert hi <= end;
    var r: nat :| RightEdge(b, hi, r);
    assert r == end;
  }

  lemma StatementsDoNotShareStarts(b: string, lo: nat, hi: nat, hi': nat)
    requires IsStatement(b, lo, hi) && IsStatement(b, lo, hi')
    ensures hi == hi'
  {
    if hi < hi' {
      ShorterStatement(b, lo, hi, hi');
    } else if hi' < hi {
      ShorterStatement(b, lo, hi', hi);
    }
  }

  lemma ShorterStatement(b: string, lo: nat, hi: nat, hi': nat)
    requires IsStatement(b, lo, hi) && IsStatement(b, lo, hi')
    ensures !(hi < hi')
  {
    var r: nat :| RightEdge(b, hi, r);
  }

  /** A stretch between separators holds one statement, its text without the blanks, or none. */
  lemma StretchHoldsOne(b: string, begin: nat, end: nat, first: nat, last: nat)
    requires begin <= first <= last <= end <= |b| && NoSeparator(b, begin, end)
    requires begin == 0 || IsSeparator(b[begin - 1])
    requires end == |b| || IsSeparator(b[end])
    requires Blank(b, begin, first) && Blank(b, last, end)
    requires first < last ==> !IsSpace(b[first]) && !IsSpace(b[last - 1])
    ensures first < last ==> IsStatement(b, first, last)
    ensures forall lo: nat, hi: nat :: IsStatement(b, lo, hi) && begin <= lo <= end ==> lo == first < last == hi
  {
    if first < last {
      assert LeftEdge(b, begin, first) && RightEdge(b, last, end);
    }
    forall lo: nat, hi: nat | IsStatement(b, lo, hi) && begin <= lo <= end ensures lo == first < last == hi {
      StatementInStretch(b, begin, end, lo, hi);
    }
  }

  /** The statements that begin before `limit`, in order and without gaps. */
  ghost predicate ListedBefore(b: string, statements: seq<Statement>, limit: nat) {
    && (forall i :: 0 <= i < |statements| ==> Describes(b, statements[i]) && statements[i].offset < limit)
    && (forall i, j :: 0 <= i < j < |statements| ==> statements[i].offset < statements[j].offset)
    && (forall lo: nat, hi: nat :: IsStatement(b, lo, hi) && lo < limit ==> Statement(lo, b[lo..hi]) in statements)
  }

  lemma ListedFurther(b: string, statements: seq<Statement>, begin: nat, end: nat, first: nat, last: nat)
    requires ListedBefore(b, statements, begin) && begin <= first <= last <= end <= |b|
    requires first < last ==> IsStatement(b, first, last)
    requires forall lo: nat, hi: nat :: IsStatement(b, lo, hi) && begin <= lo <= end ==> lo == first < last == hi
    ensures ListedBefore(b, if first < last then statements + [Statement(first, b[first..last])] else statements,
                         end + 1)
  {
    if first < last {
      var here := Statement(first, b[first..last]);
      var more := statements + [here];
      assert Describes(b, here);
      assert forall i :: 0 <= i < |more| ==> more[i] == if i < |statements| then statements[i] else here;
      forall lo: nat, hi: nat | IsStatement(b, lo, hi) && lo < end + 1 ensures Statement(lo, b[lo..hi]) in more {
        if lo < begin {
          var i :| 0 <= i < |statements| && statements[i] == Statement(lo, b[lo..hi]);
          assert more[i] == Statement(lo, b[lo..hi]);
        } else {
          assert more[|statements|] == Statement(lo, b[lo..hi]);
        }
      }
    }
  }

  method StatementsOf(body: string) returns (statements: seq<Statement>)
    ensures ListedBefore(body, statements, |body| + 1)
  {
    statements := [];
    var begin := 0;
    var index := 0;
    while index <= |body|
      invariant 0 <= begin <= index <= |body| + 1
      invariant begin == index || begin <= index <= |body|
      invariant begin == 0 || begin == |body| + 1 || IsSeparator(body[begin - 1])
      invariant forall j :: begin <= j < index ==> !IsSeparator(body[j])
      invariant ListedBefore(body, statements, begin)
    {
      if index < |body| && !IsSeparator(body[index]) {
        index := index + 1;
        continue;
      }
      statements := AddStretch(body, begin, index, statements);
      begin := index + 1;
      index := index + 1;
    }
  }

  /** The statement of a stretch, if there is one. */
  method AddStretch(body: string, begin: nat, end: nat, statements: seq<Statement>) returns (more: seq<Statement>)
    requires begin <= end <= |body| && NoSeparator(body, begin, end)
    requires begin == 0 || IsSeparator(body[begin - 1])
    requires end == |body| || IsSeparator(body[end])
    requires ListedBefore(body, statements, begin)
    ensures ListedBefore(body, more, end + 1)
  {
    var first, last := Trimmed(body, begin, end);
    StretchHoldsOne(body, begin, end, first, last);
    ListedFurther(body, statements, begin, end, first, last);
    more := if last > first then statements + [Statement(first, body[first..last])] else statements;
  }

  /** The stretch without the blanks at its ends. */
  method Trimmed(body: string, begin: nat, end: nat) returns (first: nat, last: nat)
    requires begin <= end <= |body| && NoSeparator(body, begin, end)
    ensures begin <= first <= last <= end
    ensures Blank(body, begin, first) && Blank(body, last, end)
    ensures first < last ==> !IsSpace(body[first]) && !IsSpace(body[last - 1])
  {
    first, last := begin, end;
    while first < last && IsSpace(body[first])
      invariant begin <= first <= last && Blank(body, begin, first)
    {
      first := first + 1;
    }
    while last > first && IsSpace(body[last - 1])
      invariant first <= last <= end && Blank(body, last, end)
    {
      last := last - 1;
    }
  }

  // ---------------------------------------------------------------------------------------------
  // Keywords and imports
  // ---------------------------------------------------------------------------------------------

  const IMPORT := "import"
  const PRAGMA := "pragma"

  predicate MatchesKeyword(line: string, keyword: string, quoteEndsKeyword: bool) {
    && keyword <= line
    && (|line| == |keyword|
        || IsSpace(line[|keyword|])
        || (quoteEndsKeyword && (line[|keyword|] == '"' || line[|keyword|] == '\'')))
  }

  predicate IsImport(line: string) { MatchesKeyword(line, IMPORT, true) }

  predicate IsPragma(line: string) { MatchesKeyword(line, PRAGMA, false) }

  /** `import`, spaces, and then a word that is a declared module and no quoted path. The word is
      `line[from..to]`. */
  predicate NamesModuleAt(line: string, modules: seq<string>, from: nat, to: nat) {
    && IMPORT <= line && |IMPORT| < from < to <= |line|
    && (forall j :: |IMPORT| <= j < from ==> IsSpace(line[j]))
    && (forall j :: from <= j < to ==> !IsSpace(line[j]))
    && (to == |line| || IsSpace(line[to]))
    && line[from] != '"' && line[from] != '\''
    && line[from..to] in modules
  }

  ghost predicate NamesModule(line: string, modules: seq<string>) {
    exists from: nat, to: nat :: NamesModuleAt(line, modules, from, to)
  }

  /** The palette's own reading of one import line. `line` has no outer spaces. */
  method Approves(line: string, modules: seq<string>) returns (ok: bool)
    requires IsImport(line) && !IsSpace(line[|line| - 1])
    ensures ok <==> NamesModule(line, modules)
  {
    var from := |IMPORT|;
    while from < |line| && IsSpace(line[from])
      invariant |IMPORT| <= from <= |line|
      invariant forall j :: |IMPORT| <= j < from ==> IsSpace(line[j])
    {
      from := from + 1;
    }
    var to := from;
    while to < |line| && !IsSpace(line[to])
      invariant from <= to <= |line|
      invariant forall j :: from <= j < to ==> !IsSpace(line[j])
    {
      to := to + 1;
    }
    assert forall f: nat, t: nat :: NamesModuleAt(line, modules, f, t) ==> f == from && t == to;
    if from == |line| {
      return false;
    }
    if line[from] == '"' || line[from] == '\'' {
      return false;
    }
    assert from > |IMPORT|;
    ok := line[from..to] in modules;
    assert ok ==> NamesModuleAt(line, modules, from, to);
  }

  // ---------------------------------------------------------------------------------------------
  // The condition
  // ---------------------------------------------------------------------------------------------

  predicate Occurs(b: string, i: nat) {
    i + |IMPORT| <= |b| && b[i..i + |IMPORT|] == IMPORT
  }

  /** The keyword, with no identifier running into it on either side. */
  predicate Standalone(b: string, i: nat, letterOrNumber: char -> bool) {
    && Occurs(b, i)
    && (i == 0 || !IsIdentifierChar(b[i - 1], letterOrNumber))
    && (i + |IMPORT| == |b| || !IsIdentifierChar(b[i + |IMPORT|], letterOrNumber))
  }

  /** Only imports and pragmas stand before `i`. */
  ghost predicate InHeader(b: string, i: nat) {
    forall lo: nat, hi: nat :: IsStatement(b, lo, hi) && lo < i ==> IsImport(b[lo..hi]) || IsPragma(b[lo..hi])
  }

  /** The import at `i` begins a statement of the header and names a declared module. */
  ghost predicate GoodImport(b: string, i: nat, modules: seq<string>) {
    InHeader(b, i) && exists hi: nat :: IsStatement(b, i, hi) && NamesModule(b[i..hi], modules)
  }

  /** Every standalone `import` of the stripped text is a good one. */
  ghost predicate Acceptable(b: string, modules: seq<string>, letterOrNumber: char -> bool) {
    forall i: nat :: Standalone(b, i, letterOrNumber) ==> GoodImport(b, i, modules)
  }

  /** A statement that reads as an import begins with the standalone keyword. */
  lemma ImportStatementStandsAlone(b: string, lo: nat, hi: nat, letterOrNumber: char -> bool)
    requires Unicode(letterOrNumber) && IsStatement(b, lo, hi) && IsImport(b[lo..hi])
    ensures Standalone(b, lo, letterOrNumber)
  {
    var line := b[lo..hi];
    assert b[lo..lo + |IMPORT|] == line[..|IMPORT|];
    var k: nat :| LeftEdge(b, k, lo);
    if lo > 0 {
      assert IsSeparator(b[lo - 1]) || IsSpace(b[lo - 1]);
    }
    var after := lo + |IMPORT|;
    if after < hi {
      assert b[after] == line[|IMPORT|];
    } else if after < |b| {
      var r: nat :| RightEdge(b, hi, r);
      assert IsSeparator(b[after]) || IsSpace(b[after]);
    }
  }

  /** An import that names a module reads as an import. */
  lemma NamedIsImport(line: string, modules: seq<string>)
    requires NamesModule(line, modules)
    ensures IsImport(line)
  {
    var f: nat, t: nat :| NamesModuleAt(line, modules, f, t);
    assert IsSpace(line[|IMPORT|]);
  }

  /** A bad import statement refutes the condition. */
  lemma BadStatementRefutes(b: string, lo: nat, hi: nat, modules: seq<string>, letterOrNumber: char -> bool)
    requires Unicode(letterOrNumber) && IsStatement(b, lo, hi) && IsImport(b[lo..hi])
    requires !InHeader(b, lo) || !NamesModule(b[lo..hi], modules)
    ensures !Acceptable(b, modules, letterOrNumber)
  {
    ImportStatementStandsAlone(b, lo, hi, letterOrNumber);
    if GoodImport(b, lo, modules) {
      var hi': nat :| IsStatement(b, lo, hi') && NamesModule(b[lo..hi'], modules);
      StatementsDoNotShareStarts(b, lo, hi, hi');
    }
  }

  /** Every statement before the `n`-th one reads as an import or a pragma. */
  ghost predicate HeaderSoFar(statements: seq<Statement>, n: nat) {
    n <= |statements| && forall i :: 0 <= i < n ==> IsImport(statements[i].text) || IsPragma(statements[i].text)
  }

  lemma HeaderIsHeader(b: string, statements: seq<Statement>, n: nat)
    requires ListedBefore(b, statements, |b| + 1) && n < |statements|
    ensures InHeader(b, statements[n].offset) <==> HeaderSoFar(statements, n)
  {
    if InHeader(b, statements[n].offset) {
      HeaderStatements(b, statements, n);
    }
    if HeaderSoFar(statements, n) {
      StatementsInHeader(b, statements, n);
    }
  }

  lemma HeaderStatements(b: string, statements: seq<Statement>, n: nat)
    requires ListedBefore(b, statements, |b| + 1) && n < |statements| && InHeader(b, statements[n].offset)
    ensures HeaderSoFar(statements, n)
  {
    forall i | 0 <= i < n ensures IsImport(statements[i].text) || IsPragma(statements[i].text) {
      assert Describes(b, statements[i]) && statements[i].offset < statements[n].offset;
    }
  }

  /** Where in the list a statement stands. */
  lemma Listed(b: string, statements: seq<Statement>, lo: nat, hi: nat) returns (i: nat)
    requires ListedBefore(b, statements, |b| + 1) && IsStatement(b, lo, hi)
    ensures i < |statements| && statements[i] == Statement(lo, b[lo..hi])
    ensures forall n :: 0 <= n < |statements| && lo < statements[n].offset ==> i < n
  {
    i :| 0 <= i < |statements| && statements[i] == Statement(lo, b[lo..hi]);
  }

  lemma StatementsInHeader(b: string, statements: seq<Statement>, n: nat)
    requires ListedBefore(b, statements, |b| + 1) && n < |statements| && HeaderSoFar(statements, n)
    ensures InHeader(b, statements[n].offset)
  {
    forall lo: nat, hi: nat | IsStatement(b, lo, hi) && lo < statements[n].offset
      ensures IsImport(b[lo..hi]) || IsPragma(b[lo..hi])
    {
      var i := Listed(b, statements, lo, hi);
      assert i < n;
    }
  }

  /** The `n`-th statement is an import of the header that names a declared module. */
  ghost predicate Approved(statements: seq<Statement>, n: nat, modules: seq<string>)
    requires n < |statements|
  {
    HeaderSoFar(statements, n) && NamesModule(statements[n].text, modules)
  }

  /** Approved imports are good ones, and one that is not refutes the condition. */
  lemma ApprovedIsGood(b: string, statements: seq<Statement>, n: nat, modules: seq<string>,
                       letterOrNumber: char -> bool)
    requires Unicode(letterOrNumber) && ListedBefore(b, statements, |b| + 1)
    requires n < |statements| && IsImport(statements[n].text)
    ensures Approved(statements, n, modules) ==> GoodImport(b, statements[n].offset, modules)
    ensures !Approved(statements, n, modules) ==> !Acceptable(b, modules, letterOrNumber)
  {
    var lo, hi := statements[n].offset, statements[n].offset + |statements[n].text|;
    assert Describes(b, statements[n]) && IsStatement(b, lo, hi);
    HeaderIsHeader(b, statements, n);
    if !Approved(statements, n, modules) {
      BadStatementRefutes(b, lo, hi, modules, letterOrNumber);
    }
  }

  /** A statement of the list has no blank at its end. */
  lemma EndsInText(b: string, st: Statement)
    requires Describes(b, st)
    ensures st.text != "" && !IsSpace(st.text[|st.text| - 1])
  {
    assert st.text[|st.text| - 1] == b[st.offset + |st.text| - 1];
  }

  ghost function ImportOffsets(statements: seq<Statement>, n: nat): set<nat>
    requires n <= |statements|
  {
    set i | 0 <= i < n && IsImport(statements[i].text) :: statements[i].offset
  }

  /** The loop of the header scan, on the list alone: every import is approved, or there is one that is not. */
  method ApproveAll(statements: seq<Statement>, modules: seq<string>)
    returns (ok: bool, approved: set<nat>, ghost refused: nat)
    requires forall i :: 0 <= i < |statements| ==>
               statements[i].text != "" && !IsSpace(statements[i].text[|statements[i].text| - 1])
    ensures ok ==> approved == ImportOffsets(statements, |statements|)
    ensures ok ==> forall i :: 0 <= i < |statements| && IsImport(statements[i].text) ==>
                     Approved(statements, i, modules)
    ensures !ok ==> refused < |statements| && IsImport(statements[refused].text)
                    && !Approved(statements, refused, modules)
  {
    approved, refused := {}, 0;
    var headerEnded := false;
    for n := 0 to |statements|
      invariant headerEnded <==> !HeaderSoFar(statements, n)
      invariant approved == ImportOffsets(statements, n)
      invariant forall i :: 0 <= i < n && IsImport(statements[i].text) ==> Approved(statements, i, modules)
    {
      var line := statements[n].text;
      if IsImport(line) {
        if headerEnded {
          return false, {}, n;
        }
        var named := Approves(line, modules);
        if !named {
          return false, {}, n;
        }
        approved := approved + {statements[n].offset};
      } else if !IsPragma(line) {
        headerEnded := true;
        assert !HeaderSoFar(statements, n + 1);
      }
    }
    ok := true;
  }

  /** The header scan: which offsets were approved, or a refusal. */
  method ScanHeader(b: string, statements: seq<Statement>, modules: seq<string>, ghost letterOrNumber: char -> bool)
    returns (ok: bool, approved: set<nat>)
    requires Unicode(letterOrNumber) && ListedBefore(b, statements, |b| + 1)
    ensures !ok ==> !Acceptable(b, modules, letterOrNumber)
    ensures ok ==> forall i :: i in approved ==> GoodImport(b, i, modules)
    ensures ok ==> forall lo: nat, hi: nat :: IsStatement(b, lo, hi) && IsImport(b[lo..hi]) ==> lo in approved
  {
    forall i | 0 <= i < |statements|
      ensures statements[i].text != "" && !IsSpace(statements[i].text[|statements[i].text| - 1])
    {
      EndsInText(b, statements[i]);
    }
    ghost var refused;
    ok, approved, refused := ApproveAll(statements, modules);
    if ok {
      OffsetsAreGood(b, statements, approved, modules, letterOrNumber);
      OffsetsAreAll(b, statements, approved);
    } else {
      ApprovedIsGood(b, statements, refused, modules, letterOrNumber);
    }
  }

  lemma OffsetsAreGood(b: string, statements: seq<Statement>, approved: set<nat>, modules: seq<string>,
                       letterOrNumber: char -> bool)
    requires Unicode(letterOrNumber) && ListedBefore(b, statements, |b| + 1)
    requires approved == ImportOffsets(statements, |statements|)
    requires forall i :: 0 <= i < |statements| && IsImport(statements[i].text) ==> Approved(statements, i, modules)
    ensures forall at :: at in approved ==> GoodImport(b, at, modules)
  {
    forall at | at in approved ensures GoodImport(b, at, modules) {
      var i :| 0 <= i < |statements| && IsImport(statements[i].text) && statements[i].offset == at;
      ApprovedIsGood(b, statements, i, modules, letterOrNumber);
    }
  }

  lemma OffsetsAreAll(b: string, statements: seq<Statement>, approved: set<nat>)
    requires ListedBefore(b, statements, |b| + 1) && approved == ImportOffsets(statements, |statements|)
    ensures forall lo: nat, hi: nat :: IsStatement(b, lo, hi) && IsImport(b[lo..hi]) ==> lo in approved
  {
    forall lo: nat, hi: nat | IsStatement(b, lo, hi) && IsImport(b[lo..hi]) ensures lo in approved {
      var i := Listed(b, statements, lo, hi);
      assert statements[i].offset == lo && IsImport(statements[i].text);
    }
  }

  /** QString::indexOf. */
  method IndexOf(b: string, from: nat) returns (index: int)
    ensures index >= 0 ==> from <= index && Occurs(b, index) && forall j: nat :: from <= j < index ==> !Occurs(b, j)
    ensures index < 0 ==> forall j: nat :: from <= j ==> !Occurs(b, j)
  {
    var i := from;
    while i + |IMPORT| <= |b|
      invariant from <= i
      invariant forall j: nat :: from <= j < i ==> !Occurs(b, j)
    {
      if b[i..i + |IMPORT|] == IMPORT {
        return i;
      }
      i := i + 1;
    }
    return -1;
  }

  /** The final sweep: the keyword stands alone nowhere it was not approved. */
  method Sweep(b: string, approved: set<nat>, letterOrNumber: char -> bool) returns (ok: bool)
    ensures ok <==> forall i: nat :: Standalone(b, i, letterOrNumber) ==> i in approved
  {
    var index := IndexOf(b, 0);
    while index >= 0
      invariant index >= 0 ==> Occurs(b, index)
      invariant index >= 0 ==> forall i: nat :: i < index && Standalone(b, i, letterOrNumber) ==> i in approved
      invariant index < 0 ==> forall i: nat :: Standalone(b, i, letterOrNumber) ==> i in approved
      decreases if index < 0 then 0 else 1 + |b| - index
    {
      if index !in approved {
        var after := index + |IMPORT|;
        var startsToken := index == 0 || !IsIdentifierChar(b[index - 1], letterOrNumber);
        var endsToken := after >= |b| || !IsIdentifierChar(b[after], letterOrNumber);
        if startsToken && endsToken {
          assert Standalone(b, index, letterOrNumber);
          return false;
        }
        assert !Standalone(b, index, letterOrNumber);
      }
      index := IndexOf(b, index + 1);
    }
    ok := true;
  }

  /** A page is admitted if and only if, in its stripped text, every standalone `import` begins a
      statement that follows imports and pragmas only, and is followed by whitespace and a declared,
      unquoted module. */
  method IsAcceptable(source: string, modules: seq<string>, letterOrNumber: char -> bool) returns (ok: bool)
    requires Unicode(letterOrNumber)
    ensures ok <==> Acceptable(Scan(Code, source, 0), modules, letterOrNumber)
  {
    var body := Stripped(source);
    var statements := StatementsOf(body);
    var approved;
    ok, approved := ScanHeader(body, statements, modules, letterOrNumber);
    if !ok {
      return;
    }
    ok := Sweep(body, approved, letterOrNumber);
    forall i: nat | Standalone(body, i, letterOrNumber) && GoodImport(body, i, modules) ensures i in approved {
      var hi: nat :| IsStatement(body, i, hi) && NamesModule(body[i..hi], modules);
      NamedIsImport(body[i..hi], modules);
    }
  }

  /** The import of a module outside the palette is found wherever a statement begins with it. */
  lemma UndeclaredImportIsRefused(b: string, modules: seq<string>, letterOrNumber: char -> bool, lo: nat, hi: nat)
    requires Unicode(letterOrNumber) && Acceptable(b, modules, letterOrNumber)
    requires IsStatement(b, lo, hi) && IsImport(b[lo..hi])
    ensures InHeader(b, lo) && NamesModule(b[lo..hi], modules)
  {
    if !InHeader(b, lo) || !NamesModule(b[lo..hi], modules) {
      BadStatementRefutes(b, lo, hi, modules, letterOrNumber);
    }
  }

  // ---------------------------------------------------------------------------------------------
  // Pages of one import
  // ---------------------------------------------------------------------------------------------

  /** Characters that the stripping leaves as they are. */
  predicate IsPlain(c: char) {
    c != BYTE_ORDER_MARK && !EndsLine(c) && !IsQuote(c) && c != '/'
  }

  lemma {:induction false} PlainIsKept(s: string, i: nat)
    requires i <= |s| && forall j :: i <= j < |s| ==> IsPlain(s[j])
    ensures Scan(Code, s, i) == s[i..]
    decreases |s| - i
  {
    if i < |s| {
      CodeStep(s, i);
      PlainIsKept(s, i + 1);
      assert s[i..] == [s[i]] + s[i + 1..];
    }
  }

  /** A word of identifier characters. */
  ghost predicate IsWord(word: string, letterOrNumber: char -> bool) {
    word != "" && forall c :: c in word ==> IsPlain(c) && IsIdentifierChar(c, letterOrNumber)
  }

  /** The import of a word, as a line of its own. */
  function ImportOf(word: string): string { IMPORT + " " + word }

  lemma WordFollows(word: string, letterOrNumber: char -> bool)
    requires Unicode(letterOrNumber) && IsWord(word, letterOrNumber)
    ensures var b := ImportOf(word);
            && |b| == 7 + |word| && b[0..6] == IMPORT && b[6] == ' ' && b[7..|b|] == word
            && forall j :: 7 <= j < |b| ==>
                 IsPlain(b[j]) && !IsSpace(b[j]) && !IsSeparator(b[j]) && IsIdentifierChar(b[j], letterOrNumber)
  {
    var b := ImportOf(word);
    forall j | 7 <= j < |b| ensures b[j] == word[j - 7] && b[j] in word {
    }
  }

  lemma ImportIsOneStatement(word: string, letterOrNumber: char -> bool)
    requires Unicode(letterOrNumber) && IsWord(word, letterOrNumber)
    ensures var b := ImportOf(word); IsStatement(b, 0, |b|) && IsImport(b)
  {
    var b := ImportOf(word);
    WordFollows(word, letterOrNumber);
    assert LeftEdge(b, 0, 0) && RightEdge(b, |b|, |b|);
    assert b[..6] == IMPORT;
  }

  lemma WordIsTheModule(word: string, modules: seq<string>, letterOrNumber: char -> bool)
    requires Unicode(letterOrNumber) && IsWord(word, letterOrNumber)
    ensures NamesModule(ImportOf(word), modules) <==> word in modules
  {
    var b := ImportOf(word);
    WordFollows(word, letterOrNumber);
    assert b[7] in word;
    if word in modules {
      assert NamesModuleAt(b, modules, 7, |b|);
    }
    forall from: nat, to: nat | NamesModuleAt(b, modules, from, to) ensures from == 7 && to == |b| {
    }
  }

  /** The keyword stands alone once. */
  lemma KeywordStandsOnce(word: string, letterOrNumber: char -> bool, i: nat)
    requires Unicode(letterOrNumber) && IsWord(word, letterOrNumber) && word != IMPORT
    ensures Standalone(ImportOf(word), i, letterOrNumber) <==> i == 0
  {
    var b := ImportOf(word);
    WordFollows(word, letterOrNumber);
    assert |b| == 13 ==> b[7..13] == word;
    assert forall j :: 0 < j < 7 ==> b[j] != 'i';
    if Occurs(b, i) && 0 < i {
      assert b[i..i + 6][0] == b[i];
    }
  }

  /** A page whose one statement imports a word is admitted exactly when the word is a declared module. */
  lemma OneImport(word: string, modules: seq<string>, letterOrNumber: char -> bool)
    requires Unicode(letterOrNumber) && IsWord(word, letterOrNumber) && word != IMPORT
    ensures Acceptable(Scan(Code, ImportOf(word), 0), modules, letterOrNumber) <==> word in modules
  {
    var b := ImportOf(word);
    WordFollows(word, letterOrNumber);
    PlainIsKept(b, 0);
    assert b[0..] == b;
    ImportIsOneStatement(word, letterOrNumber);
    WordIsTheModule(word, modules, letterOrNumber);
    KeywordStandsOnce(word, letterOrNumber, 0);
    assert b[0..|b|] == b;
    forall i: nat | Standalone(b, i, letterOrNumber) ensures i == 0 {
      KeywordStandsOnce(word, letterOrNumber, i);
    }
    if GoodImport(b, 0, modules) {
      var hi: nat :| IsStatement(b, 0, hi) && NamesModule(b[0..hi], modules);
      StatementsDoNotShareStarts(b, 0, hi, |b|);
    }
  }

  /** A page that begins with the import of a quoted path is refused, whatever is declared. */
  lemma AQuotedImportIsRefused(rest: string, modules: seq<string>, letterOrNumber: char -> bool)
    requires Unicode(letterOrNumber)
    ensures !Acceptable(IMPORT + " \"\"" + rest, modules, letterOrNumber)
  {
    var b := IMPORT + " \"\"" + rest;
    assert b[0..6] == IMPORT;
    assert Standalone(b, 0, letterOrNumber);
    forall hi: nat | hi <= |b| ensures !NamesModule(b[0..hi], modules) {
      QuotedNamesNothing(b[0..hi], modules);
    }
  }

  /** So is one with an import behind anything that is no import and no pragma. */
  lemma ALateImportIsRefused(rest: string, modules: seq<string>, letterOrNumber: char -> bool)
    requires Unicode(letterOrNumber)
    ensures !Acceptable("x;import " + rest, modules, letterOrNumber)
  {
    var b := "x;import " + rest;
    assert b[2..8] == IMPORT && Standalone(b, 2, letterOrNumber);
    assert LeftEdge(b, 0, 0) && RightEdge(b, 1, 1);
    assert IsStatement(b, 0, 1);
    var line := b[0..1];
    assert |line| == 1 && !IsImport(line) && !IsPragma(line);
  }

  lemma QuotedNamesNothing(line: string, modules: seq<string>)
    requires |line| > 6 ==> line[6] == ' '
    requires |line| > 7 ==> line[7] == '"'
    ensures !NamesModule(line, modules)
  {
  }
}
