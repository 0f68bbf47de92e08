/**
 The splitter that gives every line of a highlighted block its own element (wrapLines in
 docs/javascripts/home-flow.js), over an abstract tree.
 */
module WrapLines {
  import opened Prelude

  /** A node of the block: text, an element with what its shallow clone keeps, or anything else. */
  datatype Node = Text(data: string) | Element(tag: string, children: seq<Node>) | Other

  /** A character as it is rendered: itself, and the elements around it, outermost first. */
  datatype Glyph = Glyph(c: char, chain: seq<string>)

  // ---------------------------------------------------------------------------------------------
  // What a tree shows
  // ---------------------------------------------------------------------------------------------

  function Ink(s: string, chain: seq<string>): seq<Glyph> {
    if s == "" then [] else Ink(s[..|s| - 1], chain) + [Glyph(s[|s| - 1], chain)]
  }

  function Glyphs(node: Node, chain: seq<string>): seq<Glyph>
    decreases node
  {
    match node
    case Text(data) => Ink(data, chain)
    case Element(tag, children) => Forest(children, chain + [tag])
    case Other => []
  }

  function Forest(nodes: seq<Node>, chain: seq<string>): seq<Glyph>
    decreases nodes
  {
    if nodes == [] then [] else Forest(nodes[..|nodes| - 1], chain) + Glyphs(nodes[|nodes| - 1], chain)
  }

  lemma ForestGrows(nodes: seq<Node>, node: Node, chain: seq<string>)
    ensures Forest(nodes + [node], chain) == Forest(nodes, chain) + Glyphs(node, chain)
  {
    assert (nodes + [node])[..|nodes|] == nodes;
  }

  // ---------------------------------------------------------------------------------------------
  // The reference: a character at a time
  // ---------------------------------------------------------------------------------------------

  function Feed(lines: seq<seq<Glyph>>, g: Glyph): (fed: seq<seq<Glyph>>)
    requires |lines| > 0
    ensures |fed| > 0
  {
    if g.c == '\n' then lines + [[]] else lines[..|lines| - 1] + [lines[|lines| - 1] + [g]]
  }

  /** The lines after `gs` was typed at the end of them. */
  function FeedAll(lines: seq<seq<Glyph>>, gs: seq<Glyph>): (fed: seq<seq<Glyph>>)
    requires |lines| > 0
    ensures |fed| > 0
  {
    if gs == [] then lines else Feed(FeedAll(lines, gs[..|gs| - 1]), gs[|gs| - 1])
  }

  lemma {:induction false} FeedConcat(lines: seq<seq<Glyph>>, a: seq<Glyph>, b: seq<Glyph>)
    requires |lines| > 0
    ensures FeedAll(lines, a + b) == FeedAll(FeedAll(lines, a), b)
    decreases |b|
  {
    if b == [] {
      assert a + b == a;
    } else {
      FeedConcat(lines, a, b[..|b| - 1]);
      assert (a + b)[..|a + b| - 1] == a + b[..|b| - 1];
    }
  }

  predicate HasNewline(gs: seq<Glyph>) {
    exists i :: 0 <= i < |gs| && gs[i].c == '\n'
  }

  /** Text without a newline goes to the last line. */
  lemma {:induction false} FeedPlain(lines: seq<seq<Glyph>>, gs: seq<Glyph>)
    requires |lines| > 0 && !HasNewline(gs)
    ensures FeedAll(lines, gs) == lines[..|lines| - 1] + [lines[|lines| - 1] + gs]
    decreases |gs|
  {
    if gs == [] {
      assert lines[|lines| - 1] + gs == lines[|lines| - 1];
    } else {
      var front := gs[..|gs| - 1];
      assert forall i :: 0 <= i < |front| ==> front[i] == gs[i];
      FeedPlain(lines, front);
      assert lines[|lines| - 1] + gs == lines[|lines| - 1] + front + [gs[|gs| - 1]];
    }
  }

  lemma {:induction false} InkIs(s: string, chain: seq<string>)
    ensures |Ink(s, chain)| == |s| && forall i :: 0 <= i < |s| ==> Ink(s, chain)[i] == Glyph(s[i], chain)
    decreases |s|
  {
    if s != "" {
      InkIs(s[..|s| - 1], chain);
    }
  }

  lemma InkConcat(a: string, b: string, chain: seq<string>)
    ensures Ink(a + b, chain) == Ink(a, chain) + Ink(b, chain)
  {
    InkIs(a + b, chain);
    InkIs(a, chain);
    InkIs(b, chain);
  }

  /** Node.textContent */
  function TextContent(node: Node): string
    decreases node
  {
    match node
    case Text(data) => data
    case Element(_, children) => TextOf(children)
    case Other => ""
  }

  function TextOf(nodes: seq<Node>): string
    decreases nodes
  {
    if nodes == [] then "" else TextOf(nodes[..|nodes| - 1]) + TextContent(nodes[|nodes| - 1])
  }

  /** The characters of some glyphs. */
  function Characters(gs: seq<Glyph>): string {
    seq(|gs|, i requires 0 <= i < |gs| => gs[i].c)
  }

  /** What an element shows is its text. */
  lemma {:induction false} ContentIsShown(node: Node, chain: seq<string>)
    ensures Characters(Glyphs(node, chain)) == TextContent(node)
    decreases node
  {
    match node
    case Text(data) => InkIs(data, chain);
    case Element(tag, children) => TextIsShown(children, chain + [tag]);
    case Other =>
  }

  lemma {:induction false} TextIsShown(nodes: seq<Node>, chain: seq<string>)
    ensures Characters(Forest(nodes, chain)) == TextOf(nodes)
    decreases nodes
  {
    if nodes != [] {
      TextIsShown(nodes[..|nodes| - 1], chain);
      ContentIsShown(nodes[|nodes| - 1], chain);
      CharactersConcat(Forest(nodes[..|nodes| - 1], chain), Glyphs(nodes[|nodes| - 1], chain));
    }
  }

  /** Everything inside an element is shown inside it, and inside what is around it. */
  lemma {:induction false} ShownInside(node: Node, chain: seq<string>)
    ensures forall g :: g in Glyphs(node, chain) ==>
              chain <= g.chain && (node.Element? ==> chain + [node.tag] <= g.chain) && (node.Text? ==> g.chain == chain)
    decreases node
  {
    match node
    case Text(data) => InkIs(data, chain);
    case Element(tag, children) => AllShownInside(children, chain + [tag]);
    case Other =>
  }

  lemma {:induction false} AllShownInside(nodes: seq<Node>, chain: seq<string>)
    ensures forall g :: g in Forest(nodes, chain) ==> chain <= g.chain
    decreases nodes
  {
    if nodes != [] {
      AllShownInside(nodes[..|nodes| - 1], chain);
      ShownInside(nodes[|nodes| - 1], chain);
    }
  }

  lemma CharactersConcat(a: seq<Glyph>, b: seq<Glyph>)
    ensures Characters(a + b) == Characters(a) + Characters(b)
  {
  }

  lemma NewlinesAreShown(gs: seq<Glyph>)
    ensures HasNewline(gs) <==> '\n' in Characters(gs)
  {
    if HasNewline(gs) {
      var i :| 0 <= i < |gs| && gs[i].c == '\n';
      assert Characters(gs)[i] == '\n';
    }
  }

  // Text cut at its newlines and typed part by part.

  function Typed(parts: seq<string>, k: nat): string
    requires k <= |parts|
  {
    if k == 0 then "" else Typed(parts, k - 1) + (if k == 1 then "" else "\n") + parts[k - 1]
  }

  lemma {:induction false} JoinGrows(parts: seq<string>, part: string)
    requires |parts| >= 1
    ensures Join(parts + [part], '\n') == Join(parts, '\n') + (['\n'] + part)
  {
    if |parts| > 1 {
      JoinGrows(parts[1..], part);
      assert (parts + [part])[1..] == parts[1..] + [part];
      Regroup(parts[0] + ['\n'], Join(parts[1..], '\n'), ['\n'] + part);
    } else {
      assert (parts + [part])[1..] == [part];
    }
  }

  lemma {:induction false} TypedIsJoined(parts: seq<string>, k: nat)
    requires 1 <= k <= |parts|
    ensures Typed(parts, k) == Join(parts[..k], '\n')
  {
    if k == 1 {
      assert parts[..1] == [parts[0]];
    } else {
      TypedIsJoined(parts, k - 1);
      assert parts[..k] == parts[..k - 1] + [parts[k - 1]];
      JoinGrows(parts[..k - 1], parts[k - 1]);
      Regroup(Typed(parts, k - 1), "\n", parts[k - 1]);
    }
  }

  lemma SplitIsTyped(data: string, parts: seq<string>)
    requires parts == Split(data, '\n')
    ensures Typed(parts, |parts|) == data && Typed(parts, 0) == ""
  {
    JoinSplit(data, '\n');
    TypedIsJoined(parts, |parts|);
    assert parts[..|parts|] == parts;
  }

  lemma NothingTyped(parts: seq<string>, chain: seq<string>, before: seq<seq<Glyph>>)
    requires |before| > 0
    ensures FeedAll(before, Ink(Typed(parts, 0), chain)) == before
  {
  }

  lemma TypedGrows(parts: seq<string>, k: nat, chain: seq<string>, before: seq<seq<Glyph>>)
    requires k < |parts| && |before| > 0
    ensures var so := FeedAll(before, Ink(Typed(parts, k), chain));
            FeedAll(before, Ink(Typed(parts, k + 1), chain)) ==
            FeedAll(if k == 0 then so else so + [[]], Ink(parts[k], chain))
  {
    var so := Typed(parts, k);
    if k == 0 {
      assert Typed(parts, 1) == parts[0];
    } else {
      InkConcat(so + "\n", parts[k], chain);
      FeedConcat(before, Ink(so + "\n", chain), Ink(parts[k], chain));
      assert (so + "\n")[..|so|] == so;
      var typed := Ink(so + "\n", chain);
      assert typed[..|typed| - 1] == Ink(so, chain) && typed[|typed| - 1] == Glyph('\n', chain);
    }
  }

  // ---------------------------------------------------------------------------------------------
  // The line under construction: what hangs from the line, and from each element still open in it
  // ---------------------------------------------------------------------------------------------

  /** An element of the line that is still open, a shallow clone. It is the last child of the
      element before it in the stack, or of the line. */
  datatype Frame = Frame(tag: string, children: seq<Node>)

  function Labels(open: seq<Frame>): (labels: seq<string>)
    ensures |labels| == |open|
  {
    seq(|open|, i requires 0 <= i < |open| => open[i].tag)
  }

  /** What the line shows so far. */
  function Shown(line: seq<Node>, open: seq<Frame>): seq<Glyph> {
    if open == [] then Forest(line, [])
    else Shown(line, open[..|open| - 1]) + Forest(open[|open| - 1].children, Labels(open))
  }

  /** The line with its open elements in place. */
  function Closed(line: seq<Node>, open: seq<Frame>): seq<Node>
    decreases |open|
  {
    if open == [] then line
    else
      var last := open[|open| - 1];
      var element := Element(last.tag, last.children);
      if |open| == 1 then line + [element]
      else
        var host := open[|open| - 2];
        Closed(line, open[..|open| - 2] + [host.(children := host.children + [element])])
  }

  /** Closing the innermost element shows nothing new. */
  lemma ClosingShowsTheSame(line: seq<Node>, open: seq<Frame>)
    requires |open| >= 2
    ensures var host, last := open[|open| - 2], open[|open| - 1];
            var wider := host.(children := host.children + [Element(last.tag, last.children)]);
            Shown(line, open[..|open| - 2] + [wider]) == Shown(line, open)
  {
    var n := |open|;
    var host, last := open[n - 2], open[n - 1];
    var element := Element(last.tag, last.children);
    var closed := open[..n - 2] + [host.(children := host.children + [element])];
    var front := open[..n - 1];
    assert closed[..n - 2] == open[..n - 2] == front[..n - 2];
    assert Labels(closed) == Labels(front);
    assert Labels(open) == Labels(front) + [last.tag];
    ForestGrows(host.children, element, Labels(front));
    assert Shown(line, front) == Shown(line, open[..n - 2]) + Forest(host.children, Labels(front));
    Regroup(Shown(line, open[..n - 2]), Forest(host.children, Labels(front)), Glyphs(element, Labels(front)));
    assert closed[n - 2].children == host.children + [element];
  }

  lemma {:induction false} ClosedShowsTheSame(line: seq<Node>, open: seq<Frame>)
    ensures Forest(Closed(line, open), []) == Shown(line, open)
    decreases |open|
  {
    if |open| == 1 {
      var last := open[0];
      ForestGrows(line, Element(last.tag, last.children), []);
      assert Labels(open) == [] + [last.tag];
      assert open[..0] == [];
    } else if |open| >= 2 {
      var host, last := open[|open| - 2], open[|open| - 1];
      ClosingShowsTheSame(line, open);
      var wider := host.(children := host.children + [Element(last.tag, last.children)]);
      ClosedShowsTheSame(line, open[..|open| - 2] + [wider]);
    }
  }

  function Reopened(open: seq<Frame>): (again: seq<Frame>)
    ensures Labels(again) == Labels(open)
  {
    seq(|open|, i requires 0 <= i < |open| => Frame(open[i].tag, []))
  }

  lemma {:induction false} EmptyShowsNothing(open: seq<Frame>)
    requires forall i :: 0 <= i < |open| ==> open[i].children == []
    ensures Shown([], open) == []
    decreases |open|
  {
    if open != [] {
      EmptyShowsNothing(open[..|open| - 1]);
    }
  }

  /** A node added at the tip is shown last. */
  lemma AppendShows(line: seq<Node>, open: seq<Frame>, node: Node)
    ensures open == [] ==> Shown(line + [node], []) == Shown(line, []) + Glyphs(node, [])
    ensures open != [] ==>
              var tip := open[|open| - 1];
              var more := open[..|open| - 1] + [tip.(children := tip.children + [node])];
              Labels(more) == Labels(open) && Shown(line, more) == Shown(line, open) + Glyphs(node, Labels(open))
  {
    if open == [] {
      ForestGrows(line, node, []);
    } else {
      var tip := open[|open| - 1];
      var more := open[..|open| - 1] + [tip.(children := tip.children + [node])];
      assert more[..|more| - 1] == open[..|open| - 1] && Labels(more) == Labels(open);
      ForestGrows(tip.children, node, Labels(open));
    }
  }

  /** The finished lines and the one under construction. */
  function AllShown(lines: seq<seq<Node>>, line: seq<Node>, open: seq<Frame>): (shown: seq<seq<Glyph>>)
    ensures |shown| == |lines| + 1
  {
    seq(|lines|, i requires 0 <= i < |lines| => Forest(lines[i], [])) + [Shown(line, open)]
  }

  // ---------------------------------------------------------------------------------------------
  // The splitter
  // ---------------------------------------------------------------------------------------------

  class Wrapper {
    var lines: seq<seq<Node>>
    var line: seq<Node>
    var open: seq<Frame>

    constructor ()
      ensures lines == [] && line == [] && open == [] && View() == [[]]
    {
      lines, line, open := [], [], [];
    }

    ghost function View(): (shown: seq<seq<Glyph>>)
      reads this
      ensures |shown| > 0
    {
      AllShown(lines, line, open)
    }

    ghost function Chain(): seq<string>
      reads this
    {
      Labels(open)
    }

    /** A new line, with every open element reopened in it. */
    method StartLine()
      modifies this
      ensures Chain() == old(Chain()) && View() == old(View()) + [[]]
    {
      ClosedShowsTheSame(line, open);
      var finished := Closed(line, open);
      ghost var shown := View();
      lines := lines + [finished];
      line := [];
      open := Reopened(open);
      EmptyShowsNothing(open);
      assert View()[..|lines|] == shown;
    }

    /** tip().appendChild(node) */
    method Append(node: Node)
      modifies this`line, this`open
      ensures Chain() == old(Chain())
      ensures View() == old(View())[..|old(View())| - 1] + [old(View())[|old(View())| - 1] + Glyphs(node, Chain())]
    {
      AppendShows(line, open, node);
      if open == [] {
        line := line + [node];
      } else {
        var tip := open[|open| - 1];
        open := open[..|open| - 1] + [tip.(children := tip.children + [node])];
      }
    }

    method Push(tag: string)
      modifies this`open
      ensures Chain() == old(Chain()) + [tag] && View() == old(View())
    {
      open := open + [Frame(tag, [])];
      assert open[..|open| - 1] == old(open);
      assert Shown(line, old(open)) + Forest([], Chain()) == Shown(line, old(open));
    }

    method Pop()
      requires |open| > 0
      modifies this`line, this`open
      ensures Chain() == old(Chain())[..|old(Chain())| - 1] && View() == old(View())
    {
      var last := open[|open| - 1];
      var element := Element(last.tag, last.children);
      if |open| == 1 {
        ClosedShowsTheSame(line, open);
        line := line + [element];
        open := [];
      } else {
        ClosingShowsTheSame(line, open);
        var host := open[|open| - 2];
        open := open[..|open| - 2] + [host.(children := host.children + [element])];
      }
    }

    method AddText(data: string)
      modifies this
      ensures Chain() == old(Chain()) && View() == FeedAll(old(View()), Ink(data, Chain()))
    {
      var parts := Split(data, '\n');
      SplitIsTyped(data, parts);
      AddParts(parts);
    }

    method AddParts(parts: seq<string>)
      requires forall part :: part in parts ==> '\n' !in part
      modifies this
      ensures Chain() == old(Chain()) && View() == FeedAll(old(View()), Ink(Typed(parts, |parts|), Chain()))
    {
      ghost var chain := Chain();
      ghost var before := View();
      NothingTyped(parts, chain, before);
      for part := 0 to |parts|
        invariant Chain() == chain
        invariant View() == FeedAll(before, Ink(Typed(parts, part), chain))
      {
        AddPart(parts, part, before);
      }
    }

    method AddPart(parts: seq<string>, part: nat, ghost before: seq<seq<Glyph>>)
      requires part < |parts| && |before| > 0 && '\n' !in parts[part]
      requires View() == FeedAll(before, Ink(Typed(parts, part), Chain()))
      modifies this
      ensures Chain() == old(Chain()) && View() == FeedAll(before, Ink(Typed(parts, part + 1), Chain()))
    {
      ghost var chain := Chain();
      TypedGrows(parts, part, chain, before);
      if part > 0 {
        StartLine();
      }
      InkIs(parts[part], chain);
      FeedPlain(View(), Ink(parts[part], chain));
      if parts[part] != "" {
        Append(Text(parts[part]));
      }
    }

    method AddAll(nodes: seq<Node>)
      requires open == []
      modifies this
      ensures open == [] && View() == FeedAll(old(View()), Forest(nodes, []))
    {
      ghost var before := View();
      for at := 0 to |nodes|
        invariant open == [] && View() == FeedAll(before, Forest(nodes[..at], []))
      {
        assert Chain() == [];
        Add(nodes[at]);
        assert |open| == |Chain()|;
        assert nodes[..at + 1] == nodes[..at] + [nodes[at]];
        ForestGrows(nodes[..at], nodes[at], []);
        FeedConcat(before, Forest(nodes[..at], []), Glyphs(nodes[at], []));
      }
      assert nodes[..|nodes|] == nodes;
    }

    method Add(node: Node)
      modifies this
      ensures Chain() == old(Chain()) && View() == FeedAll(old(View()), Glyphs(node, Chain()))
      decreases node
    {
      match node {
        case Text(data) =>
          AddText(data);
        case Other =>
        case Element(tag, children) =>
          if '\n' !in TextContent(node) {
            ContentIsShown(node, Chain());
            NewlinesAreShown(Glyphs(node, Chain()));
            FeedPlain(View(), Glyphs(node, Chain()));
            Append(node);
            return;
          }
          ghost var before := View();
          Push(tag);
          for index := 0 to |children|
            invariant Chain() == old(Chain()) + [tag]
            invariant View() == FeedAll(before, Forest(children[..index], Chain()))
          {
            ghost var chain := Chain();
            Add(children[index]);
            assert children[..index + 1] == children[..index] + [children[index]];
            ForestGrows(children[..index], children[index], chain);
            FeedConcat(before, Forest(children[..index], chain), Glyphs(children[index], chain));
          }
          assert children[..|children|] == children;
          Pop();
      }
    }
  }

  // ---------------------------------------------------------------------------------------------
  // What the lines are
  // ---------------------------------------------------------------------------------------------

  function Texts(lines: seq<seq<Glyph>>): (texts: seq<string>)
    ensures |texts| == |lines|
  {
    seq(|lines|, i requires 0 <= i < |lines| => Characters(lines[i]))
  }

  lemma TextsGrow(lines: seq<seq<Glyph>>, line: seq<Glyph>)
    ensures Texts(lines + [line]) == Texts(lines) + [Characters(line)]
  {
  }

  function Newlines(k: nat): string {
    if k == 0 then "" else Newlines(k - 1) + "\n"
  }

  /** The glyphs of all lines, in order. */
  function Flat(lines: seq<seq<Glyph>>): seq<Glyph> {
    if lines == [] then [] else Flat(lines[..|lines| - 1]) + lines[|lines| - 1]
  }

  /** The glyphs that are not newlines. */
  function Plain(gs: seq<Glyph>): seq<Glyph> {
    if gs == [] then []
    else Plain(gs[..|gs| - 1]) + (if gs[|gs| - 1].c == '\n' then [] else [gs[|gs| - 1]])
  }

  lemma {:induction false} JoinLastGrows(parts: seq<string>, c: char)
    requires |parts| >= 1
    ensures Join(parts[..|parts| - 1] + [parts[|parts| - 1] + [c]], '\n') == Join(parts, '\n') + [c]
    decreases |parts|
  {
    var more := parts[..|parts| - 1] + [parts[|parts| - 1] + [c]];
    if |parts| > 1 {
      JoinLastGrows(parts[1..], c);
      assert more[1..] == parts[1..][..|parts| - 2] + [parts[1..][|parts| - 2] + [c]];
      Regroup(parts[0] + ['\n'], Join(parts[1..], '\n'), [c]);
    }
  }

  lemma FedTextStep(lines: seq<seq<Glyph>>, g: Glyph)
    requires |lines| > 0
    ensures Join(Texts(Feed(lines, g)), '\n') == Join(Texts(lines), '\n') + [g.c]
  {
    if g.c == '\n' {
      TextsGrow(lines, []);
      assert Characters([]) == "";
      JoinGrows(Texts(lines), "");
      assert ['\n'] + "" == [g.c];
    } else {
      var last := lines[|lines| - 1];
      CharactersConcat(last, [g]);
      assert Characters([g]) == [g.c];
      assert Texts(Feed(lines, g)) == Texts(lines)[..|lines| - 1] + [Texts(lines)[|lines| - 1] + [g.c]];
      JoinLastGrows(Texts(lines), g.c);
    }
  }

  /** Joined by newlines, the lines are the text. */
  lemma {:induction false} FedTextIsTheText(gs: seq<Glyph>)
    ensures Join(Texts(FeedAll([[]], gs)), '\n') == Characters(gs)
    decreases |gs|
  {
    if gs == [] {
      assert Texts([[]]) == [""];
    } else {
      var front, last := gs[..|gs| - 1], gs[|gs| - 1];
      FedTextIsTheText(front);
      FedTextStep(FeedAll([[]], front), last);
      assert gs == front + [last];
      CharactersConcat(front, [last]);
    }
  }

  lemma FlatGrows(lines: seq<seq<Glyph>>, line: seq<Glyph>)
    ensures Flat(lines + [line]) == Flat(lines) + line
  {
    assert (lines + [line])[..|lines|] == lines;
  }

  /** Every glyph but the newlines is in the lines, in order and with its chain; no line has a newline. */
  lemma {:induction false} FedGlyphsAreTheGlyphs(gs: seq<Glyph>)
    ensures var fed := FeedAll([[]], gs);
            Flat(fed) == Plain(gs) && forall i :: 0 <= i < |fed| ==> !HasNewline(fed[i])
    decreases |gs|
  {
    if gs == [] {
      FlatGrows([], []);
    } else {
      var front, g := gs[..|gs| - 1], gs[|gs| - 1];
      FedGlyphsAreTheGlyphs(front);
      var before := FeedAll([[]], front);
      var rest, last := before[..|before| - 1], before[|before| - 1];
      if g.c == '\n' {
        FlatGrows(before, []);
      } else {
        FlatGrows(rest, last + [g]);
        assert before == rest + [last];
        FlatGrows(rest, last);
        Regroup(Flat(rest), last, [g]);
        assert !HasNewline(last + [g]);
      }
    }
  }

  /** Lines with nothing on them add newlines at the end and nothing else. */
  lemma {:induction false} EmptyLinesAreNewlines(lines: seq<seq<Glyph>>, n: nat)
    requires 1 <= n <= |lines| && forall i :: n <= i < |lines| ==> lines[i] == []
    ensures Join(Texts(lines), '\n') == Join(Texts(lines[..n]), '\n') + Newlines(|lines| - n)
    ensures Flat(lines) == Flat(lines[..n])
    decreases |lines|
  {
    if n == |lines| {
      assert lines[..n] == lines;
    } else {
      var front := lines[..|lines| - 1];
      EmptyLinesAreNewlines(front, n);
      assert front[..n] == lines[..n];
      assert lines == front + [[]];
      FlatGrows(front, []);
      TextsGrow(front, []);
      assert Characters([]) == "";
      JoinGrows(Texts(front), "");
      Regroup(Join(Texts(lines[..n]), '\n'), Newlines(|front| - n), ['\n'] + "");
    }
  }

  // ---------------------------------------------------------------------------------------------
  // The whole
  // ---------------------------------------------------------------------------------------------

  /** What each line shows. */
  function ShownLines(lines: seq<seq<Node>>): (shown: seq<seq<Glyph>>)
    ensures |shown| == |lines|
  {
    seq(|lines|, i requires 0 <= i < |lines| => Forest(lines[i], []))
  }

  lemma LastLineShows(lines: seq<seq<Node>>, line: seq<Node>)
    ensures ShownLines(lines + [line]) == AllShown(lines, line, [])
  {
  }

  method SplitLines(code: seq<Node>) returns (lines: seq<seq<Node>>)
    ensures |lines| > 0 && ShownLines(lines) == FeedAll([[]], Forest(code, []))
  {
    var wrapper := new Wrapper();
    wrapper.AddAll(code);
    LastLineShows(wrapper.lines, wrapper.line);
    lines := wrapper.lines + [wrapper.line];
  }

  /** Lines that show nothing are taken off the end, but for the first. */
  method TrimLines(lines: seq<seq<Node>>) returns (kept: seq<seq<Node>>)
    requires |lines| > 0
    ensures 1 <= |kept| <= |lines| && kept == lines[..|kept|]
    ensures forall i :: |kept| <= i < |lines| ==> Forest(lines[i], []) == []
    ensures |kept| == 1 || Forest(kept[|kept| - 1], []) != []
  {
    kept := lines;
    while |kept| > 1 && TextOf(kept[|kept| - 1]) == ""
      invariant 1 <= |kept| <= |lines| && kept == lines[..|kept|]
      invariant forall i :: |kept| <= i < |lines| ==> Forest(lines[i], []) == []
    {
      NothingShown(kept[|kept| - 1]);
      kept := kept[..|kept| - 1];
    }
    NothingShown(kept[|kept| - 1]);
  }

  lemma NothingShown(nodes: seq<Node>)
    ensures TextOf(nodes) == "" <==> Forest(nodes, []) == []
  {
    TextIsShown(nodes, []);
    assert |Characters(Forest(nodes, []))| == |Forest(nodes, [])|;
  }

  lemma KeptLinesKeepTheBlock(code: seq<Node>, all: seq<seq<Glyph>>, n: nat)
    requires all == FeedAll([[]], Forest(code, [])) && 1 <= n <= |all|
    requires forall i :: n <= i < |all| ==> all[i] == []
    ensures forall i :: 0 <= i < n ==> !HasNewline(all[i])
    ensures TextOf(code) == Join(Texts(all[..n]), '\n') + Newlines(|all| - n)
    ensures Flat(all[..n]) == Plain(Forest(code, []))
  {
    TextIsShown(code, []);
    FedTextIsTheText(Forest(code, []));
    FedGlyphsAreTheGlyphs(Forest(code, []));
    EmptyLinesAreNewlines(all, n);
  }

  /** The lines of a block: no line holds a newline; joined by newlines they are the block's text but for
      empty lines at its end; and every character keeps the elements around it. */
  method WrapLines(code: seq<Node>) returns (lines: seq<seq<Node>>)
    ensures |lines| > 0 && (|lines| == 1 || ShownLines(lines)[|lines| - 1] != [])
    ensures forall i :: 0 <= i < |lines| ==> !HasNewline(ShownLines(lines)[i])
    ensures exists k: nat :: TextOf(code) == Join(Texts(ShownLines(lines)), '\n') + Newlines(k)
    ensures Flat(ShownLines(lines)) == Plain(Forest(code, []))
  {
    var all := SplitLines(code);
    lines := TrimLines(all);
    ghost var shown := ShownLines(all);
    assert forall i :: 0 <= i < |all| ==> shown[i] == Forest(all[i], []);
    KeptLinesKeepTheBlock(code, shown, |lines|);
    assert ShownLines(lines) == shown[..|lines|];
  }
}
