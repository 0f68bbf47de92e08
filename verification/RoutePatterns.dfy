/**
 Route patterns such as "/c/:campaign", and how a path is cut into the segments a
 pattern is asked about (src/transport/routepattern.cpp).
 */
module RoutePatterns {
  import opened Prelude

  /** Qt::SkipEmptyParts. */
  function SkipEmpty(parts: seq<string>): (kept: seq<string>)
    ensures forall part :: part in kept ==> part != "" && part in parts
  {
    if parts == [] then []
    else if parts[0] == "" then SkipEmpty(parts[1..])
    else [parts[0]] + SkipEmpty(parts[1..])
  }

  /** A placeholder segment. */
  predicate IsParameter(segment: string) {
    segment != "" && segment[0] == ':'
  }

  function CountLiterals(segments: seq<string>): nat {
    if segments == [] then 0
    else (if IsParameter(segments[0]) then 0 else 1) + CountLiterals(segments[1..])
  }

  /** The compiled pattern. `literals` ranks patterns; an invalid pattern never matches. */
  datatype RoutePattern = RoutePattern(text: string, segments: seq<string>, literals: nat, valid: bool)

  /** Every placeholder is named by an identifier, and no name is used twice. `isName` is the
      Unicode identifier test, left to the caller. */
  predicate ProperNames(segments: seq<string>, isName: string -> bool) {
    && (forall i :: 0 <= i < |segments| && IsParameter(segments[i]) ==> isName(segments[i][1..]))
    && (forall i, j :: 0 <= i < j < |segments| && IsParameter(segments[i]) ==> segments[i] != segments[j])
  }

  function Compile(text: string, isName: string -> bool): RoutePattern {
    if text == "" || text[0] != '/' then RoutePattern(text, [], 0, false)
    else
      var segments := SkipEmpty(Split(text, '/'));
      if ProperNames(segments, isName)
      then RoutePattern(text, segments, CountLiterals(segments), true)
      else RoutePattern(text, segments, 0, false)
  }

  /** The segments of a path, or nothing for a relative path and for one holding an empty segment.
      Exactly one trailing slash is tolerated. */
  function SplitPath(path: string): Option<seq<string>> {
    if path == "" || path[0] != '/' then None
    else
      var parts := Split(path, '/')[1..];
      var actual := if parts != [] && parts[|parts| - 1] == "" then parts[..|parts| - 1] else parts;
      if "" in actual then None else Some(actual)
  }

  predicate Matches(pattern: RoutePattern, actual: seq<string>) {
    && pattern.valid
    && |actual| == |pattern.segments|
    && forall i :: 0 <= i < |actual| ==> IsParameter(pattern.segments[i]) || pattern.segments[i] == actual[i]
  }

  /** The path in front of the first question mark, and the raw text behind it. */
  function SplitQuery(pathWithQuery: string): (r: (string, string))
    ensures '?' !in r.0
    ensures r.0 <= pathWithQuery
    ensures '?' !in pathWithQuery ==> r == (pathWithQuery, "")
  {
    if pathWithQuery == "" then ("", "")
    else if pathWithQuery[0] == '?' then ("", pathWithQuery[1..])
    else
      var rest := SplitQuery(pathWithQuery[1..]);
      assert pathWithQuery == [pathWithQuery[0]] + pathWithQuery[1..];
      ([pathWithQuery[0]] + rest.0, rest.1)
  }

  lemma {:induction false} SkipEmptyKeepsAll(parts: seq<string>)
    requires "" !in parts
    ensures SkipEmpty(parts) == parts
    ensures SkipEmpty(parts + [""]) == parts
  {
    if parts != [] {
      SkipEmptyKeepsAll(parts[1..]);
      assert (parts + [""])[1..] == parts[1..] + [""];
    }
  }

  lemma SplitHead(s: string, sep: char)
    requires s != "" && s[0] == sep
    ensures Split(s, sep)[0] == "" && |Split(s, sep)| >= 2
  {
  }

  lemma {:induction false} SplitPlain(s: string, sep: char)
    requires sep !in s
    ensures Split(s, sep) == [s]
  {
    if s != [] {
      SplitPlain(s[1..], sep);
      assert s == [s[0]] + s[1..];
    }
  }

  /** A path of one segment. */
  lemma SplitRooted(segment: string)
    requires segment != "" && '/' !in segment
    ensures SplitPath("/" + segment) == Some([segment])
    ensures SkipEmpty(Split("/" + segment, '/')) == [segment]
  {
    SplitPlain(segment, '/');
    var path := "/" + segment;
    assert path[1..] == segment;
    assert Split(path, '/') == ["", segment];
    assert ["", segment][1..] == [segment];
    assert SkipEmpty([segment]) == [segment] + SkipEmpty([]);
  }

  /** A pattern's own text, read as a path, has the pattern's segments. */
  lemma PatternTextSegments(text: string, isName: string -> bool)
    requires SplitPath(text).Some?
    ensures SplitPath(text).value == Compile(text, isName).segments
  {
    var all := Split(text, '/');
    SplitHead(text, '/');
    var parts := all[1..];
    assert SkipEmpty(all) == SkipEmpty(parts);
    if parts[|parts| - 1] == "" {
      SkipEmptyKeepsAll(parts[..|parts| - 1]);
      assert parts[..|parts| - 1] + [""] == parts;
    } else {
      SkipEmptyKeepsAll(parts);
    }
  }

  /** The text is the path, and behind a question mark the query. */
  lemma {:induction false} SplitQueryJoins(pathWithQuery: string)
    ensures '?' in pathWithQuery ==> pathWithQuery == SplitQuery(pathWithQuery).0 + "?" + SplitQuery(pathWithQuery).1
  {
    if pathWithQuery != "" && pathWithQuery[0] != '?' {
      SplitQueryJoins(pathWithQuery[1..]);
      assert pathWithQuery == [pathWithQuery[0]] + pathWithQuery[1..];
    } else if pathWithQuery != "" {
      assert pathWithQuery == "?" + pathWithQuery[1..];
    }
  }

  /** The path of some segments, without a slash behind them. */
  function Rooted(segments: seq<string>): string {
    if segments == [] then "" else "/" + Join(segments, '/')
  }

  predicate AreSegments(segments: seq<string>) {
    forall segment :: segment in segments ==> segment != "" && '/' !in segment
  }

  /** A path has exactly the segments it is written with; one slash behind them makes no difference. */
  lemma SplitPathExactly(path: string, segments: seq<string>)
    ensures SplitPath(path) == Some(segments) <==>
            path != "" && AreSegments(segments) && (path == Rooted(segments) || path == Rooted(segments) + "/")
  {
    if SplitPath(path) == Some(segments) {
      SplitPathIsWritten(path, segments);
    }
    if path != "" && AreSegments(segments) && (path == Rooted(segments) || path == Rooted(segments) + "/") {
      WrittenIsSplit(path, segments);
    }
  }

  lemma SplitPathIsWritten(path: string, segments: seq<string>)
    requires SplitPath(path) == Some(segments)
    ensures path != "" && AreSegments(segments) && (path == Rooted(segments) || path == Rooted(segments) + "/")
  {
    SplitHead(path, '/');
    var parts := Split(path, '/')[1..];
    PathIsJoined(path, parts);
    assert forall segment :: segment in segments ==> segment in parts;
    assert AreSegments(segments);
    if parts[|parts| - 1] == "" {
      assert parts == segments + [""];
      SlashBehind(path, segments);
    }
  }

  lemma SlashBehind(path: string, segments: seq<string>)
    requires path == "/" + Join(segments + [""], '/')
    ensures path == Rooted(segments) + "/"
  {
    JoinAppended(segments, '/');
    if segments != [] {
      Regroup("/", Join(segments, '/'), "/");
    }
  }

  lemma PathIsJoined(path: string, parts: seq<string>)
    requires path != "" && path[0] == '/' && |Split(path, '/')| >= 2 && parts == Split(path, '/')[1..]
    ensures path == "/" + Join(parts, '/')
  {
    JoinSplit(path, '/');
    SplitHead(path, '/');
    assert Split(path, '/') == [""] + parts;
    JoinBehind(parts, '/');
  }

  /** An empty part behind the others is a separator behind them. */
  lemma {:induction false} JoinAppended(parts: seq<string>, sep: char)
    ensures Join(parts + [""], sep) == if parts == [] then "" else Join(parts, sep) + [sep]
  {
    if |parts| == 1 {
      assert (parts + [""])[1..] == [""];
    } else if |parts| > 1 {
      JoinAppended(parts[1..], sep);
      assert (parts + [""])[1..] == parts[1..] + [""];
      Regroup(parts[0] + [sep], Join(parts[1..], sep), [sep]);
    }
  }

  /** Joined parts that hold no separator are split again. */
  lemma {:induction false} SplitJoin(parts: seq<string>, sep: char)
    requires |parts| >= 1 && forall part :: part in parts ==> sep !in part
    ensures Split(Join(parts, sep), sep) == parts
  {
    if |parts| == 1 {
      SplitPlain(parts[0], sep);
    } else {
      SplitJoin(parts[1..], sep);
      SplitBehind(parts[0], Join(parts[1..], sep), sep);
      assert parts == [parts[0]] + parts[1..];
    }
  }

  lemma {:induction false} SplitBehind(head: string, tail: string, sep: char)
    requires sep !in head
    ensures Split(head + [sep] + tail, sep) == [head] + Split(tail, sep)
  {
    var s := head + [sep] + tail;
    if head == "" {
      assert s[1..] == tail;
    } else {
      SplitBehind(head[1..], tail, sep);
      assert s[1..] == head[1..] + [sep] + tail;
      assert head == [head[0]] + head[1..];
    }
  }

  lemma WrittenIsSplit(path: string, segments: seq<string>)
    requires path != "" && AreSegments(segments) && (path == Rooted(segments) || path == Rooted(segments) + "/")
    ensures SplitPath(path) == Some(segments)
  {
    if path == Rooted(segments) {
      JoinedIsSplit(path, segments);
      assert segments[|segments| - 1] in segments;
    } else {
      JoinAppended(segments, '/');
      JoinedIsSplit(path, segments + [""]);
      assert (segments + [""])[..|segments|] == segments;
    }
  }

  lemma JoinedIsSplit(path: string, parts: seq<string>)
    requires |parts| >= 1 && (forall part :: part in parts ==> '/' !in part) && path == "/" + Join(parts, '/')
    ensures path[0] == '/' && Split(path, '/')[1..] == parts
  {
    SplitJoin(parts, '/');
    assert path == "" + ['/'] + Join(parts, '/');
    SplitBehind("", Join(parts, '/'), '/');
  }

  /** The pattern's segments with a value for each placeholder. */
  function Filled(segments: seq<string>, values: map<string, string>): seq<string>
    requires forall segment :: segment in segments && IsParameter(segment) ==> segment in values
  {
    seq(|segments|, i requires 0 <= i < |segments| =>
      if IsParameter(segments[i]) then values[segments[i]] else segments[i])
  }

  /** A pattern that compiles is rooted and names each placeholder once; and it matches exactly the segments it can be
      filled to. */
  lemma MatchingIsFilling(text: string, isName: string -> bool, actual: seq<string>)
    requires Compile(text, isName).valid
    ensures text != "" && text[0] == '/'
    ensures forall segment :: segment in Compile(text, isName).segments && IsParameter(segment) ==> isName(segment[1..])
    ensures Matches(Compile(text, isName), actual) <==>
            exists values: map<string, string> ::
              && (forall segment :: segment in Compile(text, isName).segments && IsParameter(segment) ==>
                    segment in values)
              && Filled(Compile(text, isName).segments, values) == actual
  {
    var segments := Compile(text, isName).segments;
    if Matches(Compile(text, isName), actual) {
      var values := Values(segments, actual);
      forall i | 0 <= i < |segments| ensures Filled(segments, values)[i] == actual[i] {
        if IsParameter(segments[i]) {
          ValueAt(segments, actual, i);
        }
      }
      assert Filled(segments, values) == actual;
    }
  }

  function Values(segments: seq<string>, actual: seq<string>): (values: map<string, string>)
    requires |segments| == |actual|
    ensures forall segment :: segment in segments && IsParameter(segment) ==> segment in values
  {
    if segments == [] then map[]
    else
      var rest := Values(segments[1..], actual[1..]);
      if IsParameter(segments[0]) then rest[segments[0] := actual[0]] else rest
  }

  lemma {:induction false} ValueAt(segments: seq<string>, actual: seq<string>, i: nat)
    requires |segments| == |actual| && i < |segments| && IsParameter(segments[i])
    requires forall j, k :: 0 <= j < k < |segments| && IsParameter(segments[j]) ==> segments[j] != segments[k]
    ensures Values(segments, actual)[segments[i]] == actual[i]
  {
    if i > 0 {
      assert segments[1..][i - 1] == segments[i];
      ValueAt(segments[1..], actual[1..], i - 1);
      assert IsParameter(segments[0]) ==> segments[0] != segments[i];
    }
  }

  /** Where one pattern matches the text of another, it has at most as many literals; with equally
      many, the two have their placeholders in the same places. */
  lemma {:induction false} LiteralsDominated(q: seq<string>, r: seq<string>)
    requires |q| == |r|
    requires forall i :: 0 <= i < |q| ==> IsParameter(q[i]) || q[i] == r[i]
    ensures CountLiterals(q) <= CountLiterals(r)
    ensures CountLiterals(q) == CountLiterals(r) ==>
              forall i :: 0 <= i < |q| ==> (IsParameter(q[i]) <==> IsParameter(r[i]))
  {
    if q != [] {
      LiteralsDominated(q[1..], r[1..]);
      if CountLiterals(q) == CountLiterals(r) {
        forall i | 0 <= i < |q| ensures IsParameter(q[i]) <==> IsParameter(r[i]) {
          if i > 0 {
            assert q[i] == q[1..][i - 1] && r[i] == r[1..][i - 1];
          }
        }
      }
    }
  }

  /** Two valid patterns, one matching the other's text, with equal ranks: they match the same paths. */
  lemma EquallyLiteralPatternsAreOne(q: RoutePattern, r: RoutePattern, actual: seq<string>)
    requires q.valid && r.valid
    requires q.literals == CountLiterals(q.segments) && r.literals == CountLiterals(r.segments)
    requires Matches(q, r.segments)
    ensures q.literals <= r.literals
    ensures q.literals == r.literals ==> (Matches(q, actual) <==> Matches(r, actual))
  {
    LiteralsDominated(q.segments, r.segments);
  }
}
