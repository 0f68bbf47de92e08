/**
 Which remembered path may be resumed after a sign-in (src/client/resumepath.cpp), against the
 path grammar of RFC 3986.
 */
module ResumePath {
  import opened Prelude
  import opened RoutePatterns
  import opened RouteTables

  const MAXIMUM_LENGTH := 2048

  /** A character that makes the path the matcher sees differ from the one a browser ends up with. */
  predicate Rewriting(c: char) {
    c < ' ' || c == '\U{7F}' || c == '\\' || c == ':' || c == '#'
  }

  /** "%2e", "%2f" or "%5c" in either case, at position `i`. */
  predicate EncodedAt(s: string, i: int) {
    && 0 <= i && i + 2 < |s| && s[i] == '%'
    && ((s[i + 1] == '2' && s[i + 2] in "eEfF") || (s[i + 1] == '5' && s[i + 2] in "cC"))
  }

  predicate ContainsEncoded(s: string) {
    exists i :: 0 <= i < |s| && EncodedAt(s, i)
  }

  predicate UnsafeSegment(segment: string) {
    segment == "." || segment == ".." || ContainsEncoded(segment)
  }

  /** What the resume accepts: a rooted path of one of the declared routes, with nothing in it that
      a browser would strip, fold, decode or collapse. */
  ghost predicate Acceptable(candidate: string, declared: seq<string>, isName: string -> bool) {
    && 0 < |candidate| <= MAXIMUM_LENGTH
    && candidate[0] == '/'
    && !("//" <= candidate)
    && (forall c :: c in candidate ==> !Rewriting(c))
    && var path := SplitQuery(candidate).0;
       && (forall segment :: segment in Split(path, '/') ==> !UnsafeSegment(segment))
       && exists d :: d in declared && MatchesPath(Compile(d, isName), path)
  }

  method HasRewritingCharacter(candidate: string) returns (found: bool)
    ensures found <==> exists c :: c in candidate && Rewriting(c)
  {
    for i := 0 to |candidate|
      invariant forall c :: c in candidate[..i] ==> !Rewriting(c)
    {
      if Rewriting(candidate[i]) {
        return true;
      }
    }
    assert candidate[..|candidate|] == candidate;
    return false;
  }

  method HasUnsafeSegment(path: string) returns (found: bool)
    ensures found <==> exists segment :: segment in Split(path, '/') && UnsafeSegment(segment)
  {
    var segments := Split(path, '/');
    for i := 0 to |segments|
      invariant forall segment :: segment in segments[..i] ==> !UnsafeSegment(segment)
    {
      if UnsafeSegment(segments[i]) {
        return true;
      }
    }
    assert segments[..|segments|] == segments;
    return false;
  }

  method IsAcceptable(candidate: string, declared: seq<string>, isName: string -> bool) returns (ok: bool)
    ensures ok <==> Acceptable(candidate, declared, isName)
  {
    if candidate == "" || |candidate| > MAXIMUM_LENGTH {
      return false;
    }
    if candidate[0] != '/' {
      return false;
    }
    if "//" <= candidate {
      return false;
    }
    var rewriting := HasRewritingCharacter(candidate);
    if rewriting {
      return false;
    }
    var path := SplitQuery(candidate).0;
    var unsafe := HasUnsafeSegment(path);
    if unsafe {
      return false;
    }
    ok := IsDeclared(path, declared, isName);
  }

  method IsDeclared(path: string, declared: seq<string>, isName: string -> bool) returns (ok: bool)
    ensures ok <==> exists d :: d in declared && MatchesPath(Compile(d, isName), path)
  {
    var actual := SplitPath(path);
    for i := 0 to |declared|
      invariant forall d :: d in declared[..i] ==> !MatchesPath(Compile(d, isName), path)
    {
      if actual.Some? && Matches(Compile(declared[i], isName), actual.value) {
        return true;
      }
    }
    assert declared[..|declared|] == declared;
    return false;
  }

  // ---------------------------------------------------------------------------------------------
  // RFC 3986
  // ---------------------------------------------------------------------------------------------

  /** The shape of path-absolute, section 3.3: one slash, and a first segment that is not empty
      unless it is the whole path. */
  predicate PathAbsolute(path: string) {
    path != "" && path[0] == '/' && (|path| > 1 ==> path[1] != '/')
  }

  /** A network-path reference, section 4.2. */
  predicate NetworkPath(reference: string) {
    "//" <= reference
  }

  /** The length of the first path segment, with its leading slash if it has one. */
  function SegmentLength(input: string): (n: nat)
    requires input != ""
    ensures 1 <= n <= |input|
  {
    1 + PlainPrefix(input[1..])
  }

  function PlainPrefix(s: string): (n: nat)
    ensures n <= |s|
  {
    if s == "" || s[0] == '/' then 0 else 1 + PlainPrefix(s[1..])
  }

  /** The output without its last segment and the slash before it. */
  function DropLast(output: string): string {
    if output == "" then ""
    else if output[|output| - 1] == '/' then output[..|output| - 1]
    else DropLast(output[..|output| - 1])
  }

  /** `input` continues at `i` with `dots` dots and then a slash. */
  predicate DotsThenSlash(input: string, i: nat, dots: nat) {
    i + dots < |input| && (forall k :: i <= k < i + dots ==> input[k] == '.') && input[i + dots] == '/'
  }

  /** `input` continues at `i` with `dots` dots and ends. */
  predicate DotsThenEnd(input: string, i: nat, dots: nat) {
    i + dots == |input| && forall k :: i <= k < i + dots ==> input[k] == '.'
  }

  /** remove_dot_segments, section 5.2.4, steps 2A to 2E. */
  function RemoveDotSegments(input: string, output: string): string
    decreases |input|
  {
    if input == "" then output
    else if DotsThenSlash(input, 0, 2) then RemoveDotSegments(input[3..], output)
    else if DotsThenSlash(input, 0, 1) then RemoveDotSegments(input[2..], output)
    else if input[0] == '/' && DotsThenSlash(input, 1, 1) then RemoveDotSegments(input[2..], output)
    else if input[0] == '/' && DotsThenEnd(input, 1, 1) then RemoveDotSegments(input[..1], output)
    else if input[0] == '/' && DotsThenSlash(input, 1, 2) then RemoveDotSegments(input[3..], DropLast(output))
    else if input[0] == '/' && DotsThenEnd(input, 1, 2) then RemoveDotSegments(input[..1], DropLast(output))
    else if DotsThenEnd(input, 0, 1) || DotsThenEnd(input, 0, 2) then output
    else
      var n := SegmentLength(input);
      RemoveDotSegments(input[n..], output + input[..n])
  }

  /** The three escapes the resume is wary of, decoded. */
  function DecodeSeparators(s: string): string {
    if s == "" then ""
    else if EncodedAt(s, 0) then
      [if s[1] == '5' then '\\' else if s[2] in "eE" then '.' else '/'] + DecodeSeparators(s[3..])
    else [s[0]] + DecodeSeparators(s[1..])
  }

  lemma {:induction false} NothingToDecode(s: string)
    requires !ContainsEncoded(s)
    ensures DecodeSeparators(s) == s
  {
    if s != "" {
      assert !EncodedAt(s, 0);
      forall i | 0 <= i < |s[1..]| ensures !EncodedAt(s[1..], i) {
        assert !EncodedAt(s, i + 1);
      }
      NothingToDecode(s[1..]);
      assert s == [s[0]] + s[1..];
    }
  }

  /** An escape holds no slash, so it lies within one segment. */
  lemma {:induction false} EscapeLiesInASegment(s: string, i: int)
    requires EncodedAt(s, i)
    ensures exists segment :: segment in Split(s, '/') && ContainsEncoded(segment)
  {
    var rest := Split(s[1..], '/');
    var all := Split(s, '/');
    if i > 0 {
      EscapeLiesInASegment(s[1..], i - 1);
      var segment :| segment in rest && ContainsEncoded(segment);
      if s[0] == '/' {
        assert segment in all;
      } else if segment == rest[0] {
        assert all[0] == [s[0]] + rest[0];
        var k :| 0 <= k < |segment| && EncodedAt(segment, k);
        assert EncodedAt(all[0], k + 1);
        assert all[0] in all;
      } else {
        assert segment in rest[1..];
        assert segment in all;
      }
    } else {
      PlainHead(s, 3);
      assert all[0][..3] == s[..3];
      assert EncodedAt(all[0], 0);
      assert all[0] in all;
    }
  }

  /** The text up to a slash is the beginning of the first part. */
  lemma {:induction false} PlainHead(s: string, n: nat)
    requires n <= |s| && '/' !in s[..n]
    ensures n <= |Split(s, '/')[0]| && Split(s, '/')[0][..n] == s[..n]
  {
    if n > 0 {
      assert s[..n][0] == s[0];
      assert s[1..][..n - 1] == s[1..n];
      assert s[..n] == [s[0]] + s[1..n];
      PlainHead(s[1..], n - 1);
    }
  }

  lemma {:induction false} FirstPart(s: string)
    ensures Split(s, '/')[0] == s[..PlainPrefix(s)]
    ensures PlainPrefix(s) < |s| ==>
              s[PlainPrefix(s)] == '/' && Split(s, '/')[1..] == Split(s[PlainPrefix(s) + 1..], '/')
  {
    if s != "" && s[0] != '/' {
      FirstPart(s[1..]);
      var n := PlainPrefix(s[1..]);
      assert s[..n + 1] == [s[0]] + s[1..][..n];
      if n < |s| - 1 {
        assert s[1..][n + 1..] == s[n + 2..];
      }
    }
  }

  lemma {:induction false} PlainPrefixOf(s: string, n: nat)
    requires n <= |s| && '/' !in s[..n] && (n == |s| || s[n] == '/')
    ensures PlainPrefix(s) == n
  {
    if n > 0 {
      assert s[..n][0] == s[0] && s[1..][..n - 1] == s[..n][1..];
      PlainPrefixOf(s[1..], n - 1);
    }
  }

  /** A first segment that is no dot segment moves to the output as it is. */
  lemma PlainSegmentMoves(input: string, output: string)
    requires input != "" && input[0] == '/'
    requires var first := input[1..SegmentLength(input)]; first != "." && first != ".."
    ensures var n := SegmentLength(input);
            RemoveDotSegments(input, output) == RemoveDotSegments(input[n..], output + input[..n])
  {
    var tail := input[1..];
    if DotsThenSlash(input, 1, 1) || DotsThenEnd(input, 1, 1) {
      PlainPrefixOf(tail, 1);
      assert false;
    }
    if DotsThenSlash(input, 1, 2) || DotsThenEnd(input, 1, 2) {
      PlainPrefixOf(tail, 2);
      assert false;
    }
  }

  /** A rooted path without dot segments is its own normal form. */
  lemma {:induction false} NoDotSegmentsToRemove(input: string, output: string)
    requires input == "" || input[0] == '/'
    requires input != "" ==> forall segment :: segment in Split(input[1..], '/') ==> segment != "." && segment != ".."
    ensures RemoveDotSegments(input, output) == output + input
    decreases |input|
  {
    if input != "" {
      var n := SegmentLength(input);
      PlainFirst(input);
      PlainSegmentMoves(input, output);
      NoDotSegmentsToRemove(input[n..], output + input[..n]);
      Regroup(output, input[..n], input[n..]);
      assert input == input[..n] + input[n..];
    } else {
      assert output + input == output;
    }
  }

  /** The first segment of such a path is plain, and so is what follows it. */
  lemma PlainFirst(input: string)
    requires input != "" && input[0] == '/'
    requires forall segment :: segment in Split(input[1..], '/') ==> segment != "." && segment != ".."
    ensures var n := SegmentLength(input);
            && input[1..n] != "." && input[1..n] != ".."
            && (n < |input| ==> input[n] == '/')
            && (n < |input| ==>
                  forall segment :: segment in Split(input[n..][1..], '/') ==> segment != "." && segment != "..")
  {
    var tail := input[1..];
    var parts := Split(tail, '/');
    FirstPart(tail);
    var n := SegmentLength(input);
    assert parts[0] == tail[..n - 1] == input[1..n];
    assert parts[0] in parts;
    if n < |input| {
      assert input[n..][1..] == tail[n..];
      assert forall segment :: segment in Split(tail[n..], '/') ==> segment in parts;
    }
  }

  /** Every path the resume accepts stays on this origin and means one thing: it is path-absolute, is
      no network-path reference, is unchanged by remove_dot_segments, and is unchanged by decoding an
      escaped dot, slash or backslash, so that the normal form after decoding is the same again. */
  lemma AcceptedPathsAreNormal(candidate: string, declared: seq<string>, isName: string -> bool)
    requires Acceptable(candidate, declared, isName)
    ensures !NetworkPath(candidate)
    ensures var path := SplitQuery(candidate).0;
            && PathAbsolute(path) && !NetworkPath(path)
            && RemoveDotSegments(path, "") == path
            && DecodeSeparators(path) == path
            && RemoveDotSegments(DecodeSeparators(path), "") == path
            && '\\' !in path && ':' !in path && '#' !in path
    ensures |candidate| <= 2048 && forall c :: c in candidate ==> ' ' <= c && c != '\U{7F}'
  {
    var path := SplitQuery(candidate).0;
    SafePrefix(candidate, path);
    SafeSegments(path);
  }

  /** And a path of a declared route that is written plainly is accepted: rooted once, of no more than 2048 characters,
      printable ones, with no backslash, colon, hash or percent sign and no segment of one or two dots. */
  lemma PlainPathsAreAccepted(candidate: string, declared: seq<string>, isName: string -> bool)
    requires 0 < |candidate| <= 2048 && candidate[0] == '/' && (|candidate| > 1 ==> candidate[1] != '/')
    requires forall c :: c in candidate ==> c >= ' ' && c !in {'\U{7F}', '\\', ':', '#', '%'}
    requires forall segment :: segment in Split(SplitQuery(candidate).0, '/') ==> segment != "." && segment != ".."
    requires exists d :: d in declared && MatchesPath(Compile(d, isName), SplitQuery(candidate).0)
    ensures Acceptable(candidate, declared, isName)
  {
    var path := SplitQuery(candidate).0;
    forall segment | segment in Split(path, '/') ensures !UnsafeSegment(segment) {
      NoPercentSign(candidate, path, segment);
    }
  }

  lemma NoPercentSign(candidate: string, path: string, segment: string)
    requires path <= candidate && segment in Split(path, '/') && '%' !in candidate
    ensures !ContainsEncoded(segment)
  {
    if ContainsEncoded(segment) {
      var i :| 0 <= i < |segment| && EncodedAt(segment, i);
      PartIsInTheWhole(path, '/', segment, segment[i]);
    }
  }

  lemma {:induction false} PartIsInTheWhole(s: string, sep: char, part: string, c: char)
    requires part in Split(s, sep) && c in part
    ensures c in s
  {
    if s != "" {
      var rest := Split(s[1..], sep);
      if s[0] != sep && part == [s[0]] + rest[0] {
        if c != s[0] {
          assert c in rest[0];
          PartIsInTheWhole(s[1..], sep, rest[0], c);
        }
      } else {
        assert part in rest;
        PartIsInTheWhole(s[1..], sep, part, c);
      }
    }
  }

  lemma SafePrefix(candidate: string, path: string)
    requires candidate != "" && candidate[0] == '/' && !("//" <= candidate)
    requires forall c :: c in candidate ==> !Rewriting(c)
    requires path == SplitQuery(candidate).0
    ensures PathAbsolute(path) && !NetworkPath(path)
    ensures '\\' !in path && ':' !in path && '#' !in path
  {
    assert path != "";
    forall c | c in path ensures !Rewriting(c) {
      var i :| 0 <= i < |path| && path[i] == c;
      assert candidate[i] == c;
    }
  }

  lemma SafeSegments(path: string)
    requires path != "" && path[0] == '/'
    requires forall segment :: segment in Split(path, '/') ==> !UnsafeSegment(segment)
    ensures RemoveDotSegments(path, "") == path && DecodeSeparators(path) == path
  {
    var parts := Split(path[1..], '/');
    assert Split(path, '/') == [""] + parts;
    assert forall segment :: segment in parts ==> segment in Split(path, '/');
    NoDotSegmentsToRemove(path, "");
    if i :| EncodedAt(path, i) {
      EscapeLiesInASegment(path, i);
      assert false;
    }
    NothingToDecode(path);
  }
}
