/** What several modules share: a value that may be missing, text cut at a separator, sums and products. */
module Prelude {
  datatype Option<+T> = None | Some(value: T)

  /** The parts between separators, empty ones kept. */
  function Split(s: string, sep: char): (parts: seq<string>)
    ensures |parts| >= 1
    ensures forall part :: part in parts ==> sep !in part
  {
    if s == [] then [""]
    else
      var rest := Split(s[1..], sep);
      if s[0] == sep then [""] + rest else [[s[0]] + rest[0]] + rest[1..]
  }

  /** The inverse of Split: the parts with one separator between neighbours. */
  function Join(parts: seq<string>, sep: char): string
    requires |parts| >= 1
  {
    if |parts| == 1 then parts[0] else parts[0] + [sep] + Join(parts[1..], sep)
  }

  lemma {:induction false} JoinSplit(s: string, sep: char)
    ensures Join(Split(s, sep), sep) == s
  {
    if s != [] {
      JoinSplit(s[1..], sep);
      if s[0] == sep {
        JoinBehind(Split(s[1..], sep), sep);
      } else {
        JoinLonger(s[0], Split(s[1..], sep), sep);
      }
    }
  }

  lemma JoinBehind(parts: seq<string>, sep: char)
    requires |parts| >= 1
    ensures Join([""] + parts, sep) == [sep] + Join(parts, sep)
  {
    assert ([""] + parts)[1..] == parts;
  }

  lemma JoinLonger(c: char, parts: seq<string>, sep: char)
    requires |parts| >= 1
    ensures Join([[c] + parts[0]] + parts[1..], sep) == [c] + Join(parts, sep)
  {
    var longer := [[c] + parts[0]] + parts[1..];
    assert longer[1..] == parts[1..];
    if |parts| > 1 {
      Regroup([c], parts[0] + [sep], Join(parts[1..], sep));
      Regroup([c], parts[0], [sep]);
    }
  }

  lemma Regroup<T>(a: seq<T>, b: seq<T>, c: seq<T>)
    ensures (a + b) + c == a + (b + c)
  {
  }

  /** The sum of the first `n` values. */
  function Sum(vs: seq<real>, n: nat): real
    requires n <= |vs|
  {
    if n == 0 then 0.0 else Sum(vs, n - 1) + vs[n - 1]
  }

  // Products of reals, one fact at a time.

  lemma NonNegative(a: real, b: real)
    requires a >= 0.0 && b >= 0.0
    ensures a * b >= 0.0
  {
  }

  lemma Positive(a: real, b: real)
    requires a > 0.0 && b > 0.0
    ensures a * b > 0.0
  {
  }

  lemma Distributes(sum: real, a: real, b: real, k: real)
    requires sum == a + b
    ensures sum * k == a * k + b * k && k * sum == k * a + k * b
  {
    assert (a + b) * k == a * k + b * k;
  }

  lemma Grows(a: real, b: real, k: real)
    requires a <= b && k >= 0.0
    ensures a * k <= b * k && k * a <= k * b
  {
    NonNegative(b - a, k);
    Distributes(b, b - a, a, k);
  }

  lemma GrowsStrictly(a: real, b: real, k: real)
    requires a < b && k > 0.0
    ensures a * k < b * k && k * a < k * b
  {
    Positive(b - a, k);
    Distributes(b, b - a, a, k);
  }
}
