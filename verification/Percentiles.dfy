/**
 The distribution blocks the benchmarks write (benchmarks/buildtime/measure.py and
 benchmarks/transport/bench_transport.cpp) and the check they are read back through
 (benchmarks/baselines.py), over the reals.
 */
module Percentiles {
  import opened Prelude

  // ---------------------------------------------------------------------------------------------
  // Sorted samples
  // ---------------------------------------------------------------------------------------------

  predicate Ordered(vs: seq<real>) {
    forall i, j :: 0 <= i < j < |vs| ==> vs[i] <= vs[j]
  }

  /** The position at which `v` keeps an ordered sequence ordered. */
  function Place(vs: seq<real>, v: real): (k: nat)
    requires Ordered(vs)
    ensures k <= |vs| && (forall i :: 0 <= i < k ==> vs[i] <= v) && (forall i :: k <= i < |vs| ==> v <= vs[i])
    decreases |vs|
  {
    if |vs| == 0 || vs[|vs| - 1] <= v then |vs| else Place(vs[..|vs| - 1], v)
  }

  function Inserted(vs: seq<real>, v: real): (r: seq<real>)
    requires Ordered(vs)
    ensures Ordered(r) && multiset(r) == multiset(vs) + multiset{v}
  {
    var k := Place(vs, v);
    PlacedIsOrdered(vs, v, k);
    PlacedValues(vs, v, k);
    vs[..k] + [v] + vs[k..]
  }

  lemma PlacedIsOrdered(vs: seq<real>, v: real, k: nat)
    requires Ordered(vs) && k <= |vs|
    requires (forall i :: 0 <= i < k ==> vs[i] <= v) && (forall i :: k <= i < |vs| ==> v <= vs[i])
    ensures Ordered(vs[..k] + [v] + vs[k..])
  {
    var r := vs[..k] + [v] + vs[k..];
    forall i, j | 0 <= i < j < |r| ensures r[i] <= r[j] {
      assert r[i] == if i < k then vs[i] else if i == k then v else vs[i - 1];
      assert r[j] == if j < k then vs[j] else if j == k then v else vs[j - 1];
    }
  }

  lemma PlacedValues(vs: seq<real>, v: real, k: nat)
    requires k <= |vs|
    ensures multiset(vs[..k] + [v] + vs[k..]) == multiset(vs) + multiset{v}
  {
    assert vs == vs[..k] + vs[k..];
  }

  function Sort(vs: seq<real>): (r: seq<real>)
    ensures Sorts(r, vs)
  {
    if vs == [] then []
    else
      assert vs == vs[..|vs| - 1] + [vs[|vs| - 1]];
      var r := Inserted(Sort(vs[..|vs| - 1]), vs[|vs| - 1]);
      assert |r| == |multiset(r)|;
      r
  }

  /** An ordered sequence with the values of another. */
  predicate Sorts(sorted: seq<real>, vs: seq<real>) {
    Ordered(sorted) && multiset(sorted) == multiset(vs) && |sorted| == |vs|
  }

  lemma SameValues(sorted: seq<real>, vs: seq<real>, v: real)
    requires Sorts(sorted, vs)
    ensures v in vs <==> v in sorted
  {
    assert v in vs <==> v in multiset(vs);
    assert v in sorted <==> v in multiset(sorted);
  }

  /** Every value lies between the ends. */
  lemma EndsBound(sorted: seq<real>, vs: seq<real>, i: nat)
    requires Sorts(sorted, vs) && i < |vs|
    ensures sorted[0] <= vs[i] <= sorted[|vs| - 1]
  {
    SameValues(sorted, vs, vs[i]);
    var j :| 0 <= j < |sorted| && sorted[j] == vs[i];
    assert j == 0 || sorted[0] <= sorted[j];
    assert j == |vs| - 1 || sorted[j] <= sorted[|vs| - 1];
  }

  /** A value that bounds the others is an end. */
  lemma EndsAreBounds(sorted: seq<real>, vs: seq<real>, v: real)
    requires Sorts(sorted, vs) && v in vs
    ensures (forall j :: 0 <= j < |vs| ==> v <= vs[j]) ==> v == sorted[0]
    ensures (forall j :: 0 <= j < |vs| ==> vs[j] <= v) ==> v == sorted[|vs| - 1]
  {
    var i :| 0 <= i < |vs| && vs[i] == v;
    EndsBound(sorted, vs, i);
    SameValues(sorted, vs, sorted[0]);
    SameValues(sorted, vs, sorted[|vs| - 1]);
    var first :| 0 <= first < |vs| && vs[first] == sorted[0];
    var last :| 0 <= last < |vs| && vs[last] == sorted[|vs| - 1];
  }

  // ---------------------------------------------------------------------------------------------
  // Least, greatest and mean
  // ---------------------------------------------------------------------------------------------

  /** std::min_element. */
  method Least(vs: seq<real>) returns (least: real)
    requires |vs| > 0
    ensures least == Sort(vs)[0]
  {
    least := vs[0];
    for i := 1 to |vs|
      invariant least in vs[..i] && forall j :: 0 <= j < i ==> least <= vs[j]
    {
      if vs[i] < least {
        least := vs[i];
      }
    }
    EndsAreBounds(Sort(vs), vs, least);
  }

  /** std::max_element. */
  method Greatest(vs: seq<real>) returns (greatest: real)
    requires |vs| > 0
    ensures greatest == Sort(vs)[|vs| - 1]
  {
    greatest := vs[0];
    for i := 1 to |vs|
      invariant greatest in vs[..i] && forall j :: 0 <= j < i ==> vs[j] <= greatest
    {
      if greatest < vs[i] {
        greatest := vs[i];
      }
    }
    EndsAreBounds(Sort(vs), vs, greatest);
  }

  lemma {:induction false} SumBetween(vs: seq<real>, low: real, high: real, n: nat)
    requires n <= |vs| && forall i :: 0 <= i < n ==> low <= vs[i] <= high
    ensures (n as real) * low <= Sum(vs, n) <= (n as real) * high
  {
    if n > 0 {
      SumBetween(vs, low, high, n - 1);
      Distributes(n as real, (n - 1) as real, 1.0, low);
      Distributes(n as real, (n - 1) as real, 1.0, high);
    }
  }

  lemma QuotientBetween(sum: real, n: real, low: real, high: real)
    requires n > 0.0 && n * low <= sum <= n * high
    ensures low <= sum / n <= high
  {
    var q := sum / n;
    assert q * n == sum;
    if q < low {
      GrowsStrictly(q, low, n);
    } else if q > high {
      GrowsStrictly(high, q, n);
    }
  }

  method MeanOf(vs: seq<real>) returns (mean: real)
    requires |vs| > 0
    ensures mean == Sum(vs, |vs|) / (|vs| as real)
  {
    var total := 0.0;
    for i := 0 to |vs|
      invariant total == Sum(vs, i)
    {
      total := total + vs[i];
    }
    mean := total / (|vs| as real);
  }

  lemma MeanIsInside(sorted: seq<real>, vs: seq<real>)
    requires Sorts(sorted, vs) && |vs| > 0
    ensures sorted[0] <= Sum(vs, |vs|) / (|vs| as real) <= sorted[|vs| - 1]
  {
    forall i | 0 <= i < |vs| ensures sorted[0] <= vs[i] <= sorted[|vs| - 1] {
      EndsBound(sorted, vs, i);
    }
    SumBetween(vs, sorted[0], sorted[|vs| - 1], |vs|);
    QuotientBetween(Sum(vs, |vs|), |vs| as real, sorted[0], sorted[|vs| - 1]);
  }

  // ---------------------------------------------------------------------------------------------
  // Percentiles
  // ---------------------------------------------------------------------------------------------

  function Rank(n: nat, fraction: real): real {
    fraction * ((n - 1) as real)
  }

  lemma SharesGrow(f: real, g: real, whole: real)
    requires 0.0 <= f <= g <= 1.0 && whole >= 0.0
    ensures 0.0 <= f * whole <= g * whole <= whole
  {
    NonNegative(f, whole);
    Grows(f, g, whole);
    Grows(g, 1.0, whole);
  }

  lemma RanksGrow(n: nat, f: real, g: real)
    requires n > 0 && 0.0 <= f <= g <= 1.0
    ensures 0.0 <= Rank(n, f) <= Rank(n, g) <= (n - 1) as real
  {
    SharesGrow(f, g, (n - 1) as real);
  }

  /** The sample whose rank is nearest. */
  function Nearest(sorted: seq<real>, fraction: real): real
    requires 0.0 <= fraction <= 1.0
  {
    if sorted == [] then 0.0
    else
      RanksGrow(|sorted|, fraction, fraction);
      var index := (Rank(|sorted|, fraction) + 0.5).Floor;
      sorted[if index < |sorted| - 1 then index else |sorted| - 1]
  }

  /** The value is the sample nearest to the fraction of the way from the first to the last, the later of two
      equally near ones. */
  ghost predicate NearestAt(sorted: seq<real>, f: real, v: real) {
    exists i: nat :: i < |sorted| && v == sorted[i] && -0.5 < i as real - f * ((|sorted| - 1) as real) <= 0.5
  }

  /** The nearest-rank percentile is that sample, and there is one only. */
  lemma NearestIsNearest(sorted: seq<real>, f: real)
    requires |sorted| > 0 && 0.0 <= f <= 1.0
    ensures NearestAt(sorted, f, Nearest(sorted, f))
    ensures forall v :: NearestAt(sorted, f, v) ==> v == Nearest(sorted, f)
  {
    RanksGrow(|sorted|, f, f);
    var at := f * ((|sorted| - 1) as real);
    var index := (at + 0.5).Floor;
    assert 0 <= index < |sorted| && sorted[index] == Nearest(sorted, f);
    assert -0.5 < index as real - at <= 0.5;
    forall v | NearestAt(sorted, f, v) ensures v == Nearest(sorted, f) {
      var i: nat :| i < |sorted| && v == sorted[i] && -0.5 < i as real - at <= 0.5;
      assert i == index;
    }
  }

  lemma NearestGrows(sorted: seq<real>, f: real, g: real)
    requires Ordered(sorted) && |sorted| > 0 && 0.0 <= f <= g <= 1.0
    ensures sorted[0] <= Nearest(sorted, f) <= Nearest(sorted, g) <= sorted[|sorted| - 1]
  {
    RanksGrow(|sorted|, f, g);
  }

  function Ceiling(r: real): int {
    -((-r).Floor)
  }

  /** The value at a rank, on the straight line between its two neighbours. */
  function At(sorted: seq<real>, rank: real): real
    requires 0.0 <= rank <= (|sorted| - 1) as real
  {
    var low, high := rank.Floor, Ceiling(rank);
    if low == high then sorted[low] else Mix(sorted[low], sorted[high], rank - low as real)
  }

  function Mix(a: real, b: real, t: real): real {
    a + t * (b - a)
  }

  function Interpolated(sorted: seq<real>, fraction: real): real
    requires 0.0 <= fraction <= 1.0
  {
    if sorted == [] then 0.0
    else
      RanksGrow(|sorted|, fraction, fraction);
      At(sorted, Rank(|sorted|, fraction))
  }

  lemma LineBetween(a: real, b: real, t: real, u: real)
    requires a <= b && 0.0 <= t <= u <= 1.0
    ensures a <= Mix(a, b, t) <= Mix(a, b, u) <= b
  {
    SharesGrow(t, u, b - a);
  }

  /** At a whole rank the interpolated value is the sample, and between two it divides their distance as the
      rank divides theirs. */
  lemma AtInterpolates(sorted: seq<real>, i: nat, at: real)
    requires i < |sorted| && i as real <= at < (i + 1) as real && at <= (|sorted| - 1) as real
    ensures at == i as real ==> At(sorted, at) == sorted[i]
    ensures at != i as real ==>
              i + 1 < |sorted| && At(sorted, at) == Mix(sorted[i], sorted[i + 1], at - i as real)
  {
    assert at.Floor == i;
    assert Ceiling(at) == if at == i as real then i else i + 1;
  }

  /** The straight line from the `i`-th sample to the next, `at` samples from the first. */
  function LinePoint(sorted: seq<real>, i: nat, at: real): real
    requires i < |sorted|
  {
    if i + 1 == |sorted| then sorted[i] else sorted[i] + (at - i as real) * (sorted[i + 1] - sorted[i])
  }

  /** The value is the one on that line at the fraction of the way from the first sample to the last. */
  ghost predicate OnTheLine(sorted: seq<real>, f: real, v: real) {
    var at := f * ((|sorted| - 1) as real);
    exists i: nat :: i < |sorted| && i as real <= at < (i + 1) as real && v == LinePoint(sorted, i, at)
  }

  lemma AtIsOnTheLine(sorted: seq<real>, at: real, i: nat)
    requires i < |sorted| && i as real <= at < (i + 1) as real && at <= (|sorted| - 1) as real
    ensures At(sorted, at) == LinePoint(sorted, i, at)
  {
    AtInterpolates(sorted, i, at);
    if i + 1 < |sorted| {
      MixIsOnTheLine(sorted[i], sorted[i + 1], at - i as real);
    }
  }

  lemma MixIsOnTheLine(a: real, b: real, t: real)
    ensures Mix(a, b, t) == a + t * (b - a)
    ensures t == 0.0 ==> a + t * (b - a) == a
  {
  }

  /** The interpolated percentile is that value, and there is one only. */
  lemma InterpolatedIsOnTheLine(sorted: seq<real>, f: real)
    requires |sorted| > 0 && 0.0 <= f <= 1.0
    ensures OnTheLine(sorted, f, Interpolated(sorted, f))
    ensures forall v :: OnTheLine(sorted, f, v) ==> v == Interpolated(sorted, f)
  {
    RanksGrow(|sorted|, f, f);
    var at := f * ((|sorted| - 1) as real);
    AtIsOnTheLine(sorted, at, at.Floor);
    assert at.Floor as real <= at < (at.Floor + 1) as real;
    forall v | OnTheLine(sorted, f, v) ensures v == Interpolated(sorted, f) {
      var j: nat :| j < |sorted| && j as real <= at < (j + 1) as real && v == LinePoint(sorted, j, at);
      AtIsOnTheLine(sorted, at, j);
    }
  }

  lemma AtIsBetween(sorted: seq<real>, rank: real)
    requires Ordered(sorted) && 0.0 <= rank <= (|sorted| - 1) as real
    ensures sorted[rank.Floor] <= At(sorted, rank) <= sorted[Ceiling(rank)]
  {
    var low, high := rank.Floor, Ceiling(rank);
    if low != high {
      assert high == low + 1;
      LineBetween(sorted[low], sorted[high], rank - low as real, rank - low as real);
    }
  }

  lemma AtGrows(sorted: seq<real>, r: real, s: real)
    requires Ordered(sorted) && 0.0 <= r <= s <= (|sorted| - 1) as real
    ensures At(sorted, r) <= At(sorted, s)
  {
    AtIsBetween(sorted, r);
    AtIsBetween(sorted, s);
    if r.Floor == s.Floor {
      if s.Floor != Ceiling(s) {
        LineBetween(sorted[s.Floor], sorted[s.Floor + 1], r - r.Floor as real, s - s.Floor as real);
      }
    } else {
      assert Ceiling(r) <= s.Floor;
      assert sorted[Ceiling(r)] <= sorted[s.Floor];
    }
  }

  lemma InterpolatedGrows(sorted: seq<real>, f: real, g: real)
    requires Ordered(sorted) && |sorted| > 0 && 0.0 <= f <= g <= 1.0
    ensures sorted[0] <= Interpolated(sorted, f) <= Interpolated(sorted, g) <= sorted[|sorted| - 1]
  {
    RanksGrow(|sorted|, f, g);
    AtGrows(sorted, Rank(|sorted|, f), Rank(|sorted|, g));
    AtIsBetween(sorted, Rank(|sorted|, f));
    AtIsBetween(sorted, Rank(|sorted|, g));
  }

  // ---------------------------------------------------------------------------------------------
  // Blocks
  // ---------------------------------------------------------------------------------------------

  /** A field of a result file: missing, something that is no finite number, or a number. */
  datatype Field = Absent | NotFinite | Number(value: real)

  /** A distribution as a result file holds it; a reader takes whichever fields are there. */
  datatype Block = Block(name: string, samples: Option<int>, min: Field, p50: Field, p95: Field, p99: Field,
                         max: Field, mean: Field)

  function NoSamples(name: string): Block {
    var zero := Number(0.0);
    Block(name, Some(0), zero, zero, zero, zero, zero, zero)
  }

  /** The count, the ends and the mean are those of the samples. */
  predicate Summarises(block: Block, samples: seq<real>, summed: seq<real>)
    requires |samples| == |summed| > 0
  {
    && block.samples == Some(|samples|) && block.min == Number(Sort(samples)[0])
    && block.max == Number(Sort(samples)[|samples| - 1])
    && block.mean == Number(Sum(summed, |summed|) / (|summed| as real))
  }

  /** The three percentiles of a block, each in the given relation to the sorted samples. */
  ghost predicate Quantiles(block: Block, sorted: seq<real>, isPercentile: (seq<real>, real, real) -> bool) {
    && block.p50.Number? && isPercentile(sorted, 0.50, block.p50.value)
    && block.p95.Number? && isPercentile(sorted, 0.95, block.p95.value)
    && block.p99.Number? && isPercentile(sorted, 0.99, block.p99.value)
  }

  /** The block of the build-time harness. */
  method NearestBlock(name: string, samples: seq<real>) returns (block: Block)
    ensures samples == [] ==> block == NoSamples(name)
    ensures samples != [] ==> Sound(block) && Summarises(block, samples, Sort(samples))
    ensures samples != [] ==> Quantiles(block, Sort(samples), NearestAt)
  {
    var ordered := Sort(samples);
    if ordered == [] {
      return NoSamples(name);
    }
    var mean := MeanOf(ordered);
    MeanIsInside(ordered, ordered);
    NearestGrows(ordered, 0.50, 0.95);
    NearestGrows(ordered, 0.95, 0.99);
    NearestIsNearest(ordered, 0.50);
    NearestIsNearest(ordered, 0.95);
    NearestIsNearest(ordered, 0.99);
    block := Block(name, Some(|ordered|), Number(ordered[0]), Number(Nearest(ordered, 0.50)),
                   Number(Nearest(ordered, 0.95)), Number(Nearest(ordered, 0.99)),
                   Number(ordered[|ordered| - 1]), Number(mean));
  }

  /** The block of the transport harness. */
  method InterpolatedBlock(name: string, samples: seq<real>) returns (block: Block)
    ensures samples == [] ==> block == NoSamples(name)
    ensures samples != [] ==> Sound(block) && Summarises(block, samples, samples)
    ensures samples != [] ==> Quantiles(block, Sort(samples), OnTheLine)
  {
    if samples == [] {
      return NoSamples(name);
    }
    var sorted := Sort(samples);
    var least := Least(samples);
    var greatest := Greatest(samples);
    var mean := MeanOf(samples);
    MeanIsInside(sorted, samples);
    InterpolatedGrows(sorted, 0.50, 0.95);
    InterpolatedGrows(sorted, 0.95, 0.99);
    InterpolatedIsOnTheLine(sorted, 0.50);
    InterpolatedIsOnTheLine(sorted, 0.95);
    InterpolatedIsOnTheLine(sorted, 0.99);
    block := Block(name, Some(|samples|), Number(least), Number(Interpolated(sorted, 0.50)),
                   Number(Interpolated(sorted, 0.95)),
                   Number(Interpolated(sorted, 0.99)), Number(greatest), Number(mean));
  }

  /** min <= p50 <= p95 <= p99 <= max and min <= mean <= max. */
  predicate Sound(block: Block) {
    && block.min.Number? && block.p50.Number? && block.p95.Number? && block.p99.Number? && block.max.Number?
    && block.mean.Number?
    && block.min.value <= block.p50.value <= block.p95.value <= block.p99.value <= block.max.value
    && block.min.value <= block.mean.value <= block.max.value
  }

  // ---------------------------------------------------------------------------------------------
  // The check
  // ---------------------------------------------------------------------------------------------

  datatype Finding = Unfinished(name: string) | Disordered(name: string) | MeanOutside(name: string)

  /** The fields in the order they are read in. */
  function Spread(block: Block): seq<Field> {
    [block.min, block.p50, block.p95, block.p99, block.max]
  }

  predicate AllFinite(fields: seq<Field>) {
    forall i :: 0 <= i < |fields| ==> fields[i] != NotFinite
  }

  /** The numbers among the first `n` of them. */
  function Present(fields: seq<Field>, n: nat): seq<real>
    requires n <= |fields|
  {
    if n == 0 then []
    else Present(fields, n - 1) + (if fields[n - 1].Number? then [fields[n - 1].value] else [])
  }

  function Numbers(block: Block): seq<real> {
    Present(Spread(block), 5)
  }

  lemma {:induction false} AllPresent(fields: seq<Field>, n: nat)
    requires n <= |fields| && forall i :: 0 <= i < n ==> fields[i].Number?
    ensures |Present(fields, n)| == n && forall i :: 0 <= i < n ==> Present(fields, n)[i] == fields[i].value
  {
    if n > 0 {
      AllPresent(fields, n - 1);
    }
  }

  /** No present field is below the present field before it. */
  predicate Increases(vs: seq<real>) {
    forall i :: 0 < i < |vs| ==> vs[i - 1] <= vs[i]
  }

  predicate MeanFits(block: Block) {
    block.mean.Number? ==>
      && (if block.min.Number? then block.min.value else 0.0) <= block.mean.value
      && (block.max.Number? ==> block.mean.value <= block.max.value)
  }

  function Findings(block: Block): seq<Finding> {
    if !AllFinite(Spread(block)) then [Unfinished(block.name)]
    else
      (if Increases(Numbers(block)) then [] else [Disordered(block.name)])
      + (if MeanFits(block) then [] else [MeanOutside(block.name)])
  }

  /** A block with a field that is no finite number is not asked for its samples. */
  predicate IsEmpty(block: Block) {
    AllFinite(Spread(block)) && block.samples.Some? && block.samples.value <= 0
  }

  /** The findings of the first `n` blocks, in the order of the blocks. */
  function FindingsOf(blocks: seq<Block>, n: nat): seq<Finding>
    requires n <= |blocks|
  {
    if n == 0 then [] else FindingsOf(blocks, n - 1) + Findings(blocks[n - 1])
  }

  function Empties(blocks: seq<Block>, n: nat): seq<string>
    requires n <= |blocks|
  {
    if n == 0 then [] else Empties(blocks, n - 1) + (if IsEmpty(blocks[n - 1]) then [blocks[n - 1].name] else [])
  }

  method AnyFalls(vs: seq<real>) returns (falls: bool)
    ensures falls <==> !Increases(vs)
  {
    var i := 1;
    while i < |vs|
      invariant 1 <= i
      invariant forall j :: 0 < j < i && j < |vs| ==> vs[j - 1] <= vs[j]
    {
      if vs[i] < vs[i - 1] {
        return true;
      }
      i := i + 1;
    }
    return false;
  }

  method AreFinite(fields: seq<Field>) returns (finite: bool)
    ensures finite <==> AllFinite(fields)
  {
    for i := 0 to |fields|
      invariant AllFinite(fields[..i])
    {
      if fields[i] == NotFinite {
        return false;
      }
    }
    return true;
  }

  /** The rest of one block's check, once its fields are finite. */
  method CheckNumbers(block: Block) returns (found: seq<Finding>)
    requires AllFinite(Spread(block))
    ensures found == Findings(block)
  {
    found := [];
    var falls := AnyFalls(Numbers(block));
    if falls {
      found := found + [Disordered(block.name)];
    }
    if block.mean.Number? {
      if !((if block.min.Number? then block.min.value else 0.0) <= block.mean.value
           && (!block.max.Number? || block.mean.value <= block.max.value)) {
        found := found + [MeanOutside(block.name)];
      }
    }
  }

  method CheckBlock(block: Block) returns (found: seq<Finding>, isEmpty: bool)
    ensures found == Findings(block) && (isEmpty <==> IsEmpty(block))
  {
    var finite := AreFinite(Spread(block));
    if !finite {
      return [Unfinished(block.name)], false;
    }
    found := CheckNumbers(block);
    isEmpty := block.samples.Some? && block.samples.value <= 0;
  }

  /** What is broken and what is empty, in the order of the blocks. */
  method CheckDistributions(blocks: seq<Block>) returns (broken: seq<Finding>, empty: seq<string>)
    ensures broken == FindingsOf(blocks, |blocks|)
    ensures empty == Empties(blocks, |blocks|)
  {
    broken, empty := [], [];
    for i := 0 to |blocks|
      invariant broken == FindingsOf(blocks, i) && empty == Empties(blocks, i)
    {
      broken, empty := CheckOneMore(blocks, i, broken, empty);
    }
  }

  method CheckOneMore(blocks: seq<Block>, i: nat, broken: seq<Finding>, empty: seq<string>)
    returns (broken': seq<Finding>, empty': seq<string>)
    requires i < |blocks| && broken == FindingsOf(blocks, i) && empty == Empties(blocks, i)
    ensures broken' == FindingsOf(blocks, i + 1) && empty' == Empties(blocks, i + 1)
  {
    var found, isEmpty := CheckBlock(blocks[i]);
    broken' := broken + found;
    empty' := if isEmpty then empty + [blocks[i].name] else empty;
  }

  lemma SoundBlockPasses(block: Block)
    requires Sound(block)
    ensures Findings(block) == []
  {
    AllPresent(Spread(block), 5);
  }

  /** Sound blocks are never reported broken. */
  lemma NothingFound(blocks: seq<Block>)
    requires forall i :: 0 <= i < |blocks| ==> Sound(blocks[i])
    ensures FindingsOf(blocks, |blocks|) == []
  {
    NothingFoundBefore(blocks, |blocks|);
  }

  lemma {:induction false} NothingFoundBefore(blocks: seq<Block>, n: nat)
    requires n <= |blocks| && forall i :: 0 <= i < n ==> Sound(blocks[i])
    ensures FindingsOf(blocks, n) == []
  {
    if n > 0 {
      NothingFoundBefore(blocks, n - 1);
      NothingFoundNext(blocks, n - 1, blocks[n - 1]);
    }
  }

  lemma NothingFoundNext(blocks: seq<Block>, n: nat, block: Block)
    requires n < |blocks| && block == blocks[n] && Sound(block) && FindingsOf(blocks, n) == []
    ensures FindingsOf(blocks, n + 1) == []
  {
    SoundBlockPasses(block);
  }

  /** Two numbers of the first `n` fields stand in the wrong order. */
  ghost predicate Inverted(fields: seq<Field>, n: nat)
    requires n <= |fields|
  {
    exists i, j :: 0 <= i < j < n && fields[i].Number? && fields[j].Number? && fields[j].value < fields[i].value
  }

  function Last(vs: seq<real>): real
    requires vs != []
  {
    vs[|vs| - 1]
  }

  /** `vs` are in order exactly when no two of the first `n` fields are not; its last is one of them, and then the
      greatest. */
  ghost predicate Orders(fields: seq<Field>, n: nat, vs: seq<real>)
    requires n <= |fields|
  {
    && (Increases(vs) <==> !Inverted(fields, n))
    && (vs != [] ==> exists i :: 0 <= i < n && fields[i].Number? && fields[i].value == Last(vs))
    && (Increases(vs) ==>
          forall i :: 0 <= i < n && fields[i].Number? ==> vs != [] && fields[i].value <= Last(vs))
  }

  lemma {:induction false} NeighboursDecide(fields: seq<Field>, n: nat)
    requires n <= |fields|
    ensures Orders(fields, n, Present(fields, n))
  {
    if n > 0 {
      NeighboursDecide(fields, n - 1);
      if fields[n - 1].Number? {
        OneNumberMore(fields, n, Present(fields, n - 1));
      } else {
        OneFieldMore(fields, n, Present(fields, n - 1));
        assert Present(fields, n) == Present(fields, n - 1);
      }
    }
  }

  lemma OneFieldMore(fields: seq<Field>, n: nat, vs: seq<real>)
    requires 0 < n <= |fields| && !fields[n - 1].Number? && Orders(fields, n - 1, vs)
    ensures Orders(fields, n, vs)
  {
  }

  lemma OneNumberMore(fields: seq<Field>, n: nat, before: seq<real>)
    requires 0 < n <= |fields| && fields[n - 1].Number? && Orders(fields, n - 1, before)
    ensures Orders(fields, n, before + [fields[n - 1].value])
  {
    var v := fields[n - 1].value;
    AppendedIncreases(before, v);
    if before != [] && v < Last(before) {
      var i :| 0 <= i < n - 1 && fields[i].Number? && fields[i].value == Last(before);
      assert Inverted(fields, n);
    }
    assert fields[n - 1].value == Last(before + [v]);
  }

  lemma AppendedIncreases(before: seq<real>, v: real)
    ensures Increases(before + [v]) <==> Increases(before) && (before == [] || Last(before) <= v)
  {
    var after := before + [v];
    assert forall i :: 0 <= i < |before| ==> after[i] == before[i];
    if Increases(after) && before != [] {
      assert after[|before| - 1] <= after[|before|];
    }
  }

  /** What each finding says: a field that is no finite number; or two in the wrong order; or a mean below the
      least, or below zero where there is none, or above the greatest. */
  lemma FindingsSay(block: Block)
    ensures Unfinished(block.name) in Findings(block) <==> NotFinite in Spread(block)
    ensures Disordered(block.name) in Findings(block) <==> NotFinite !in Spread(block) && Inverted(Spread(block), 5)
    ensures MeanOutside(block.name) in Findings(block) <==>
            && NotFinite !in Spread(block) && block.mean.Number?
            && (|| (if block.min.Number? then block.mean.value < block.min.value else block.mean.value < 0.0)
                || (block.max.Number? && block.max.value < block.mean.value))
    ensures forall finding :: finding in Findings(block) ==> finding.name == block.name
  {
    NeighboursDecide(Spread(block), 5);
    assert AllFinite(Spread(block)) <==> NotFinite !in Spread(block);
  }

  /** A block made from no samples is reported as empty and as nothing else. */
  lemma NoSamplesIsEmpty(name: string)
    ensures IsEmpty(NoSamples(name)) && Findings(NoSamples(name)) == []
  {
    SoundBlockPasses(NoSamples(name));
  }

  /** A block with all its fields, and a mean that is a number, is reported exactly when it is not sound. */
  lemma FullBlockIsSoundIffNothingIsFound(block: Block)
    requires Absent !in Spread(block) && block.mean.Number?
    ensures Findings(block) == [] <==> Sound(block)
  {
    var fields := Spread(block);
    if AllFinite(fields) {
      forall i | 0 <= i < |fields| ensures fields[i].Number? {
        assert fields[i] in fields;
      }
      AllPresent(fields, 5);
      var vs := Numbers(block);
      if Increases(vs) {
        assert vs[0] <= vs[1] && vs[1] <= vs[2] && vs[2] <= vs[3] && vs[3] <= vs[4];
      }
    }
  }
}
