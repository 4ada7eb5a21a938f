/** The running counters of strategies/iocaine.py (class `Stats`): a list of
    snapshots of `num` counters, the last of which is the live one. */
module RunningStats {

  /** `num` counters at zero. */
  function Zeros(num: nat): (z: seq<int>)
    ensures |z| == num && forall i :: 0 <= i < num ==> z[i] == 0
  {
    seq(num, _ => 0)
  }

  /** Total of the counters. */
  function Sum(v: seq<int>): int {
    if |v| == 0 then 0 else v[0] + Sum(v[1..])
  }

  /** Element-wise difference of two snapshots. */
  function Sub(a: seq<int>, b: seq<int>): (d: seq<int>)
    requires |a| == |b|
    ensures |d| == |a| && forall i :: 0 <= i < |d| ==> d[i] == a[i] - b[i]
  {
    seq(|a|, i requires 0 <= i < |a| => a[i] - b[i])
  }

  /** Largest counter (Python's `max` of a non-empty list). */
  function MaxOf(v: seq<int>): (m: int)
    requires |v| > 0
    ensures m in v
    ensures forall i :: 0 <= i < |v| ==> v[i] <= m
  {
    if |v| == 1 then v[0]
    else
      var rest := MaxOf(v[1..]);
      if v[0] >= rest then v[0] else rest
  }

  /** Position of the first largest counter (Python's `list.index` of the
      maximum). */
  function ArgMax(v: seq<int>): (i: nat)
    requires |v| > 0
    ensures i < |v| && v[i] == MaxOf(v)
    ensures forall j :: 0 <= j < i ==> v[j] < v[i]
  {
    if |v| == 1 || v[0] >= MaxOf(v[1..]) then 0 else 1 + ArgMax(v[1..])
  }

  /** Adding `d` to one counter adds `d` to the total. */
  lemma {:induction false} SumBump(v: seq<int>, i: nat, d: int)
    requires i < |v|
    ensures Sum(v[i := v[i] + d]) == Sum(v) + d
  {
    if i > 0 {
      assert v[i := v[i] + d][1..] == v[1..][i - 1 := v[i] + d];
      SumBump(v[1..], i - 1, d);
    }
  }

  /** The total of a difference is the difference of the totals. */
  lemma {:induction false} SumSub(a: seq<int>, b: seq<int>)
    requires |a| == |b|
    ensures Sum(Sub(a, b)) == Sum(a) - Sum(b)
  {
    if |a| > 0 {
      assert Sub(a, b)[1..] == Sub(a[1..], b[1..]);
      SumSub(a[1..], b[1..]);
    }
  }

  /** Counters all below `bound <= 0` have a negative total. */
  lemma {:induction false} AllBelowSumBelow(v: seq<int>, bound: int)
    requires |v| > 0 && bound <= 0
    requires forall i :: 0 <= i < |v| ==> v[i] < bound
    ensures Sum(v) < bound
  {
    if |v| > 1 {
      AllBelowSumBelow(v[1..], bound);
    }
  }

  /** Counters that sum to zero have a non-negative maximum. */
  lemma ZeroSumMaxNonNeg(v: seq<int>)
    requires |v| > 0 && Sum(v) == 0
    ensures MaxOf(v) >= 0
  {
    if MaxOf(v) < 0 {
      AllBelowSumBelow(v, 0);
    }
  }

  /** A non-empty list of counter snapshots, all of the same width. */
  ghost predicate Snapshots(sum: seq<seq<int>>) {
    |sum| > 0 && forall k :: 0 <= k < |sum| ==> |sum[k]| == |sum[0]|
  }

  /** Counts gathered over the last `age` advances: the live snapshot minus
      the one `age` snapshots back, or the whole live snapshot when there
      are not that many. */
  function Diff(sum: seq<seq<int>>, age: nat): (d: seq<int>)
    requires Snapshots(sum)
    ensures |d| == |sum[0]|
    ensures age >= |sum| ==> d == sum[|sum| - 1]
    ensures age < |sum| ==> forall i :: 0 <= i < |d| ==> d[i] == sum[|sum| - 1][i] - sum[|sum| - 1 - age][i]
  {
    if age >= |sum| then sum[|sum| - 1] else Sub(sum[|sum| - 1], sum[|sum| - 1 - age])
  }

  /** `Stats.max(age, score)` on the snapshots `sum`: the first counter whose
      count over the last `age` advances is the highest, with that count,
      when it exceeds `score`; otherwise `(-1, score)`. */
  function Max(sum: seq<seq<int>>, age: nat, score: int): (r: (int, int))
    requires Snapshots(sum) && |sum[0]| > 0
    ensures r.1 >= score
    ensures r.0 == -1 <==> forall i :: 0 <= i < |sum[0]| ==> Diff(sum, age)[i] <= score
    ensures r.0 == -1 ==> r.1 == score
    ensures r.0 != -1 ==>
      0 <= r.0 < |sum[0]| && r.1 == Diff(sum, age)[r.0] && r.1 > score &&
      (forall i :: 0 <= i < |sum[0]| ==> Diff(sum, age)[i] <= r.1) &&
      (forall i :: 0 <= i < r.0 ==> Diff(sum, age)[i] < r.1)
  {
    var diff := Diff(sum, age);
    var m := MaxOf(diff);
    if m > score then (ArgMax(diff) as int, m) else (-1, score)
  }

  class Stats {
    /** The snapshots; `sum[|sum| - 1]` is the live one.  `max` reads them
        through the function `Max`. */
    var sum: seq<seq<int>>

    ghost predicate Valid()
      reads this
    {
      Snapshots(sum)
    }

    /** Number of counters. */
    function Width(): nat
      reads this
      requires Valid()
    {
      |sum[0]|
    }

    /** The live snapshot. */
    function Last(): (v: seq<int>)
      reads this
      requires Valid()
      ensures |v| == Width()
    {
      sum[|sum| - 1]
    }

    constructor(num: nat)
      ensures Valid() && sum == [Zeros(num)] && Width() == num
    {
      sum := [Zeros(num)];
    }

    /** Add `score` to counter `move` of the live snapshot. */
    method Add(move: nat, score: int)
      requires Valid() && move < Width()
      modifies this
      ensures Valid() && Width() == old(Width())
      ensures sum == old(sum)[|old(sum)| - 1 := old(Last())[move := old(Last())[move] + score]]
      ensures Sum(Last()) == old(Sum(Last())) + score
    {
      SumBump(Last(), move, score);
      sum := sum[|sum| - 1 := Last()[move := Last()[move] + score]];
    }

    /** Start a new snapshot, a copy of the live one. */
    method Advance()
      requires Valid()
      modifies this
      ensures Valid() && Width() == old(Width())
      ensures sum == old(sum) + [old(Last())]
    {
      sum := sum + [Last()];
    }
  }

  /** A position holding a maximum with every earlier element smaller is the
      one `ArgMax` finds. */
  lemma FirstMaximum(v: seq<int>, k: nat)
    requires k < |v|
    requires forall j :: 0 <= j < |v| ==> v[j] <= v[k]
    requires forall j :: 0 <= j < k ==> v[j] < v[k]
    ensures MaxOf(v) == v[k] && ArgMax(v) == k
  {
  }

  /** Extending a list by one element: the new element becomes the maximum
      and its position the first maximum exactly when it beats the old
      maximum. */
  lemma MaxSnoc(v: seq<int>, x: int)
    requires |v| > 0
    ensures MaxOf(v + [x]) == if x > MaxOf(v) then x else MaxOf(v)
    ensures ArgMax(v + [x]) == if x > MaxOf(v) then |v| else ArgMax(v)
  {
    var k := if x > MaxOf(v) then |v| else ArgMax(v);
    FirstMaximum(v + [x], k);
  }
}
