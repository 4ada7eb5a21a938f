/** `recall` from strategies/iocaine.py: find the most recent point in a
    history whose preceding context matches the present context longest. */
module HistoryRecall {

  /** Counting back `j` positions from the end, `h` agrees with itself shifted
      back by `p`. */
  predicate AgreesAt<T(==)>(h: seq<T>, p: int, j: int) {
    0 <= j && 1 <= p && j + p < |h| && h[|h| - 1 - j - p] == h[|h| - 1 - j]
  }

  /** Number of consecutive positions, counting back from the end, at which
      `h` agrees with itself shifted back by `p`: the length of the common
      suffix of `h` and `h[..|h| - p]`. */
  function MatchLen<T(==)>(h: seq<T>, p: nat): (k: nat)
    requires 1 <= p <= |h|
    ensures k <= |h| - p
    ensures forall j :: 0 <= j < k ==> AgreesAt(h, p, j)
    ensures k < |h| - p ==> !AgreesAt(h, p, k)
  {
    MatchFrom(h, p, 0)
  }

  function MatchFrom<T(==)>(h: seq<T>, p: nat, j: nat): (k: nat)
    requires 1 <= p <= |h| && j <= |h| - p
    requires forall i :: 0 <= i < j ==> AgreesAt(h, p, i)
    ensures j <= k <= |h| - p
    ensures forall i :: 0 <= i < k ==> AgreesAt(h, p, i)
    ensures k < |h| - p ==> !AgreesAt(h, p, k)
    decreases |h| - p - j
  {
    if j < |h| - p && AgreesAt(h, p, j) then MatchFrom(h, p, j + 1) else j
  }

  /** A match that holds on the first `l` positions and stops there (or at the
      start of the history) has length exactly `l`. */
  lemma MatchLenIs<T>(h: seq<T>, p: nat, l: nat)
    requires 1 <= p <= |h| && l <= |h| - p
    requires forall j :: 0 <= j < l ==> AgreesAt(h, p, j)
    requires l < |h| - p ==> !AgreesAt(h, p, l)
    ensures MatchLen(h, p) == l
  {
    var k := MatchLen(h, p);
    assert k < l ==> AgreesAt(h, p, k);
    assert l < k ==> AgreesAt(h, p, l);
  }

  /** The distances `recall` tries: `1 <= past < min(age + 1, len(hist) - 1)`. */
  predicate InWindow(q: int, age: int, n: nat) {
    1 <= q && q <= age && q <= n - 2
  }

  /** Among the distances `q0 <= q < stop`, the smallest one whose match
      length is the largest there and positive; 0 when every match there is
      empty. */
  function BestDistance<T(==)>(h: seq<T>, q0: nat, stop: int): (p: nat)
    requires 1 <= q0 && stop <= |h|
    ensures p == 0 || q0 <= p < stop
    decreases stop - q0
  {
    if q0 >= stop then 0
    else
      var rest := BestDistance(h, q0 + 1, stop);
      if MatchLen(h, q0) > 0 && (rest == 0 || MatchLen(h, q0) >= MatchLen(h, rest)) then q0 else rest
  }

  /** `BestDistance` finds the longest positive match, the nearest one among
      equals, or reports that there is none. */
  lemma {:induction false} BestDistanceMeaning<T>(h: seq<T>, q0: nat, stop: int)
    requires 1 <= q0 && stop <= |h|
    ensures var p := BestDistance(h, q0, stop);
      (p == 0 || MatchLen(h, p) > 0) &&
      (p == 0 ==> forall q :: q0 <= q < stop ==> MatchLen(h, q) == 0) &&
      (p != 0 ==> forall q :: q0 <= q < stop ==> MatchLen(h, q) <= MatchLen(h, p)) &&
      (p != 0 ==> forall q :: q0 <= q < p ==> MatchLen(h, q) < MatchLen(h, p))
    decreases stop - q0
  {
    if q0 < stop {
      BestDistanceMeaning(h, q0 + 1, stop);
    }
  }

  /** The value `recall(age, hist)` returns: `len(hist) - p` for the best
      distance `p` in the window `1 <= p < min(age + 1, len(hist) - 1)`, or 0. */
  function RecallSpec<T(==)>(age: int, hist: seq<T>): (end: nat)
    ensures end < |hist| || end == 0
  {
    var stop := if age + 1 < |hist| - 1 then age + 1 else |hist| - 1;
    var p := BestDistance(hist, 1, stop);
    if p == 0 then 0 else |hist| - p
  }

  /** The window of `RecallSpec` is the one `InWindow` describes, and a
      non-zero result points just past an earlier copy of the last element. */
  lemma RecallSpecMeaning<T>(age: int, hist: seq<T>)
    ensures RecallSpec(age, hist) == 0 <==> forall q :: InWindow(q, age, |hist|) ==> MatchLen(hist, q) == 0
    ensures RecallSpec(age, hist) != 0 ==>
      var p := |hist| - RecallSpec(age, hist);
      InWindow(p, age, |hist|) &&
      (forall q :: InWindow(q, age, |hist|) ==> MatchLen(hist, q) <= MatchLen(hist, p)) &&
      (forall q :: InWindow(q, age, |hist|) && q < p ==> MatchLen(hist, q) < MatchLen(hist, p))
    ensures |hist| <= 2 || age < 1 ==> RecallSpec(age, hist) == 0
    ensures RecallSpec(age, hist) != 0 ==>
      var end := RecallSpec(age, hist);
      2 <= end <= |hist| - 1 && end >= |hist| - age && hist[end - 1] == hist[|hist| - 1]
  {
    var stop := if age + 1 < |hist| - 1 then age + 1 else |hist| - 1;
    var p := BestDistance(hist, 1, stop);
    BestDistanceMeaning(hist, 1, stop);
    assert forall q :: InWindow(q, age, |hist|) <==> 1 <= q < stop;
    if p == 0 {
      if stop > 1 {
        assert MatchLen(hist, 1) == 0;
      }
    } else {
      assert AgreesAt(hist, p, 0);
    }
  }

  /** Any value with the properties of `RecallSpec` is `RecallSpec`: the
      window's longest match, earliest among equals, is unique. */
  lemma RecallSpecUnique<T>(age: int, hist: seq<T>, end: nat)
    requires end == 0 <==> forall q :: InWindow(q, age, |hist|) ==> MatchLen(hist, q) == 0
    requires end != 0 ==> (
      end <= |hist| &&
      InWindow(|hist| - end, age, |hist|) &&
      (forall q :: InWindow(q, age, |hist|) ==> MatchLen(hist, q) <= MatchLen(hist, |hist| - end)) &&
      (forall q :: InWindow(q, age, |hist|) && q < |hist| - end ==> MatchLen(hist, q) < MatchLen(hist, |hist| - end)))
    ensures end == RecallSpec(age, hist)
  {
    RecallSpecMeaning(age, hist);
  }

  /** The body of recall's loop for one distance: whether the match at
      `past` is longer than `length`, and if so how long it is.  It first
      checks the last `length + 1` positions, then extends the match. */
  method Outmatch<T(==)>(hist: seq<T>, past: nat, length: nat) returns (longer: bool, l: nat)
    requires 1 <= past && length < |hist| - past
    ensures longer <==> MatchLen(hist, past) > length
    ensures longer ==> l == MatchLen(hist, past)
  {
    var n := |hist|;
    var i := -1 - length;
    while i < 0 && hist[n + i - past] == hist[n + i]
      invariant -1 - length <= i <= 0
      invariant forall j :: -i <= j <= length ==> AgreesAt(hist, past, j)
    {
      i := i + 1;
    }
    if i == 0 {
      l := length + 1;
      while l < n - past && hist[n - past - l - 1] == hist[n - l - 1]
        invariant length + 1 <= l <= n - past
        invariant forall j :: 0 <= j < l ==> AgreesAt(hist, past, j)
      {
        l := l + 1;
      }
      MatchLenIs(hist, past, l);
      longer := true;
    } else {
      assert !AgreesAt(hist, past, -1 - i);
      assert MatchLen(hist, past) > -1 - i ==> AgreesAt(hist, past, -1 - i);
      longer, l := false, 0;
    }
  }

  /** recall(age, hist).  The result is `len(hist) - p` for the smallest
      distance `p` in the window whose match length is the largest one there,
      or 0 when no distance in the window matches even the last move. */
  method Recall<T(==)>(age: int, hist: seq<T>) returns (end: nat)
    ensures end == RecallSpec(age, hist)
  {
    var n := |hist|;
    end := 0;
    var length := 0;
    var stop := if age + 1 < n - 1 then age + 1 else n - 1;
    var past := 1;
    while past < stop && length < n - past
      invariant 1 <= past <= (if stop >= 1 then stop else 1)
      invariant forall q :: 1 <= q < past ==> MatchLen(hist, q) <= length
      invariant end == 0 ==> length == 0
      invariant end != 0 ==>
        1 <= n - end < past && length > 0 && MatchLen(hist, n - end) == length &&
        (forall q :: 1 <= q < n - end ==> MatchLen(hist, q) < length)
      invariant end <= n
    {
      var longer, l := Outmatch(hist, past, length);
      if longer {
        length := l;
        end := n - past;
      }
      past := past + 1;
    }
    forall q | InWindow(q, age, n) ensures MatchLen(hist, q) <= length {
      if q >= past {
        assert MatchLen(hist, q) <= n - q;
      }
    }
    RecallSpecUnique(age, hist, end);
  }

  /** A history whose last move never occurred before it recalls nothing. */
  lemma FreshMoveMatchesNothing<T>(h: seq<T>, age: int)
    requires |h| > 0 && forall i :: 0 <= i < |h| - 1 ==> h[i] != h[|h| - 1]
    ensures forall q :: InWindow(q, age, |h|) ==> MatchLen(h, q) == 0
  {
    forall q | InWindow(q, age, |h|) ensures MatchLen(h, q) == 0 {
      assert !AgreesAt(h, q, 0);
    }
  }
}
