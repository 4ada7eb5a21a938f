/** The score chart and the dominance queries derived from it
    (`get_loses_to_list`, `get_beats_list`, `get_best_response`,
    `get_worst_response` in strategies/iocaine.py).

    A chart maps each choice to a row.  A row is a Python dict from choice to
    score; it is modelled by the order in which the dict iterates its keys and
    a map giving each key its score.  `score[b] > 50` in the row of `a` means
    that `a` beats `b`. */
module Dominance {

  type Choice = string

  /** One row of the score chart: the dict's iteration order and its scores. */
  datatype Row = Row(order: seq<Choice>, score: map<Choice, real>)
  {
    /** A dict enumerates each of its keys exactly once. */
    ghost predicate Valid() {
      Distinct(order) && (forall k :: k in order <==> k in score)
    }
  }

  type Chart = map<Choice, Row>

  predicate Distinct<T(==)>(s: seq<T>) {
    forall i, j :: 0 <= i < j < |s| ==> s[i] != s[j]
  }

  /** Some choice beats `row`'s owner: its loses-to side is not empty. */
  ghost predicate HasCounter(row: Row)
    requires row.Valid()
  {
    Select(row.order, row.score, true) != []
  }

  /** The row of `c` is a dict over choices that are themselves in the
      chart, and `c` loses to something (so `loses_to(c, 1)[0]` exists). */
  ghost predicate RowOk(chart: Chart, c: Choice)
    requires c in chart
  {
    chart[c].Valid() && HasCounter(chart[c]) && forall k :: k in chart[c].score ==> k in chart
  }

  /** Every row of the chart is well formed.  The facts about a row are
      released only where its `RowOk` is mentioned: each counter is again a
      chart key, so releasing them on every lookup would chain forever. */
  ghost predicate Closed(chart: Chart) {
    forall c {:trigger RowOk(chart, c)} :: c in chart ==> RowOk(chart, c)
  }

  /** `a` comes no later than `b` in an ascending (or descending) sort. */
  predicate InOrder(a: real, b: real, descending: bool) {
    if descending then a >= b else a <= b
  }

  predicate AllScored(ks: seq<Choice>, score: map<Choice, real>) {
    forall k :: k in ks ==> k in score
  }

  predicate Ordered(ks: seq<Choice>, score: map<Choice, real>, descending: bool)
    requires AllScored(ks, score)
  {
    forall i, j :: 0 <= i < j < |ks| ==> InOrder(score[ks[i]], score[ks[j]], descending)
  }

  /** The loses-to side of a row holds scores below 50, the beats side scores above 50. */
  predicate OnSide(v: real, losing: bool) {
    if losing then v < 50.0 else v > 50.0
  }

  /** The dict comprehension: the keys of one side, in iteration order. */
  function Select(ks: seq<Choice>, score: map<Choice, real>, losing: bool): (r: seq<Choice>)
    requires AllScored(ks, score)
    ensures forall k :: k in r <==> k in ks && OnSide(score[k], losing)
    ensures Distinct(ks) ==> Distinct(r)
  {
    if ks == [] then []
    else
      var rest := Select(ks[1..], score, losing);
      assert forall k :: k in ks[1..] ==> k in ks;
      if OnSide(score[ks[0]], losing) then [ks[0]] + rest else rest
  }

  /** Stable insertion of `k` in front of the first key it may precede. */
  function Insert(k: Choice, ks: seq<Choice>, score: map<Choice, real>, descending: bool): (r: seq<Choice>)
    requires k in score && AllScored(ks, score)
    ensures multiset(r) == multiset(ks) + multiset{k}
    ensures forall j :: j in r <==> j in ks || j == k
    decreases |ks|
  {
    if ks == [] || InOrder(score[k], score[ks[0]], descending) then [k] + ks
    else
      assert ks == [ks[0]] + ks[1..];
      [ks[0]] + Insert(k, ks[1..], score, descending)
  }

  /** Python's stable `sorted` with the score as key, ascending or (reverse=True) descending. */
  function SortByScore(ks: seq<Choice>, score: map<Choice, real>, descending: bool): (r: seq<Choice>)
    requires AllScored(ks, score)
    ensures multiset(r) == multiset(ks)
    ensures forall j :: j in r <==> j in ks
  {
    if ks == [] then []
    else
      assert ks == [ks[0]] + ks[1..];
      Insert(ks[0], SortByScore(ks[1..], score, descending), score, descending)
  }

  lemma {:induction false} InsertOrdered(k: Choice, ks: seq<Choice>, score: map<Choice, real>, descending: bool)
    requires k in score && AllScored(ks, score)
    requires Ordered(ks, score, descending)
    ensures AllScored(Insert(k, ks, score, descending), score)
    ensures Ordered(Insert(k, ks, score, descending), score, descending)
    decreases |ks|
  {
    var r := Insert(k, ks, score, descending);
    if ks == [] || InOrder(score[k], score[ks[0]], descending) {
      forall i, j | 0 <= i < j < |r|
        ensures InOrder(score[r[i]], score[r[j]], descending)
      {
        if i > 0 {
          assert r[i] == ks[i - 1] && r[j] == ks[j - 1];
        } else {
          assert r[j] == ks[j - 1];
          assert InOrder(score[ks[0]], score[ks[j - 1]], descending) || j == 1;
        }
      }
    } else {
      var tail := Insert(k, ks[1..], score, descending);
      InsertOrdered(k, ks[1..], score, descending);
      assert r == [ks[0]] + tail;
      forall i, j | 0 <= i < j < |r|
        ensures InOrder(score[r[i]], score[r[j]], descending)
      {
        if i == 0 {
          assert r[j] == tail[j - 1];
          assert tail[j - 1] in tail;
          if tail[j - 1] != k {
            var m :| 0 <= m < |ks[1..]| && ks[1..][m] == tail[j - 1];
            assert ks[m + 1] == tail[j - 1];
          }
        } else {
          assert r[i] == tail[i - 1] && r[j] == tail[j - 1];
        }
      }
    }
  }

  lemma {:induction false} SortOrdered(ks: seq<Choice>, score: map<Choice, real>, descending: bool)
    requires AllScored(ks, score)
    ensures AllScored(SortByScore(ks, score, descending), score)
    ensures Ordered(SortByScore(ks, score, descending), score, descending)
  {
    if ks != [] {
      SortOrdered(ks[1..], score, descending);
      InsertOrdered(ks[0], SortByScore(ks[1..], score, descending), score, descending);
    }
  }

  lemma {:induction false} SortDistinct(ks: seq<Choice>, score: map<Choice, real>, descending: bool)
    requires AllScored(ks, score) && Distinct(ks)
    ensures Distinct(SortByScore(ks, score, descending))
  {
    if ks != [] {
      var tail := SortByScore(ks[1..], score, descending);
      SortDistinct(ks[1..], score, descending);
      assert ks[0] !in ks[1..];
      InsertDistinct(ks[0], tail, score, descending);
    }
  }

  lemma {:induction false} InsertDistinct(k: Choice, ks: seq<Choice>, score: map<Choice, real>, descending: bool)
    requires k in score && AllScored(ks, score)
    requires Distinct(ks) && k !in ks
    ensures Distinct(Insert(k, ks, score, descending))
    decreases |ks|
  {
    if !(ks == [] || InOrder(score[k], score[ks[0]], descending)) {
      assert ks[0] !in ks[1..];
      InsertDistinct(k, ks[1..], score, descending);
    }
  }

  /** The keys on one side of `row`, sorted by score: ascending for the
      loses-to side (strongest counter first), descending for the beats side. */
  function Ranked(row: Row, losing: bool): (r: seq<Choice>)
    requires row.Valid()
    ensures AllScored(r, row.score)
    ensures forall k :: k in r <==> k in row.score && OnSide(row.score[k], losing)
    ensures Distinct(r) && Ordered(r, row.score, !losing)
  {
    var picked := Select(row.order, row.score, losing);
    SortOrdered(picked, row.score, !losing);
    SortDistinct(picked, row.score, !losing);
    SortByScore(picked, row.score, !losing)
  }

  /** `sorted_response[:n]` when `n > 0`, the whole list otherwise. */
  function Take(ks: seq<Choice>, n: int): (r: seq<Choice>)
    ensures r <= ks
    ensures n > 0 ==> |r| == Min(n, |ks|)
    ensures n <= 0 ==> r == ks
  {
    if n > 0 && n < |ks| then ks[..n] else ks
  }

  /** get_loses_to_list: the choices that beat `x`, strongest counter first,
      only the first `n` when `n > 0`. */
  function LosesToList(chart: Chart, x: Choice, n: int): (r: seq<Choice>)
    requires x in chart && chart[x].Valid()
    ensures forall k :: k in r ==> k in chart[x].score && chart[x].score[k] < 50.0
    ensures n <= 0 ==> forall k :: k in chart[x].score && chart[x].score[k] < 50.0 ==> k in r
    ensures AllScored(r, chart[x].score)
    ensures Distinct(r) && Ordered(r, chart[x].score, false)
    ensures n > 0 ==> |r| <= n
  {
    Take(Ranked(chart[x], true), n)
  }

  /** get_beats_list: the choices `x` beats, largest margin first, only the
      first `n` when `n > 0`. */
  function BeatsList(chart: Chart, x: Choice, n: int): (r: seq<Choice>)
    requires x in chart && chart[x].Valid()
    ensures forall k :: k in r ==> k in chart[x].score && chart[x].score[k] > 50.0
    ensures n <= 0 ==> forall k :: k in chart[x].score && chart[x].score[k] > 50.0 ==> k in r
    ensures AllScored(r, chart[x].score)
    ensures Distinct(r) && Ordered(r, chart[x].score, true)
    ensures n > 0 ==> |r| <= n
  {
    Take(Ranked(chart[x], false), n)
  }

  /** A truncated list is the front of the untruncated one, as long as allowed. */
  lemma TruncatedIsPrefix(chart: Chart, x: Choice, n: int)
    requires x in chart && chart[x].Valid()
    ensures LosesToList(chart, x, n) <= LosesToList(chart, x, -1)
    ensures BeatsList(chart, x, n) <= BeatsList(chart, x, -1)
    ensures n > 0 ==> |LosesToList(chart, x, n)| == Min(n, |LosesToList(chart, x, -1)|)
    ensures n > 0 ==> |BeatsList(chart, x, n)| == Min(n, |BeatsList(chart, x, -1)|)
  {
  }

  function Min(a: int, b: int): int { if a < b then a else b }

  /** The two lists never share a choice and never hold a tie (score 50). */
  lemma SidesDisjoint(chart: Chart, x: Choice, n: int, m: int)
    requires x in chart && chart[x].Valid()
    ensures forall k :: !(k in LosesToList(chart, x, n) && k in BeatsList(chart, x, m))
    ensures forall k :: k in LosesToList(chart, x, n) + BeatsList(chart, x, m) ==> chart[x].score[k] != 50.0
  {
  }

  lemma HeadLeads(ks: seq<Choice>, score: map<Choice, real>, descending: bool, k: Choice)
    requires AllScored(ks, score) && Ordered(ks, score, descending)
    requires k in ks
    ensures InOrder(score[ks[0]], score[k], descending)
  {
    var i :| 0 <= i < |ks| && ks[i] == k;
    if i > 0 {
      assert InOrder(score[ks[0]], score[ks[i]], descending);
    }
  }

  /** Keys whose scores are pairwise different. */
  predicate ScoresDiffer(ks: seq<Choice>, score: map<Choice, real>)
    requires AllScored(ks, score)
  {
    forall k, l :: k in ks && l in ks && k != l ==> score[k] != score[l]
  }

  /** Two duplicate-free lists of the same keys, both ordered by scores that
      differ pairwise, are the same list. */
  lemma {:induction false} OrderedUnique(a: seq<Choice>, b: seq<Choice>, score: map<Choice, real>, descending: bool)
    requires AllScored(a, score) && AllScored(b, score)
    requires Distinct(a) && Distinct(b) && Ordered(a, score, descending) && Ordered(b, score, descending)
    requires forall k :: k in a <==> k in b
    requires ScoresDiffer(a, score)
    ensures a == b
    decreases |a|
  {
    assert |b| > 0 ==> b[0] in a;
    if |a| > 0 {
      assert a[0] in b;
      HeadLeads(a, score, descending, b[0]);
      HeadLeads(b, score, descending, a[0]);
      assert a[0] == b[0];
      forall k ensures k in a[1..] <==> k in b[1..] {
        assert k in a[1..] <==> k in a && k != a[0];
        assert k in b[1..] <==> k in b && k != b[0];
      }
      OrderedUnique(a[1..], b[1..], score, descending);
      assert a == [a[0]] + a[1..] && b == [b[0]] + b[1..];
    }
  }

  /** Whatever order the keys are listed in, sorting keys with pairwise
      different scores gives the same list: the order of the dict `sorted`
      reads matters only among equal scores. */
  lemma SortIgnoresOrder(ks: seq<Choice>, ks': seq<Choice>, score: map<Choice, real>, descending: bool)
    requires AllScored(ks, score) && AllScored(ks', score)
    requires Distinct(ks) && Distinct(ks') && (forall k :: k in ks <==> k in ks')
    requires ScoresDiffer(ks, score)
    ensures SortByScore(ks, score, descending) == SortByScore(ks', score, descending)
  {
    var a, b := SortByScore(ks, score, descending), SortByScore(ks', score, descending);
    SortOrdered(ks, score, descending);
    SortOrdered(ks', score, descending);
    SortDistinct(ks, score, descending);
    SortDistinct(ks', score, descending);
    OrderedUnique(a, b, score, descending);
  }

  /** `loses_to(x, 1)[0]`: the strongest counter to `x`. */
  function LosesToOne(chart: Chart, x: Choice): (r: Choice)
    requires Closed(chart) && x in chart
    ensures r in chart[x].score && chart[x].score[r] < 50.0
    ensures forall k :: k in chart[x].score && chart[x].score[k] < 50.0 ==> chart[x].score[r] <= chart[x].score[k]
    ensures r in chart
  {
    assert RowOk(chart, x);
    StrongestCounterLeads(chart, x);
    LosesToList(chart, x, 1)[0]
  }

  lemma StrongestCounterLeads(chart: Chart, x: Choice)
    requires x in chart && RowOk(chart, x)
    ensures |LosesToList(chart, x, 1)| == 1
    ensures forall k :: k in chart[x].score && chart[x].score[k] < 50.0 ==>
              chart[x].score[LosesToList(chart, x, 1)[0]] <= chart[x].score[k]
  {
    var row := chart[x];
    var all := Ranked(row, true);
    var w := Select(row.order, row.score, true)[0];
    assert w in all;
    assert LosesToList(chart, x, 1) == [all[0]];
    forall k | k in row.score && row.score[k] < 50.0
      ensures row.score[all[0]] <= row.score[k]
    {
      HeadLeads(all, row.score, false, k);
    }
  }

  /** Strictly better than the current extreme: lower when looking for the
      minimum, higher when looking for the maximum. */
  predicate Beyond(a: real, b: real, lowest: bool) {
    if lowest then a < b else a > b
  }

  /** Python's `min` / `max` over the keys: the first key, in iteration order,
      whose score is extreme. */
  function ExtremeIndex(ks: seq<Choice>, score: map<Choice, real>, lowest: bool): (i: nat)
    requires |ks| > 0 && AllScored(ks, score)
    ensures i < |ks|
    ensures forall j :: 0 <= j < |ks| ==> InOrder(score[ks[i]], score[ks[j]], !lowest)
    ensures forall j :: 0 <= j < i ==> score[ks[j]] != score[ks[i]]
  {
    if |ks| == 1 then 0
    else
      var t := 1 + ExtremeIndex(ks[1..], score, lowest);
      if Beyond(score[ks[t]], score[ks[0]], lowest) then t else 0
  }

  /** get_best_response: the key of `x`'s row with the lowest score, the first
      one in iteration order among equals. */
  function BestResponse(chart: Chart, x: Choice): (r: Choice)
    requires x in chart && chart[x].Valid() && |chart[x].order| > 0
    ensures r in chart[x].score
    ensures forall k :: k in chart[x].score ==> chart[x].score[r] <= chart[x].score[k]
    ensures exists i :: 0 <= i < |chart[x].order| && chart[x].order[i] == r &&
                        (forall j :: 0 <= j < i ==> chart[x].score[chart[x].order[j]] > chart[x].score[r])
  {
    var row := chart[x];
    var i := ExtremeIndex(row.order, row.score, true);
    assert forall k :: k in row.score ==> k in row.order;
    row.order[i]
  }

  /** get_worst_response: the key of `x`'s row with the highest score, the
      first one in iteration order among equals. */
  function WorstResponse(chart: Chart, x: Choice): (r: Choice)
    requires x in chart && chart[x].Valid() && |chart[x].order| > 0
    ensures r in chart[x].score
    ensures forall k :: k in chart[x].score ==> chart[x].score[r] >= chart[x].score[k]
    ensures exists i :: 0 <= i < |chart[x].order| && chart[x].order[i] == r &&
                        (forall j :: 0 <= j < i ==> chart[x].score[chart[x].order[j]] < chart[x].score[r])
  {
    var row := chart[x];
    var i := ExtremeIndex(row.order, row.score, false);
    assert forall k :: k in row.score ==> k in row.order;
    row.order[i]
  }
}
