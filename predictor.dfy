/** The second- and triple-guesser of strategies/iocaine.py (class
    `Predictor`): it keeps the prediction of one underlying strategy and three
    running counters saying whether trusting it, second-guessing it or
    triple-guessing it would have paid off. */
module Predictors {
  import opened Options
  import opened Dominance
  import opened RunningStats

  /** How the opponent's actual move relates to what was predicted. */
  datatype Verdict = Same | LastBeats | PredictionBeats | Unrelated

  /** The three-way test of `addguess`: the opponent played the prediction,
      or a move the prediction loses to, or a move the prediction beats
      (tried in that order), or none of these. */
  function Judge(chart: Chart, lastmove: Choice, prediction: Choice): (v: Verdict)
    requires Closed(chart) && lastmove in chart && prediction in chart
    ensures v == Same <==> lastmove == prediction
    ensures v == LastBeats <==>
      lastmove != prediction && lastmove in chart[prediction].score && chart[prediction].score[lastmove] < 50.0
    ensures v == PredictionBeats <==>
      lastmove != prediction && !(lastmove in chart[prediction].score && chart[prediction].score[lastmove] < 50.0) &&
      prediction in chart[lastmove].score && chart[lastmove].score[prediction] < 50.0
  {
    assert RowOk(chart, lastmove) && RowOk(chart, prediction);
    if lastmove == prediction then Same
    else if lastmove in LosesToList(chart, prediction, -1) then LastBeats
    else if prediction in LosesToList(chart, lastmove, -1) then PredictionBeats
    else Unrelated
  }

  /** The counter a verdict credits. */
  function Gain(v: Verdict): nat {
    match v
    case Same => 1
    case LastBeats => 0
    case PredictionBeats => 2
    case Unrelated => 0
  }

  /** The counter a verdict debits. */
  function Loss(v: Verdict): nat {
    match v
    case Same => 2
    case LastBeats => 1
    case PredictionBeats => 0
    case Unrelated => 0
  }

  /** The live counters after the two `add` calls of `addguess`: one unit
      moves from counter `Loss(v)` to counter `Gain(v)`. */
  function Credit(c: seq<int>, v: Verdict): (r: seq<int>)
    requires |c| == 3
    ensures |r| == 3 && Sum(r) == Sum(c)
    ensures v == Unrelated ==> r == c
    ensures v != Unrelated ==>
      Gain(v) != Loss(v) && Gain(v) < 3 && Loss(v) < 3 &&
      r[Gain(v)] == c[Gain(v)] + 1 && r[Loss(v)] == c[Loss(v)] - 1 &&
      forall i :: 0 <= i < 3 && i != Gain(v) && i != Loss(v) ==> r[i] == c[i]
  {
    if v == Unrelated then c
    else
      SumBump(c, Gain(v), 1);
      var up := c[Gain(v) := c[Gain(v)] + 1];
      SumBump(up, Loss(v), -1);
      up[Loss(v) := up[Loss(v)] - 1]
  }

  /** `loses_to_one` applied once (action 2, trust), three times (action 0,
      second-guess) or five times (action 1, triple-guess). */
  function Anticipate(chart: Chart, x: Choice, action: nat): (r: Choice)
    requires Closed(chart) && x in chart && action < 3
    ensures r in chart
    ensures action == 2 ==> r in chart[x].score && chart[x].score[r] < 50.0
  {
    if action == 2 then LosesToOne(chart, x)
    else if action == 0 then LosesToOne(chart, LosesToOne(chart, LosesToOne(chart, x)))
    else LosesToOne(chart, LosesToOne(chart, LosesToOne(chart, LosesToOne(chart, LosesToOne(chart, x)))))
  }

  /** The counter snapshots after `addguess`: untouched before the first
      move; otherwise the live snapshot is credited with the verdict on the
      previous prediction and a copy of it is started, the older snapshots
      staying as they were. */
  function AfterGuess(sum: seq<seq<int>>, lastmove: Option<Choice>, prediction: Option<Choice>, chart: Chart): (r: seq<seq<int>>)
    requires |sum| > 0 && |sum[|sum| - 1]| == 3 && Closed(chart)
    requires lastmove.Some? ==> lastmove.value in chart && prediction.Some? && prediction.value in chart
    ensures lastmove.None? ==> r == sum
    ensures lastmove.Some? ==>
      |r| == |sum| + 1 && r[..|sum| - 1] == sum[..|sum| - 1] && r[|sum| - 1] == r[|sum|] &&
      r[|sum|] == Credit(sum[|sum| - 1], Judge(chart, lastmove.value, prediction.value))
  {
    if lastmove.None? then sum
    else
      var c := Credit(sum[|sum| - 1], Judge(chart, lastmove.value, prediction.value));
      sum[|sum| - 1 := c] + [c]
  }

  /** Counters whose every snapshot sums to zero gain and lose equally over
      any horizon. */
  lemma DiffSumsToZero(sum: seq<seq<int>>, age: nat)
    requires Snapshots(sum) && forall k :: 0 <= k < |sum| ==> Sum(sum[k]) == 0
    ensures Sum(Diff(sum, age)) == 0
  {
    if age < |sum| {
      SumSub(sum[|sum| - 1], sum[|sum| - 1 - age]);
    }
  }

  /** The counters of a predictor: three of them, every snapshot summing to
      zero (each verdict moves one unit from one counter to another). */
  ghost predicate Balanced(sum: seq<seq<int>>) {
    Snapshots(sum) && |sum[0]| == 3 && forall k :: 0 <= k < |sum| ==> Sum(sum[k]) == 0
  }

  /** What `bestguess` reads of a predictor: its prediction and its
      counters. */
  datatype Standing = Standing(prediction: Option<Choice>, sum: seq<seq<int>>)

  /** A standing `addguess(lastmove, guess)` may be applied to: balanced
      counters, and a prediction in the chart whenever there is a move to
      score it against. */
  ghost predicate Scorable(p: Standing, lastmove: Option<Choice>, chart: Chart) {
    Balanced(p.sum) && Closed(chart) &&
    (lastmove.Some? ==> lastmove.value in chart && p.prediction.Some? && p.prediction.value in chart)
  }

  /** The standing after `addguess(lastmove, guess)`: the new guess is the
      prediction and the counters stay balanced, with one more snapshot
      exactly when there was a move to score. */
  function Guessed(p: Standing, lastmove: Option<Choice>, guess: Choice, chart: Chart): (r: Standing)
    requires Scorable(p, lastmove, chart)
    ensures r.prediction == Some(guess) && Balanced(r.sum)
    ensures |r.sum| == if lastmove.Some? then |p.sum| + 1 else |p.sum|
  {
    var after := AfterGuess(p.sum, lastmove, p.prediction, chart);
    assert Snapshots(after) && forall k :: 0 <= k < |after| ==> Sum(after[k]) == 0 by {
      if lastmove.Some? {
        forall k | 0 <= k < |after| ensures |after[k]| == 3 && Sum(after[k]) == 0 {
          if k < |p.sum| - 1 {
            assert after[k] == after[..|p.sum| - 1][k] == p.sum[k];
          }
        }
      }
    }
    Standing(Some(guess), after)
  }

  /** How far the counters moved over the last `age` rounds, at the best
      of the three. */
  function Score(sum: seq<seq<int>>, age: nat): (s: int)
    requires Balanced(sum)
    ensures s >= 0
  {
    DiffSumsToZero(sum, age);
    ZeroSumMaxNonNeg(Diff(sum, age));
    MaxOf(Diff(sum, age))
  }

  /** What a predictor offers when it wins: its prediction anticipated by
      the best-scoring action. */
  function Candidate(prediction: Choice, sum: seq<seq<int>>, age: nat, chart: Chart): (r: Choice)
    requires Balanced(sum) && Closed(chart) && prediction in chart
    ensures r in chart
  {
    Anticipate(chart, prediction, ArgMax(Diff(sum, age)))
  }

  /** `bestguess(age, best)` on a predictor standing at `p`: its candidate
      and score when its score over `age` rounds beats `best`'s, otherwise
      `best` itself. */
  function BestGuess(p: Standing, age: nat, best: (Option<Choice>, int), chart: Chart): (r: (Option<Choice>, int))
    requires Balanced(p.sum) && Closed(chart)
    requires Score(p.sum, age) > best.1 ==> p.prediction.Some? && p.prediction.value in chart
    ensures Score(p.sum, age) <= best.1 ==> r == best
    ensures Score(p.sum, age) > best.1 ==> r == (Some(Candidate(p.prediction.value, p.sum, age, chart)), Score(p.sum, age))
  {
    var (action, score) := Max(p.sum, age, best.1);
    if score == best.1 then best
    else (Some(Anticipate(chart, p.prediction.value, action)), score)
  }

  class Predictor {
    const stats: Stats
    /** The last guess recorded; `None` is the source's `'null'`. */
    var prediction: Option<Choice>

    ghost predicate Valid()
      reads this, stats
    {
      Balanced(stats.sum)
    }

    /** The prediction and counters `bestguess` reads. */
    function State(): Standing
      reads this, stats
    {
      Standing(prediction, stats.sum)
    }

    constructor()
      ensures Valid() && fresh(stats)
      ensures stats.sum == [Zeros(3)] && prediction == None
    {
      stats := new Stats(3);
      prediction := None;
      new;
      assert Sum(Zeros(3)) == 0;
    }

    /** `addguess(lastmove, guess)`: score the previous prediction against
        the move the opponent actually made, then start a new snapshot and
        record the new guess.  Before the first move nothing is scored. */
    method AddGuess(lastmove: Option<Choice>, guess: Choice, chart: Chart)
      requires Valid() && Closed(chart)
      requires lastmove.Some? ==> lastmove.value in chart && prediction.Some? && prediction.value in chart
      modifies this, stats
      ensures Valid() && prediction == Some(guess)
      ensures stats.sum == AfterGuess(old(stats.sum), lastmove, old(prediction), chart)
      ensures State() == Guessed(old(State()), lastmove, guess, chart)
    {
      if lastmove.Some? {
        var v := Judge(chart, lastmove.value, prediction.value);
        Record(v);
      }
      prediction := Some(guess);
    }

    /** The counter updates `addguess` makes for a verdict. */
    method Record(v: Verdict)
      requires Valid()
      modifies stats
      ensures Valid()
      ensures var c := Credit(old(stats.Last()), v);
        stats.sum == old(stats.sum)[|old(stats.sum)| - 1 := c] + [c]
    {
      if v != Unrelated {
        stats.Add(Gain(v), 1);
        stats.Add(Loss(v), -1);
      }
      stats.Advance();
    }
  }

  /** The objects a list of predictors owns. */
  ghost function Parts(ps: seq<Predictor>): set<object> {
    (set k | 0 <= k < |ps| :: ps[k] as object) + (set k | 0 <= k < |ps| :: ps[k].stats as object)
  }

  /** The standings of a list of predictors, in order. */
  function States(ps: seq<Predictor>): (ss: seq<Standing>)
    reads Parts(ps)
    ensures |ss| == |ps| && forall j {:trigger ss[j]} :: 0 <= j < |ps| ==> ss[j] == ps[j].State()
  {
    seq(|ps|, j requires 0 <= j < |ps| reads Parts(ps) => ps[j].State())
  }

  /** Standings every one of which `addguess(lastmove, _)` may be applied
      to. */
  ghost predicate Fits(ss: seq<Standing>, lastmove: Option<Choice>, chart: Chart) {
    forall j :: 0 <= j < |ss| ==> Scorable(ss[j], lastmove, chart)
  }

  /** The standings after `addguess(lastmove, plan[j])` on every predictor
      `j`: each is scored on its own prediction and keeps its own guess;
      none reads another. */
  function Fed(ss: seq<Standing>, lastmove: Option<Choice>, plan: seq<Choice>, chart: Chart): (r: seq<Standing>)
    requires Fits(ss, lastmove, chart) && |plan| == |ss|
    ensures |r| == |ss|
    ensures forall j :: 0 <= j < |r| ==> r[j].prediction == Some(plan[j]) && Balanced(r[j].sum)
    ensures (forall j :: 0 <= j < |plan| ==> plan[j] in chart) ==> Ready(r, chart)
  {
    seq(|ss|, j requires 0 <= j < |ss| => Guessed(ss[j], lastmove, plan[j], chart))
  }

  /** Standings ready to be scored: each with balanced counters and a
      prediction in the chart. */
  ghost predicate Ready(ss: seq<Standing>, chart: Chart) {
    forall j :: 0 <= j < |ss| ==> Balanced(ss[j].sum) && ss[j].prediction.Some? && ss[j].prediction.value in chart
  }

  /** The scores of a list of standings over `age` rounds, in order. */
  function Scores(ss: seq<Standing>, age: nat): (v: seq<int>)
    requires forall j :: 0 <= j < |ss| ==> Balanced(ss[j].sum)
    ensures |v| == |ss|
  {
    if |ss| == 0 then [] else Scores(ss[..|ss| - 1], age) + [Score(ss[|ss| - 1].sum, age)]
  }

  /** Entry `j` of `Scores` is the score of `ss[j]`. */
  lemma {:induction false} ScoresAt(ss: seq<Standing>, age: nat, j: nat)
    requires forall j :: 0 <= j < |ss| ==> Balanced(ss[j].sum)
    requires j < |ss|
    ensures Scores(ss, age)[j] == Score(ss[j].sum, age)
    decreases |ss|
  {
    if j < |ss| - 1 {
      ScoresAt(ss[..|ss| - 1], age, j);
    }
  }

  /** The scoring loop of `move` as a fold: starting from `('null', -1)`,
      `best` is passed through every predictor's `bestguess` in order. */
  function Winner(ss: seq<Standing>, age: nat, chart: Chart): (r: (Option<Choice>, int))
    requires Closed(chart) && Ready(ss, chart)
    ensures r.0.None? ==> r == (None, -1)
    ensures r.0.Some? ==> r.0.value in chart && r.1 >= 0
  {
    if |ss| == 0 then (None, -1)
    else BestGuess(ss[|ss| - 1], age, Winner(ss[..|ss| - 1], age, chart), chart)
  }

  /** The fold picks the first predictor with the highest score and returns
      its candidate with that score. */
  lemma {:induction false} WinnerIsFirstBest(ss: seq<Standing>, age: nat, chart: Chart)
    requires |ss| > 0 && Closed(chart) && Ready(ss, chart)
    ensures var w := ArgMax(Scores(ss, age));
      Winner(ss, age, chart) == (Some(Candidate(ss[w].prediction.value, ss[w].sum, age, chart)), MaxOf(Scores(ss, age)))
  {
    var n := |ss| - 1;
    var init := ss[..n];
    var x := Score(ss[n].sum, age);
    var prev := Winner(init, age, chart);
    assert Scores(ss, age) == Scores(init, age) + [x];
    assert Winner(ss, age, chart) == BestGuess(ss[n], age, prev, chart);
    if n > 0 {
      WinnerIsFirstBest(init, age, chart);
      MaxSnoc(Scores(init, age), x);
    } else {
      assert Scores(ss, age) == [x];
    }
  }

  /** Over a non-empty list the fold always finds a winner: a candidate in
      the chart, with a score no lower than zero. */
  lemma WinnerFound(ss: seq<Standing>, age: nat, chart: Chart)
    requires |ss| > 0 && Closed(chart) && Ready(ss, chart)
    ensures Winner(ss, age, chart).0.Some? && Winner(ss, age, chart).0.value in chart
    ensures Winner(ss, age, chart).1 >= 0
  {
    WinnerIsFirstBest(ss, age, chart);
    ScoresAt(ss, age, 0);
  }

  /** The scoring loop of `move`: pass `best` through the `bestguess` of
      every predictor, given by its standing.  Its result is a candidate in
      the chart with a non-negative score. */
  method Tournament(ss: seq<Standing>, age: nat, chart: Chart) returns (best: (Option<Choice>, int))
    requires |ss| > 0 && Closed(chart) && Ready(ss, chart)
    ensures best == Winner(ss, age, chart)
    ensures best.0.Some? && best.0.value in chart && best.1 >= 0
  {
    best := (None, -1);
    var i := 0;
    while i < |ss|
      invariant 0 <= i <= |ss|
      invariant best == Winner(ss[..i], age, chart)
    {
      assert ss[..i + 1][..i] == ss[..i];
      best := BestGuess(ss[i], age, best, chart);
      i := i + 1;
    }
    assert ss[..i] == ss;
    WinnerFound(ss, age, chart);
  }
}
