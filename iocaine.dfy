/** The Iocaine Powder ensemble of strategies/iocaine.py (class `Iocaine`):
    fifty simple predictors, each second-guessed by a `Predictor`, six meta
    predictors that pick the best of the fifty over six horizons, and a final
    choice among the six over the whole game. */
module Engine {
  import opened Options
  import opened Dominance
  import opened HistoryRecall
  import opened RunningStats
  import opened Predictors

  /** The horizons, in rounds, over which the predictors are scored. */
  const Ages: seq<nat> := [1000, 100, 10, 5, 2, 1]

  /** Number of base predictors: 6 horizons x 2 mimics x 3 watches of
      history, 6 x 2 of frequency, the fixed move and the random move. */
  const PredictorCount := 50
  const FixedIndex := 48
  const RandomIndex := 49

  /** Position of `predict_history[a][mimic][watch]` among the predictors,
      in the order `predictor` creates them. */
  function HistoryIndex(a: nat, mimic: nat, watch: nat): (k: nat)
    ensures a < |Ages| && mimic < 2 && watch < 3 ==>
      k < 36 && k / 6 == a && k % 6 / 3 == mimic && k % 3 == watch
  {
    6 * a + 3 * mimic + watch
  }

  /** Position of `predict_frequency[a][mimic]` among the predictors. */
  function FrequencyIndex(a: nat, mimic: nat): (k: nat)
    ensures a < |Ages| && mimic < 2 ==> 36 <= k < 48 && (k - 36) / 2 == a && (k - 36) % 2 == mimic
  {
    36 + 2 * a + mimic
  }

  /** How often `x` occurs in `s`. */
  function Count(s: seq<Choice>, x: Choice): (n: nat)
    ensures n <= |s|
  {
    if |s| == 0 then 0 else Count(s[..|s| - 1], x) + (if s[|s| - 1] == x then 1 else 0)
  }

  /** How often each bot occurs in `s`, in the order of `bots`. */
  function CountVec(bots: seq<Choice>, s: seq<Choice>): (v: seq<int>)
    ensures |v| == |bots|
    ensures forall i :: 0 <= i < |bots| ==> v[i] == Count(s, bots[i])
  {
    seq(|bots|, i requires 0 <= i < |bots| => Count(s, bots[i]))
  }

  /** Python's `list.index`: the first position holding `x`. */
  function IndexOf(s: seq<Choice>, x: Choice): (i: nat)
    requires x in s
    ensures i < |s| && s[i] == x
    ensures forall j :: 0 <= j < i ==> s[j] != x
  {
    if s[0] == x then 0 else 1 + IndexOf(s[1..], x)
  }

  /** Counting one more move bumps its own counter and no other. */
  lemma CountSnoc(bots: seq<Choice>, s: seq<Choice>, x: Choice)
    requires Distinct(bots) && x in bots
    ensures var i := IndexOf(bots, x);
      CountVec(bots, s + [x]) == CountVec(bots, s)[i := CountVec(bots, s)[i] + 1]
  {
    assert (s + [x])[..|s|] == s;
  }

  /** `stats[watch].add(bot_list.index(x), 1)`: one more `x` counted. */
  method Tally(s: Stats, bots: seq<Choice>, hist: seq<Choice>, x: Choice)
    requires Distinct(bots) && x in bots
    requires s.Valid() && s.sum == [CountVec(bots, hist)]
    modifies s
    ensures s.Valid() && s.sum == [CountVec(bots, hist + [x])]
  {
    CountSnoc(bots, hist, x);
    s.Add(IndexOf(bots, x), 1);
  }

  /** Nothing is counted before the first move. */
  lemma CountEmpty(bots: seq<Choice>)
    ensures CountVec(bots, []) == Zeros(|bots|)
  {
  }

  /** A chart and the list of bots it ranks: every row closed, and the bots
      distinct and exactly the chart's keys. */
  ghost predicate ChartOk(chart: Chart, bots: seq<Choice>) {
    Closed(chart) && |bots| > 0 && Distinct(bots) && forall x :: x in chart <==> x in bots
  }

  /** The moment `recall` finds at horizon `a` by our moves (`watch` 0),
      theirs (1) or both (2). */
  function Recalled(a: nat, watch: nat, own: seq<Choice>, theirs: seq<Choice>, pairs: seq<(Choice, Choice)>): (when: nat)
    requires a < |Ages| && watch < 3
    requires |theirs| == |own| && |pairs| == |own|
    ensures when == 0 || when < |own|
  {
    if watch == 0 then RecallSpec(Ages[a], own)
    else if watch == 1 then RecallSpec(Ages[a], theirs)
    else RecallSpec(Ages[a], pairs)
  }

  /** What a history predictor guesses from the recalled moment `when`:
      what we (`mimic` 0) or they (1) played right after it, or `rand` when
      nothing was recalled. */
  function HistoryGuess(mimic: nat, when: nat, own: seq<Choice>, theirs: seq<Choice>, rand: Choice): (g: Choice)
    requires mimic < 2 && |theirs| == |own| && (when == 0 || when < |own|)
    ensures g == rand || (mimic == 0 && g in own) || (mimic == 1 && g in theirs)
  {
    if when == 0 then rand
    else if mimic == 0 then own[when]
    else theirs[when]
  }

  /** What the frequency predictors guess: the bot played most often so
      far, by us (`mimic` 0) or by them (1), the first in `bots` on a tie. */
  function FrequencyGuess(mimic: nat, bots: seq<Choice>, own: seq<Choice>, theirs: seq<Choice>): (g: Choice)
    requires |bots| > 0
    ensures g in bots
    ensures var counts := CountVec(bots, if mimic == 0 then own else theirs);
      exists i: nat :: (i < |bots| && g == bots[i] &&
        (forall j :: 0 <= j < |bots| ==> counts[j] <= counts[i]) &&
        (forall j :: 0 <= j < i ==> counts[j] < counts[i]))
  {
    var counts := CountVec(bots, if mimic == 0 then own else theirs);
    var i := ArgMax(counts);
    bots[i]
  }

  /** `predictor()`'s creation order: the list of all predictors holds the
      history ones `[a][mimic][watch]` row by row, then the frequency ones
      `[a][mimic]`, then the fixed one and the random one. */
  function Layout<X>(history: seq<seq<seq<X>>>, frequency: seq<seq<X>>, fixed: X, random: X): (flat: seq<X>)
    requires |history| == |Ages| && |frequency| == |Ages|
    requires forall a :: 0 <= a < |Ages| ==> |history[a]| == 2 && |frequency[a]| == 2
    requires forall a, mimic :: 0 <= a < |Ages| && 0 <= mimic < 2 ==> |history[a][mimic]| == 3
    ensures |flat| == PredictorCount
    ensures forall a: nat, mimic: nat, watch: nat :: a < |Ages| && mimic < 2 && watch < 3 ==>
      flat[HistoryIndex(a, mimic, watch)] == history[a][mimic][watch]
    ensures forall a: nat, mimic: nat :: a < |Ages| && mimic < 2 ==>
      flat[FrequencyIndex(a, mimic)] == frequency[a][mimic]
    ensures flat[FixedIndex] == fixed && flat[RandomIndex] == random
  {
    seq(PredictorCount, k requires 0 <= k < PredictorCount =>
      if k < 36 then
        var a, mimic, watch := k / 6, k % 6 / 3, k % 3;
        assert a < |Ages| && mimic < 2 && watch < 3;
        history[a][mimic][watch]
      else if k < 48 then
        var a, mimic := (k - 36) / 2, (k - 36) % 2;
        assert a < |Ages| && mimic < 2;
        frequency[a][mimic]
      else if k == FixedIndex then fixed
      else random)
  }

  /** `plan` lists, in creation order, the guess `move` hands to each
      predictor: the history and frequency guesses at their positions, then
      the fixed move and the random one. */
  ghost predicate Planned(plan: seq<Choice>, bots: seq<Choice>, own: seq<Choice>, theirs: seq<Choice>,
                          pairs: seq<(Choice, Choice)>, rand: Choice)
  {
    |plan| == PredictorCount && |bots| > 0 && |theirs| == |own| && |pairs| == |own| &&
    (forall a: nat, mimic: nat, watch: nat :: a < 6 && mimic < 2 && watch < 3 ==>
      plan[HistoryIndex(a, mimic, watch)] ==
        HistoryGuess(mimic, Recalled(a, watch, own, theirs, pairs), own, theirs, rand)) &&
    (forall a: nat, mimic: nat :: a < 6 && mimic < 2 ==>
      plan[FrequencyIndex(a, mimic)] == FrequencyGuess(mimic, bots, own, theirs)) &&
    plan[FixedIndex] == bots[0] && plan[RandomIndex] == rand
  }

  /** The guesses of horizon `a`: `h[mimic][watch]` for the history
      predictors and `f[mimic]` for the frequency ones. */
  ghost predicate HorizonPlanned(h: seq<seq<Choice>>, f: seq<Choice>, a: nat, bots: seq<Choice>,
                                 own: seq<Choice>, theirs: seq<Choice>, pairs: seq<(Choice, Choice)>, rand: Choice)
  {
    a < |Ages| && |bots| > 0 && |theirs| == |own| && |pairs| == |own| &&
    |h| == 2 && |f| == 2 && (forall mimic :: 0 <= mimic < 2 ==> |h[mimic]| == 3) &&
    (forall mimic: nat, watch: nat :: mimic < 2 && watch < 3 ==>
      h[mimic][watch] == HistoryGuess(mimic, Recalled(a, watch, own, theirs, pairs), own, theirs, rand)) &&
    (forall mimic :: 0 <= mimic < 2 ==> f[mimic] == FrequencyGuess(mimic, bots, own, theirs))
  }

  /** Flattening the guesses of every horizon in creation order gives the
      plan `move` hands out. */
  lemma LayoutPlanned(history: seq<seq<seq<Choice>>>, frequency: seq<seq<Choice>>, bots: seq<Choice>,
                      own: seq<Choice>, theirs: seq<Choice>, pairs: seq<(Choice, Choice)>, rand: Choice)
    requires |bots| > 0 && |theirs| == |own| && |pairs| == |own|
    requires |history| == |Ages| && |frequency| == |Ages|
    requires forall a :: 0 <= a < |Ages| ==> |history[a]| == 2 && |frequency[a]| == 2
    requires forall a, mimic :: 0 <= a < |Ages| && 0 <= mimic < 2 ==> |history[a][mimic]| == 3
    requires forall a: nat :: a < |Ages| ==> HorizonPlanned(history[a], frequency[a], a, bots, own, theirs, pairs, rand)
    ensures Planned(Layout(history, frequency, bots[0], rand), bots, own, theirs, pairs, rand)
  {
  }

  /** Every planned guess is a bot: a recalled move, a most frequent bot,
      the first bot or the random one. */
  lemma PlannedInBots(plan: seq<Choice>, bots: seq<Choice>, own: seq<Choice>, theirs: seq<Choice>,
                      pairs: seq<(Choice, Choice)>, rand: Choice)
    requires Planned(plan, bots, own, theirs, pairs, rand) && rand in bots
    requires forall i :: 0 <= i < |own| ==> own[i] in bots
    requires forall i :: 0 <= i < |theirs| ==> theirs[i] in bots
    ensures forall k :: 0 <= k < |plan| ==> plan[k] in bots
  {
    forall k | 0 <= k < |plan| ensures plan[k] in bots {
      if k < 36 {
        var a, mimic, watch := HistoryIndexOnto(k);
      } else if k < 48 {
        var a, mimic := FrequencyIndexOnto(k);
      }
    }
  }

  /** Every position below 36 holds a history predictor. */
  lemma {:induction false} HistoryIndexOnto(k: nat) returns (a: nat, mimic: nat, watch: nat)
    requires k < 36
    ensures a < |Ages| && mimic < 2 && watch < 3 && HistoryIndex(a, mimic, watch) == k
  {
    if k < 3 {
      a, mimic, watch := 0, 0, k;
    } else if k < 6 {
      a, mimic, watch := 0, 1, k - 3;
    } else {
      a, mimic, watch := HistoryIndexOnto(k - 6);
      a := a + 1;
    }
  }

  /** Every position from 36 to 47 holds a frequency predictor. */
  lemma {:induction false} FrequencyIndexOnto(k: nat) returns (a: nat, mimic: nat)
    requires 36 <= k < 48
    ensures a < |Ages| && mimic < 2 && FrequencyIndex(a, mimic) == k
  {
    if k < 38 {
      a, mimic := 0, k - 36;
    } else {
      a, mimic := FrequencyIndexOnto(k - 2);
      a := a + 1;
    }
  }

  /** Predictors that are distinct objects with distinct counters. */
  ghost predicate Separate(ps: seq<Predictor>) {
    forall i, j :: 0 <= i < |ps| && 0 <= j < |ps| && i != j ==> ps[i] != ps[j] && ps[i].stats != ps[j].stats
  }

  /** Two lists of predictors sharing no object. */
  ghost predicate Apart(ps: seq<Predictor>, qs: seq<Predictor>) {
    forall i, j :: 0 <= i < |ps| && 0 <= j < |qs| ==> ps[i] != qs[j] && ps[i].stats != qs[j].stats
  }

  /** `addguess(them, plan[k])` on every predictor of a list, in order. */
  method FeedAll(ps: seq<Predictor>, them: Option<Choice>, plan: seq<Choice>, chart: Chart)
    requires Separate(ps) && |plan| == |ps| && Fits(States(ps), them, chart)
    modifies Parts(ps)
    ensures States(ps) == Fed(old(States(ps)), them, plan, chart)
  {
    ghost var before := States(ps);
    for k := 0 to |ps|
      invariant forall j :: 0 <= j < |ps| ==>
        ps[j].State() == if j < k then Guessed(before[j], them, plan[j], chart) else before[j]
    {
      ps[k].AddGuess(them, plan[k], chart);
    }
    assert forall j :: 0 <= j < |ps| ==> States(ps)[j] == Fed(before, them, plan, chart)[j];
  }

  /** The winner of the standings over each horizon of `Ages`, in order:
      what `move` hands the meta predictors. */
  function Picks(ss: seq<Standing>, chart: Chart): (w: seq<Choice>)
    requires |ss| > 0 && Closed(chart) && Ready(ss, chart)
    ensures |w| == |Ages|
    ensures forall m :: 0 <= m < |Ages| ==> w[m] in chart
  {
    PicksUpTo(ss, chart, |Ages|)
  }

  /** The winners of the first `k` horizons. */
  function PicksUpTo(ss: seq<Standing>, chart: Chart, k: nat): (w: seq<Choice>)
    requires |ss| > 0 && Closed(chart) && Ready(ss, chart) && k <= |Ages|
    ensures |w| == k && forall m :: 0 <= m < k ==> w[m] in chart
  {
    if k == 0 then []
    else
      WinnerFound(ss, Ages[k - 1], chart);
      PicksUpTo(ss, chart, k - 1) + [Winner(ss, Ages[k - 1], chart).0.value]
  }

  /** The pick for horizon `m` is the winner of the fold over the standings
      scored over `Ages[m]`. */
  lemma {:induction false} PickAt(ss: seq<Standing>, chart: Chart, k: nat, m: nat)
    requires |ss| > 0 && Closed(chart) && Ready(ss, chart) && m < k <= |Ages|
    ensures Some(PicksUpTo(ss, chart, k)[m]) == Winner(ss, Ages[m], chart).0
    decreases k
  {
    if m < k - 1 {
      PickAt(ss, chart, k - 1, m);
    } else {
      WinnerFound(ss, Ages[m], chart);
    }
  }

  /** The fold over the predictors scored over horizon `m`: the next pick. */
  method Pick(ss: seq<Standing>, chart: Chart, m: nat) returns (w: Choice)
    requires |ss| > 0 && Closed(chart) && Ready(ss, chart) && m < |Ages|
    ensures PicksUpTo(ss, chart, m + 1) == PicksUpTo(ss, chart, m) + [w]
  {
    var best := Tournament(ss, Ages[m], chart);
    w := best.0.value;
  }

  /** The third part of `move`: for every horizon, the winner of the
      predictors scored over that horizon.  Nothing is changed. */
  method MetaGuesses(ss: seq<Standing>, chart: Chart) returns (winners: seq<Choice>)
    requires |ss| > 0 && Closed(chart) && Ready(ss, chart)
    ensures winners == Picks(ss, chart)
  {
    winners := [];
    for m := 0 to |Ages|
      invariant winners == PicksUpTo(ss, chart, m)
    {
      var w := Pick(ss, chart, m);
      winners := winners + [w];
    }
  }

  /** `n` fresh predictors with no prediction yet. */
  method MakePredictors(n: nat) returns (ps: seq<Predictor>)
    ensures |ps| == n && Separate(ps)
    ensures forall k :: 0 <= k < n ==> fresh(ps[k]) && fresh(ps[k].stats)
    ensures forall k :: 0 <= k < n ==> States(ps)[k] == Standing(None, [Zeros(3)])
  {
    ps := [];
    while |ps| < n
      invariant |ps| <= n && Separate(ps)
      invariant forall k :: 0 <= k < |ps| ==>
        fresh(ps[k]) && fresh(ps[k].stats) && ps[k].State() == Standing(None, [Zeros(3)])
    {
      var p := new Predictor();
      ps := ps + [p];
    }
    assert forall k :: 0 <= k < n ==> States(ps)[k] == ps[k].State();
  }

  /** Counters that were never advanced: over any horizon of at least one
      round, `max(age, -1)` names the first most frequent bot. */
  lemma MostFrequent(counts: seq<int>, age: nat)
    requires |counts| > 0 && age >= 1
    requires forall i :: 0 <= i < |counts| ==> counts[i] >= 0
    ensures 0 <= Max([counts], age, -1).0 < |counts|
    ensures Max([counts], age, -1).0 == ArgMax(counts) as int
  {
    var r := Max([counts], age, -1);
    assert Diff([counts], age) == counts;
    assert counts[0] > -1;
    FirstMaximum(counts, r.0 as nat);
  }

  class Iocaine {
    /** The score chart and the bot list of the game. */
    const chart: Chart
    const bots: seq<Choice>
    /** The 50 base predictors, in creation order (`predictors`). */
    const predictors: seq<Predictor>
    /** One meta predictor per horizon (`predict_meta`). */
    const meta: seq<Predictor>
    /** Counts of our moves (0) and of theirs (1) (`stats`). */
    const freq: seq<Stats>
    /** `histories[0]`: our moves, the last one already decided. */
    var own: seq<Choice>
    /** `histories[1]`: the opponent's moves. */
    var theirs: seq<Choice>
    /** `histories[2]`: our move and theirs, round by round. */
    var pairs: seq<(Choice, Choice)>

    /** The shape of the object graph: the right numbers of predictors and
        counters, and no object shared. */
    ghost predicate Wired() {
      |predictors| == PredictorCount && |meta| == |Ages| && |freq| == 2 &&
      Separate(predictors) && Separate(meta) && Apart(predictors, meta) &&
      freq[0] != freq[1] &&
      (forall k :: 0 <= k < |predictors| ==> predictors[k].stats != freq[0] && predictors[k].stats != freq[1]) &&
      (forall k :: 0 <= k < |meta| ==> meta[k].stats != freq[0] && meta[k].stats != freq[1])
    }

    /** The histories agree: pairs are our and their moves side by side,
        and every move is a bot. */
    ghost predicate Paired()
      reads this
    {
      |theirs| <= |own| && |pairs| == |theirs| &&
      (forall i :: 0 <= i < |pairs| ==> pairs[i] == (own[i], theirs[i])) &&
      (forall i :: 0 <= i < |own| ==> own[i] in bots) &&
      (forall i :: 0 <= i < |theirs| ==> theirs[i] in bots)
    }

    /** The two frequency counters hold, in a single snapshot, how often
        each bot was played by us in the rounds the opponent answered, and
        by the opponent. */
    ghost predicate Counted()
      reads this, freq
    {
      |freq| == 2 && |theirs| <= |own| && freq[0].Valid() && freq[1].Valid() &&
      freq[0].sum == [CountVec(bots, own[..|theirs|])] && freq[1].sum == [CountVec(bots, theirs)]
    }

    /** Every predictor has balanced counters and holds a prediction in
        the chart exactly once we have moved. */
    ghost predicate Primed(ss: seq<Standing>)
      reads this
    {
      if |own| > 0 then Ready(ss, chart)
      else forall j :: 0 <= j < |ss| ==> Balanced(ss[j].sum) && ss[j].prediction.None?
    }

    ghost predicate Valid()
      reads this, Parts(predictors), Parts(meta), freq
    {
      Wired() && ChartOk(chart, bots) && Paired() && Counted() &&
      (|own| == 0 ==> |theirs| == 0) && (|own| > 0 ==> |own| == |theirs| + 1) &&
      Primed(States(predictors)) && Primed(States(meta))
    }

    /** `Iocaine()`: fifty base predictors, six meta predictors, two zeroed
        frequency counters and empty histories. */
    constructor(chart: Chart, bots: seq<Choice>)
      requires ChartOk(chart, bots)
      ensures Valid()
      ensures this.chart == chart && this.bots == bots
      ensures own == [] && theirs == [] && pairs == []
      ensures fresh(Parts(predictors)) && fresh(Parts(meta)) && fresh(freq[0]) && fresh(freq[1])
      ensures States(predictors) == seq(PredictorCount, _ => Standing(None, [Zeros(3)]))
      ensures States(meta) == seq(|Ages|, _ => Standing(None, [Zeros(3)]))
      ensures freq[0].sum == [Zeros(|bots|)] && freq[1].sum == [Zeros(|bots|)]
    {
      var ps := MakePredictors(PredictorCount);
      ghost var sp := States(ps);
      assert sp == seq(PredictorCount, _ => Standing(None, [Zeros(3)]));
      var ms := MakePredictors(|Ages|);
      ghost var sm := States(ms);
      assert sm == seq(|Ages|, _ => Standing(None, [Zeros(3)]));
      assert States(ps) == sp;
      var mine := new Stats(|bots|);
      var yours := new Stats(|bots|);
      assert States(ps) == sp && States(ms) == sm;
      this.chart := chart;
      this.bots := bots;
      predictors := ps;
      meta := ms;
      freq := [mine, yours];
      own, theirs, pairs := [], [], [];
      new;
      assert States(predictors) == sp && States(meta) == sm;
      StartValid();
    }

    /** A game not yet started, with unused predictors and zeroed frequency
        counters, satisfies the invariant. */
    lemma StartValid()
      requires Wired() && ChartOk(chart, bots) && own == [] && theirs == [] && pairs == []
      requires freq[0].sum == [Zeros(|bots|)] && freq[1].sum == [Zeros(|bots|)]
      requires States(predictors) == seq(PredictorCount, _ => Standing(None, [Zeros(3)]))
      requires States(meta) == seq(|Ages|, _ => Standing(None, [Zeros(3)]))
      ensures Valid()
    {
      CountEmpty(bots);
      assert Sum(Zeros(3)) == 0;
    }

    /** The first part of `move`: record the opponent's answer in the
        histories and count both moves of the round. */
    method Observe(them: Option<Choice>)
      requires |freq| == 2 && freq[0] != freq[1] && Distinct(bots) && Paired() && Counted()
      requires (|own| == 0 ==> |theirs| == 0) && (|own| > 0 ==> |own| == |theirs| + 1)
      requires them.Some? <==> |own| > 0
      requires them.Some? ==> them.value in bots
      modifies this, freq
      ensures own == old(own) && |theirs| == |own|
      ensures them.None? ==> theirs == old(theirs) && pairs == old(pairs)
      ensures them.Some? ==>
        theirs == old(theirs) + [them.value] && pairs == old(pairs) + [(own[|own| - 1], them.value)]
      ensures Paired() && Counted()
    {
      if them.Some? {
        var mine := own[|own| - 1];
        assert own[..|theirs| + 1] == own[..|theirs|] + [mine];
        Tally(freq[0], bots, own[..|theirs|], mine);
        Tally(freq[1], bots, theirs, them.value);
        theirs := theirs + [them.value];
        pairs := pairs + [(mine, them.value)];
      }
    }

    /** `Observe`, seen from the predictors: none of them changes. */
    method Receive(them: Option<Choice>)
      requires Wired() && Distinct(bots) && Paired() && Counted()
      requires (|own| == 0 ==> |theirs| == 0) && (|own| > 0 ==> |own| == |theirs| + 1)
      requires them.Some? <==> |own| > 0
      requires them.Some? ==> them.value in bots
      modifies this, freq
      ensures own == old(own) && |theirs| == |own|
      ensures them.None? ==> theirs == old(theirs) && pairs == old(pairs)
      ensures them.Some? ==>
        theirs == old(theirs) + [them.value] && pairs == old(pairs) + [(own[|own| - 1], them.value)]
      ensures Paired() && Counted()
      ensures States(predictors) == old(States(predictors)) && States(meta) == old(States(meta))
    {
      assert this !in Parts(predictors) && freq[0] !in Parts(predictors) && freq[1] !in Parts(predictors);
      assert this !in Parts(meta) && freq[0] !in Parts(meta) && freq[1] !in Parts(meta);
      ghost var sp, sm := States(predictors), States(meta);
      Observe(them);
      assert States(predictors) == sp && States(meta) == sm;
    }

    /** `bot_list[stats[mimic].max(age, -1)[0]]`: the bot we (`mimic` 0) or
        they (1) played most often. */
    method MostFrequentBot(mimic: nat, age: nat) returns (mostfreq: Choice)
      requires mimic < 2 && age >= 1
      requires |freq| == 2 && |bots| > 0 && Counted() && |theirs| == |own|
      ensures mostfreq == FrequencyGuess(mimic, bots, own, theirs)
    {
      assert own[..|theirs|] == own;
      var counts := CountVec(bots, if mimic == 0 then own else theirs);
      assert freq[mimic].sum == [counts];
      MostFrequent(counts, age);
      var (most, _) := Max(freq[mimic].sum, age, -1);
      mostfreq := bots[most];
    }

    /** `[recall(age, hist) for hist in histories]` at horizon `a`. */
    method Recollect(a: nat) returns (best: seq<nat>)
      requires a < |Ages| && |theirs| == |own| && |pairs| == |own|
      ensures |best| == 3 && forall watch :: 0 <= watch < 3 ==> best[watch] == Recalled(a, watch, own, theirs, pairs)
    {
      var byOwn := Recall(Ages[a], own);
      var byTheirs := Recall(Ages[a], theirs);
      var byPairs := Recall(Ages[a], pairs);
      best := [byOwn, byTheirs, byPairs];
    }

    /** One pass of the mimic loop of `move`: the three history guesses from
        the recalled moments `best`, then the frequency guess. */
    method MimicGuesses(a: nat, mimic: nat, best: seq<nat>, rand: Choice) returns (moves: seq<Choice>, mostfreq: Choice)
      requires a < |Ages| && mimic < 2
      requires |freq| == 2 && |bots| > 0 && Counted() && |theirs| == |own|
      requires |best| == 3 && forall watch :: 0 <= watch < 3 ==> best[watch] == 0 || best[watch] < |own|
      ensures |moves| == 3
      ensures forall watch :: 0 <= watch < 3 ==> moves[watch] == HistoryGuess(mimic, best[watch], own, theirs, rand)
      ensures mostfreq == FrequencyGuess(mimic, bots, own, theirs)
    {
      moves := [];
      for watch := 0 to 3
        invariant |moves| == watch
        invariant forall w :: 0 <= w < watch ==> moves[w] == HistoryGuess(mimic, best[w], own, theirs, rand)
      {
        var when := best[watch];
        var move := if when == 0 then rand else if mimic == 0 then own[when] else theirs[when];
        moves := moves + [move];
      }
      assert Ages[a] >= 1;
      mostfreq := MostFrequentBot(mimic, Ages[a]);
    }

    /** One pass of the horizon loop of `move`: recall similar moments three
        ways, then the guesses of both mimics, `moves[mimic][watch]`. */
    method HorizonGuesses(a: nat, rand: Choice) returns (moves: seq<seq<Choice>>, freqs: seq<Choice>)
      requires a < |Ages|
      requires |freq| == 2 && |bots| > 0 && Counted() && |theirs| == |own| && |pairs| == |own|
      ensures HorizonPlanned(moves, freqs, a, bots, own, theirs, pairs, rand)
    {
      var best := Recollect(a);
      moves, freqs := [], [];
      for mimic := 0 to 2
        invariant |moves| == mimic && |freqs| == mimic
        invariant forall m :: 0 <= m < mimic ==> |moves[m]| == 3
        invariant forall m: nat, watch: nat :: m < mimic && watch < 3 ==>
          moves[m][watch] == HistoryGuess(m, best[watch], own, theirs, rand)
        invariant forall m :: 0 <= m < mimic ==> freqs[m] == FrequencyGuess(m, bots, own, theirs)
      {
        var h, f := MimicGuesses(a, mimic, best, rand);
        moves, freqs := moves + [h], freqs + [f];
        assert moves[mimic] == h && freqs[mimic] == f;
      }
    }

    /** The guesses the second part of `move` hands out, in creation order:
        horizon by horizon the history and frequency guesses, the first bot
        for the fixed predictor and `rand` for the random one.  No predictor
        is read or changed. */
    method Guesses(rand: Choice) returns (plan: seq<Choice>)
      requires |freq| == 2 && |bots| > 0 && Counted() && |theirs| == |own| && |pairs| == |own|
      ensures Planned(plan, bots, own, theirs, pairs, rand)
    {
      var history, frequency := [], [];
      for a := 0 to |Ages|
        invariant |history| == a && |frequency| == a
        invariant forall a': nat :: a' < a ==>
          HorizonPlanned(history[a'], frequency[a'], a', bots, own, theirs, pairs, rand)
      {
        var h, f := HorizonGuesses(a, rand);
        history, frequency := history + [h], frequency + [f];
        assert history[a] == h && frequency[a] == f;
      }
      plan := Layout(history, frequency, bots[0], rand);
      LayoutPlanned(history, frequency, bots, own, theirs, pairs, rand);
    }

    /** The first half of `move`: record the opponent's answer, plan every
        base predictor's guess and hand it over.  The meta predictors are
        left alone. */
    method Prepare(them: Option<Choice>, randIndex: nat) returns (plan: seq<Choice>)
      requires Valid()
      requires them.Some? <==> |own| > 0
      requires them.Some? ==> them.value in bots
      requires randIndex < |bots|
      modifies this, Parts(predictors), freq
      ensures Paired() && Counted()
      ensures own == old(own) && |theirs| == |own|
      ensures them.None? ==> theirs == old(theirs) && pairs == old(pairs)
      ensures them.Some? ==>
        theirs == old(theirs) + [them.value] && pairs == old(pairs) + [(own[|own| - 1], them.value)]
      ensures Planned(plan, bots, own, theirs, pairs, bots[randIndex])
      ensures States(predictors) == Fed(old(States(predictors)), them, plan, chart)
      ensures Ready(States(predictors), chart)
      ensures States(meta) == old(States(meta)) && Fits(States(meta), them, chart)
    {
      assert this !in Parts(predictors) && freq[0] !in Parts(predictors) && freq[1] !in Parts(predictors);
      assert this !in Parts(meta) && freq[0] !in Parts(meta) && freq[1] !in Parts(meta);
      assert Fits(States(meta), them, chart);
      Receive(them);
      plan := FeedBase(them, bots[randIndex]);
    }

    /** The base half of `move` once the histories are up to date: plan
        every base predictor's guess and hand it over. */
    method FeedBase(them: Option<Choice>, rand: Choice) returns (plan: seq<Choice>)
      requires Wired() && ChartOk(chart, bots) && Paired() && Counted() && |theirs| == |own| && rand in bots
      requires Fits(States(predictors), them, chart)
      modifies Parts(predictors)
      ensures Planned(plan, bots, own, theirs, pairs, rand)
      ensures States(predictors) == Fed(old(States(predictors)), them, plan, chart)
      ensures Ready(States(predictors), chart)
      ensures States(meta) == old(States(meta))
      ensures Counted()
    {
      assert this !in Parts(predictors) && freq[0] !in Parts(predictors) && freq[1] !in Parts(predictors);
      assert Parts(predictors) !! Parts(meta);
      ghost var metaBefore := States(meta);
      plan := Guesses(rand);
      PlannedInBots(plan, bots, own, theirs, pairs, rand);
      assert forall k :: 0 <= k < |plan| ==> plan[k] in chart;
      FeedAll(predictors, them, plan, chart);
      assert States(meta) == metaBefore;
    }

    /** The meta half of `move`: hand every meta predictor the winner of
        the base predictors over its horizon. */
    method FeedMeta(them: Option<Choice>)
      requires Wired() && ChartOk(chart, bots) && Ready(States(predictors), chart)
      requires Fits(States(meta), them, chart)
      requires Paired() && Counted()
      modifies Parts(meta)
      ensures Paired() && Counted() && own == old(own) && theirs == old(theirs) && pairs == old(pairs)
      ensures States(predictors) == old(States(predictors)) && Ready(States(predictors), chart)
      ensures States(meta) == Fed(old(States(meta)), them, Picks(States(predictors), chart), chart)
      ensures Ready(States(meta), chart)
    {
      assert Parts(predictors) !! Parts(meta);
      assert this !in Parts(meta) && freq[0] !in Parts(meta) && freq[1] !in Parts(meta);
      var base := States(predictors);
      var winners := MetaGuesses(base, chart);
      FeedAll(meta, them, winners, chart);
      assert States(predictors) == base;
    }

    /** The end of `move`: the meta predictors are scored against each other
        over the whole game, the winner's candidate is our move, and it joins
        our history; every predictor now holds a prediction. */
    method Play() returns (r: Choice)
      requires Wired() && ChartOk(chart, bots) && Paired() && Counted() && |own| == |theirs|
      requires Ready(States(predictors), chart) && Ready(States(meta), chart)
      modifies this`own
      ensures own == old(own) + [r] && r in bots && Valid()
      ensures States(predictors) == old(States(predictors)) && States(meta) == old(States(meta))
      ensures Winner(States(meta), |old(own)|, chart).0 == Some(r)
    {
      assert this !in Parts(predictors) && this !in Parts(meta);
      assert own[..|theirs|] == own;
      ghost var base := States(predictors);
      var scored := States(meta);
      var best := Tournament(scored, |own|, chart);
      r := best.0.value;
      own := own + [r];
      assert States(predictors) == base && States(meta) == scored;
      assert own[..|theirs|] == old(own);
    }

    /** The second half of a move: the meta predictors are fed the six
        winners, the best of them on the whole-game horizon is our move,
        and it joins our history. */
    method Finish(them: Option<Choice>) returns (r: Choice)
      requires Wired() && ChartOk(chart, bots) && Ready(States(predictors), chart)
      requires Fits(States(meta), them, chart)
      requires Paired() && Counted() && |own| == |theirs|
      modifies this`own, Parts(meta)
      ensures Valid()
      ensures own == old(own) + [r] && r in bots && theirs == old(theirs) && pairs == old(pairs)
      ensures States(predictors) == old(States(predictors))
      ensures States(meta) == Fed(old(States(meta)), them, Picks(States(predictors), chart), chart)
      ensures Winner(States(meta), |old(own)|, chart).0 == Some(r)
    {
      FeedMeta(them);
      r := Play();
    }

    /** `move(them)`: record the opponent's last move (`None` before the
        first round), hand every base predictor its guess (`randIndex` is
        the position `random.randrange` draws), hand every meta predictor
        the winner of the base predictors over its horizon, and play the
        prediction of the meta predictor that scores best over the whole
        game. */
    method Move(them: Option<Choice>, randIndex: nat) returns (r: Choice, ghost guesses: seq<Choice>)
      requires Valid()
      requires them.Some? <==> |own| > 0
      requires them.Some? ==> them.value in bots
      requires randIndex < |bots|
      modifies this, Parts(predictors), Parts(meta), freq
      ensures Valid()
      ensures own == old(own) + [r] && r in bots
      ensures them.None? ==> theirs == old(theirs) && pairs == old(pairs)
      ensures them.Some? ==>
        theirs == old(theirs) + [them.value] && pairs == old(pairs) + [(old(own)[|old(own)| - 1], them.value)]
      ensures Planned(guesses, bots, old(own), theirs, pairs, bots[randIndex])
      ensures States(predictors) == Fed(old(States(predictors)), them, guesses, chart)
      ensures States(meta) == Fed(old(States(meta)), them, Picks(States(predictors), chart), chart)
      ensures Winner(States(meta), |old(own)|, chart).0 == Some(r)
    {
      var plan := Prepare(them, randIndex);
      guesses := plan;
      r := Finish(them);
    }
  }
}
