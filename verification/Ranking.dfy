/** Percentiles by average rank, and the ranking of runs by net return. */
module Ranking {
  import opened Arithmetic

  const PERCENTILE_SCALE: int := 1_000_000
  const MAX_SCORE_MILLIS: int := 100_000

  datatype RunScoreInput = RunScoreInput(
    runId: nat,
    netReturn: i64,
    sortino: i64,
    maxDrawdown: i64,
    policyRejections: u32,
    missedCycles: u32,
    disqualifiedReason: Option<string>)

  datatype ScoredRun = ScoredRun(
    runId: nat,
    rank: Option<u32>,
    scoreMillis: int,
    netReturnPercentile: int,
    disqualifiedReason: Option<string>)

  // ---------------------------------------------------------------- average ranks

  function Below(values: seq<int>, target: int): (n: nat)
    ensures n <= |values|
  {
    if values == [] then 0
    else Below(values[..|values| - 1], target) + (if values[|values| - 1] < target then 1 else 0)
  }

  function EqualTo(values: seq<int>, target: int): (n: nat)
    ensures n <= |values|
  {
    if values == [] then 0
    else EqualTo(values[..|values| - 1], target) + (if values[|values| - 1] == target then 1 else 0)
  }

  /** Twice the zero-based average rank of `target`. */
  function AverageRankTwice(values: seq<int>, target: int): int {
    2 * Below(values, target) + EqualTo(values, target) - 1
  }

  function Percentile(values: seq<int>, target: int): int {
    if |values| <= 1 then PERCENTILE_SCALE
    else TruncDiv(AverageRankTwice(values, target) * PERCENTILE_SCALE, 2 * (|values| - 1))
  }

  /** Sum of the doubled average ranks, in `all`, of the members of `some`. */
  function RankSum(all: seq<int>, some: seq<int>): int {
    if some == [] then 0
    else RankSum(all, some[..|some| - 1]) + AverageRankTwice(all, some[|some| - 1])
  }

  /** Appending a value raises the ranks of the values above it by two and of its equals by one. */
  lemma {:induction false} RankSumGrows(all: seq<int>, some: seq<int>, x: int)
    ensures RankSum(all + [x], some)
            == RankSum(all, some) + 2 * (|some| - Below(some, x) - EqualTo(some, x))
               + EqualTo(some, x)
  {
    assert (all + [x])[..|all + [x]| - 1] == all;
    if some != [] {
      RankSumGrows(all, some[..|some| - 1], x);
    }
  }

  lemma RankSumStep(rest: seq<int>, x: int)
    ensures RankSum(rest + [x], rest + [x]) == RankSum(rest, rest) + 2 * |rest|
  {
    var values := rest + [x];
    assert values[..|values| - 1] == rest;
    RankSumGrows(rest, rest, x);
    assert AverageRankTwice(values, x) == AverageRankTwice(rest, x) + 1;
  }

  /** Ties or not, the doubled average ranks of `n` values sum to `n * (n - 1)`. */
  lemma {:induction false} RanksSumUp(values: seq<int>)
    ensures RankSum(values, values) == |values| * (|values| - 1)
  {
    hide AverageRankTwice;
    if values != [] {
      var rest := values[..|values| - 1];
      assert values == rest + [values[|values| - 1]];
      RanksSumUp(rest);
      RankSumStep(rest, values[|values| - 1]);
      assert (|rest| + 1) * |rest| == |rest| * (|rest| - 1) + 2 * |rest|;
    }
  }

  lemma {:induction false} CountsDisjoint(values: seq<int>, target: int)
    ensures Below(values, target) + EqualTo(values, target) <= |values|
    ensures target in values ==> EqualTo(values, target) >= 1
  {
    if values != [] {
      CountsDisjoint(values[..|values| - 1], target);
      assert target in values ==> target in values[..|values| - 1] || target == values[|values| - 1];
    }
  }

  lemma PercentileInRange(values: seq<int>, target: int)
    requires target in values
    ensures 0 <= Percentile(values, target) <= PERCENTILE_SCALE
  {
    CountsDisjoint(values, target);
    if |values| > 1 {
      var twice, span := AverageRankTwice(values, target), 2 * (|values| - 1);
      assert 0 <= twice <= span;
      DivNat(twice * PERCENTILE_SCALE, span);
      DivMono(twice * PERCENTILE_SCALE, span * PERCENTILE_SCALE, span);
      DivUnique(span * PERCENTILE_SCALE, span, PERCENTILE_SCALE);
    }
  }

  lemma {:induction false} RankMonotone(values: seq<int>, low: int, high: int)
    requires low < high
    ensures Below(values, low) + EqualTo(values, low) <= Below(values, high)
  {
    if values != [] {
      RankMonotone(values[..|values| - 1], low, high);
    }
  }

  lemma PercentileMonotone(values: seq<int>, low: int, high: int)
    requires low <= high
    ensures Percentile(values, low) <= Percentile(values, high)
  {
    if low < high && |values| > 1 {
      RankMonotone(values, low, high);
      MulMono(AverageRankTwice(values, low), AverageRankTwice(values, high), PERCENTILE_SCALE);
      TruncDivMono(AverageRankTwice(values, low) * PERCENTILE_SCALE,
                   AverageRankTwice(values, high) * PERCENTILE_SCALE, 2 * (|values| - 1));
    }
  }

  // ---------------------------------------------------------------- scoring

  predicate Eligible(run: RunScoreInput) {
    run.disqualifiedReason.None?
  }

  function EligibleReturns(runs: seq<RunScoreInput>): seq<int> {
    if runs == [] then []
    else
      var last := runs[|runs| - 1];
      EligibleReturns(runs[..|runs| - 1]) + (if Eligible(last) then [last.netReturn] else [])
  }

  function Clamp(x: int, low: int, high: int): int {
    Max(low, Min(x, high))
  }

  /** A run's score before ranking: a tenth of its net-return percentile. */
  function Score(eligible: seq<int>, run: RunScoreInput): ScoredRun {
    if !Eligible(run) then ScoredRun(run.runId, None, 0, 0, run.disqualifiedReason)
    else
      var net := Percentile(eligible, run.netReturn);
      ScoredRun(run.runId, None, Clamp(TruncDiv(net, 10), 0, MAX_SCORE_MILLIS), net, None)
  }

  function Scores(runs: seq<RunScoreInput>): (scores: seq<ScoredRun>)
    ensures |scores| == |runs|
    ensures forall i :: 0 <= i < |runs| ==> scores[i] == Score(EligibleReturns(runs), runs[i])
  {
    seq(|runs|, i requires 0 <= i < |runs| => Score(EligibleReturns(runs), runs[i]))
  }

  /** Net return looked up by run id; a later run with the same id replaces an earlier one. */
  function ReturnsById(runs: seq<RunScoreInput>): map<nat, int> {
    if runs == [] then map[]
    else
      var last := runs[|runs| - 1];
      ReturnsById(runs[..|runs| - 1])[last.runId := last.netReturn]
  }

  predicate Known(inputs: map<nat, int>, scores: seq<ScoredRun>) {
    forall i :: 0 <= i < |scores| ==> scores[i].runId in inputs
  }

  // ---------------------------------------------------------------- order

  /** Eligible before disqualified, higher net return first, then the smaller id. */
  predicate Precedes(inputs: map<nat, int>, left: ScoredRun, right: ScoredRun)
    requires left.runId in inputs && right.runId in inputs
  {
    match (left.disqualifiedReason, right.disqualifiedReason)
    case (None, Some(_)) => true
    case (Some(_), None) => false
    case (Some(_), Some(_)) => left.runId < right.runId
    case (None, None) =>
      || inputs[left.runId] > inputs[right.runId]
      || (inputs[left.runId] == inputs[right.runId] && left.runId < right.runId)
  }

  ghost predicate InOrder(inputs: map<nat, int>, scores: seq<ScoredRun>)
    requires Known(inputs, scores)
  {
    forall i, j :: 0 <= i < j < |scores| ==> !Precedes(inputs, scores[j], scores[i])
  }

  /** Stable insertion: after every element it does not precede. */
  function Insert(inputs: map<nat, int>, sorted: seq<ScoredRun>, run: ScoredRun): seq<ScoredRun>
    requires Known(inputs, sorted) && run.runId in inputs
  {
    if sorted == [] || Precedes(inputs, run, sorted[0]) then [run] + sorted
    else [sorted[0]] + Insert(inputs, sorted[1..], run)
  }

  lemma {:induction false} InsertKeeps(inputs: map<nat, int>, sorted: seq<ScoredRun>, run: ScoredRun)
    requires Known(inputs, sorted) && run.runId in inputs && InOrder(inputs, sorted)
    ensures var longer := Insert(inputs, sorted, run);
            && multiset(longer) == multiset(sorted) + multiset{run}
            && |longer| == |sorted| + 1
            && Known(inputs, longer) && InOrder(inputs, longer)
  {
    hide Precedes;
    var longer := Insert(inputs, sorted, run);
    if sorted == [] {
    } else if Precedes(inputs, run, sorted[0]) {
      forall j | 0 <= j < |sorted| ensures !Precedes(inputs, sorted[j], run) {
        WeakOrder(inputs, sorted[j], sorted[0], run);
      }
    } else {
      InsertKeeps(inputs, sorted[1..], run);
      HeadStaysFirst(inputs, sorted, run, Insert(inputs, sorted[1..], run));
      assert sorted == [sorted[0]] + sorted[1..];
    }
  }

  lemma HeadStaysFirst(inputs: map<nat, int>, sorted: seq<ScoredRun>, run: ScoredRun, rest: seq<ScoredRun>)
    requires sorted != [] && Known(inputs, sorted) && InOrder(inputs, sorted)
    requires run.runId in inputs && !Precedes(inputs, run, sorted[0])
    requires Known(inputs, rest) && multiset(rest) == multiset(sorted[1..]) + multiset{run}
    ensures forall j :: 0 <= j < |rest| ==> !Precedes(inputs, rest[j], sorted[0])
  {
    hide Precedes;
    forall j | 0 <= j < |rest| ensures !Precedes(inputs, rest[j], sorted[0]) {
      assert rest[j] in multiset(rest);
      if rest[j] != run {
        assert rest[j] in multiset(sorted[1..]);
        var i :| 0 <= i < |sorted| - 1 && sorted[1..][i] == rest[j];
        assert !Precedes(inputs, sorted[i + 1], sorted[0]);
      }
    }
  }

  /** Asymmetry, and transitivity of not preceding. */
  lemma WeakOrder(inputs: map<nat, int>, a: ScoredRun, b: ScoredRun, c: ScoredRun)
    requires a.runId in inputs && b.runId in inputs && c.runId in inputs
    requires a == b || !Precedes(inputs, a, b)
    requires Precedes(inputs, c, b)
    ensures !Precedes(inputs, a, c)
  {
  }

  /** Sorts by insertion, as a stand-in for the library's stable sort. */
  method Sort(inputs: map<nat, int>, scores: seq<ScoredRun>) returns (sorted: seq<ScoredRun>)
    requires Known(inputs, scores)
    ensures multiset(sorted) == multiset(scores) && |sorted| == |scores|
    ensures Known(inputs, sorted) && InOrder(inputs, sorted)
  {
    hide Precedes, Insert;
    sorted := [];
    for i := 0 to |scores|
      invariant multiset(sorted) == multiset(scores[..i]) && |sorted| == i
      invariant Known(inputs, sorted) && InOrder(inputs, sorted)
    {
      InsertKeeps(inputs, sorted, scores[i]);
      sorted := Insert(inputs, sorted, scores[i]);
      assert scores[..i + 1] == scores[..i] + [scores[i]];
    }
    assert scores[..|scores|] == scores;
  }

  // ---------------------------------------------------------------- ranks

  function EligibleCount(scores: seq<ScoredRun>): (n: nat)
    ensures n <= |scores|
  {
    if scores == [] then 0
    else EligibleCount(scores[..|scores| - 1])
         + (if scores[|scores| - 1].disqualifiedReason.None? then 1 else 0)
  }

  function WithoutRanks(scores: seq<ScoredRun>): (bare: seq<ScoredRun>)
    ensures |bare| == |scores|
    ensures forall i :: 0 <= i < |scores| ==> bare[i] == scores[i].(rank := None)
  {
    seq(|scores|, i requires 0 <= i < |scores| => scores[i].(rank := None))
  }

  /** Eligible runs first, ranked one by one from the first; disqualified runs last, unranked. */
  predicate RankedPrefix(scores: seq<ScoredRun>) {
    var n := EligibleCount(scores);
    forall i :: 0 <= i < |scores| ==>
      if i < n then scores[i].disqualifiedReason.None? && scores[i].rank == Some(Min(i + 1, U32_MAX))
      else scores[i].disqualifiedReason.Some? && scores[i].rank == None
  }

  predicate DistinctIds(runs: seq<RunScoreInput>) {
    forall i, j :: 0 <= i < j < |runs| ==> runs[i].runId != runs[j].runId
  }

  lemma {:induction false} AllKnown(runs: seq<RunScoreInput>)
    ensures forall i :: 0 <= i < |runs| ==> runs[i].runId in ReturnsById(runs)
    ensures DistinctIds(runs) ==>
              forall i :: 0 <= i < |runs| ==> ReturnsById(runs)[runs[i].runId] == runs[i].netReturn
  {
    if runs != [] {
      AllKnown(runs[..|runs| - 1]);
    }
  }

  /** In an ordered list the eligible runs are exactly a prefix. */
  lemma {:induction false} EligibleFirst(inputs: map<nat, int>, scores: seq<ScoredRun>)
    requires Known(inputs, scores) && InOrder(inputs, scores)
    ensures forall i :: 0 <= i < |scores| ==>
              (scores[i].disqualifiedReason.None? <==> i < EligibleCount(scores))
  {
    if scores != [] {
      var n := |scores| - 1;
      EligibleFirst(inputs, scores[..n]);
      assert forall i :: 0 <= i < n ==> scores[..n][i] == scores[i];
      if scores[n].disqualifiedReason.None? {
        forall i | 0 <= i < n ensures scores[i].disqualifiedReason.None? {
          assert !Precedes(inputs, scores[n], scores[i]);
        }
        if EligibleCount(scores[..n]) < n {
          assert scores[EligibleCount(scores[..n])].disqualifiedReason.None?;
        }
      }
    }
  }

  /** The ranking of the runs: a permutation of their scores, in order, ranked. */
  ghost predicate IsRanking(runs: seq<RunScoreInput>, scored: seq<ScoredRun>) {
    && |scored| == |runs|
    && multiset(WithoutRanks(scored)) == multiset(Scores(runs))
    && RankedPrefix(scored)
    && Known(ReturnsById(runs), WithoutRanks(scored))
    && InOrder(ReturnsById(runs), WithoutRanks(scored))
  }

  method ScoreRuns(runs: seq<RunScoreInput>) returns (scored: seq<ScoredRun>)
    ensures IsRanking(runs, scored)
  {
    hide Precedes, Score;
    AllKnown(runs);
    assert Known(ReturnsById(runs), Scores(runs)) by { ScoresKeepIds(runs); }
    var sorted := Sort(ReturnsById(runs), Scores(runs));
    EligibleFirst(ReturnsById(runs), sorted);
    Unranked(runs, sorted);
    scored := sorted;
    var rank := 1;
    for i := 0 to |sorted|
      invariant |scored| == |sorted| && WithoutRanks(scored) == sorted
      invariant rank == Min(Min(i, EligibleCount(sorted)) + 1, U32_MAX)
      invariant forall j :: 0 <= j < i ==>
                  scored[j] == sorted[j].(rank := if j < EligibleCount(sorted)
                                                  then Some(Min(j + 1, U32_MAX)) else None)
      invariant forall j :: i <= j < |sorted| ==> scored[j] == sorted[j]
    {
      if scored[i].disqualifiedReason.None? {
        scored := scored[i := scored[i].(rank := Some(rank))];
        rank := Min(rank + 1, U32_MAX);
      }
    }
    SameEligibleCount(scored, sorted);
  }

  lemma ScoresKeepIds(runs: seq<RunScoreInput>)
    ensures forall i :: 0 <= i < |runs| ==>
              && Scores(runs)[i].runId == runs[i].runId && Scores(runs)[i].rank == None
              && Scores(runs)[i].disqualifiedReason == runs[i].disqualifiedReason
  {
  }

  lemma Unranked(runs: seq<RunScoreInput>, sorted: seq<ScoredRun>)
    requires multiset(sorted) == multiset(Scores(runs))
    ensures forall i :: 0 <= i < |sorted| ==> sorted[i].rank == None
    ensures WithoutRanks(sorted) == sorted
  {
    hide Score;
    forall i | 0 <= i < |sorted| ensures sorted[i].rank == None {
      assert sorted[i] in multiset(Scores(runs));
      ScoresKeepIds(runs);
    }
  }

  lemma {:induction false} SameEligibleCount(a: seq<ScoredRun>, b: seq<ScoredRun>)
    requires |a| == |b|
    requires forall i :: 0 <= i < |a| ==> a[i].disqualifiedReason == b[i].disqualifiedReason
    ensures EligibleCount(a) == EligibleCount(b)
  {
    if a != [] {
      SameEligibleCount(a[..|a| - 1], b[..|b| - 1]);
    }
  }

  /** For distinct ids, neither net return nor score rises along the ranks, and equal net returns
      are told apart by id. */
  lemma ScoresFollowRanks(runs: seq<RunScoreInput>, scored: seq<ScoredRun>, i: nat, j: nat)
    requires IsRanking(runs, scored) && DistinctIds(runs)
    requires i < j < EligibleCount(scored)
    ensures exists a, b {:trigger runs[a], runs[b]} :: 0 <= a < |runs| && 0 <= b < |runs|
              && scored[i].runId == runs[a].runId && scored[j].runId == runs[b].runId
              && Eligible(runs[a]) && Eligible(runs[b])
              && (|| runs[a].netReturn > runs[b].netReturn
                  || (runs[a].netReturn == runs[b].netReturn && runs[a].runId <= runs[b].runId))
    ensures scored[i].scoreMillis >= scored[j].scoreMillis
    ensures 0 <= scored[j].scoreMillis <= scored[i].scoreMillis <= MAX_SCORE_MILLIS
  {
    AllKnown(runs);
    var bare := WithoutRanks(scored);
    var a := Origin(runs, bare, i);
    var b := Origin(runs, bare, j);
    assert !Precedes(ReturnsById(runs), bare[j], bare[i]);
    var eligible := EligibleReturns(runs);
    assert runs[a].netReturn >= runs[b].netReturn;
    PercentileMonotone(eligible, runs[b].netReturn, runs[a].netReturn);
    TruncDivMono(Percentile(eligible, runs[b].netReturn), Percentile(eligible, runs[a].netReturn), 10);
  }

  /** The run a sorted score came from. */
  lemma Origin(runs: seq<RunScoreInput>, bare: seq<ScoredRun>, i: nat)
    returns (a: nat)
    requires i < |bare| && multiset(bare) == multiset(Scores(runs))
    ensures a < |runs| && bare[i] == Score(EligibleReturns(runs), runs[a])
  {
    assert bare[i] in multiset(Scores(runs));
    a :| 0 <= a < |runs| && Scores(runs)[a] == bare[i];
  }

  /** Disqualified runs come last, by id. */
  lemma {:induction false} DisqualifiedById(runs: seq<RunScoreInput>, scored: seq<ScoredRun>, i: nat,
                                            j: nat)
    requires IsRanking(runs, scored) && EligibleCount(scored) <= i < j < |scored|
    ensures scored[i].disqualifiedReason.Some? && scored[j].disqualifiedReason.Some?
    ensures scored[i].runId <= scored[j].runId
  {
    var bare := WithoutRanks(scored);
    assert !Precedes(ReturnsById(runs), bare[j], bare[i]);
  }

  // ---------------------------------------------------------------- what a score says

  /** The eligible runs, by their places. */
  function EligibleAt(runs: seq<RunScoreInput>): set<nat> {
    set k: nat | k < |runs| && runs[k].disqualifiedReason.None? :: k
  }

  function LowerAt(runs: seq<RunScoreInput>, netReturn: int): set<nat> {
    set k | k in EligibleAt(runs) && runs[k].netReturn < netReturn :: k
  }

  function SameAt(runs: seq<RunScoreInput>, netReturn: int): set<nat> {
    set k | k in EligibleAt(runs) && runs[k].netReturn == netReturn :: k
  }

  /** The last run is in the sets of places if it belongs there. */
  lemma PlacesGrow(runs: seq<RunScoreInput>, netReturn: int)
    requires runs != []
    ensures var n, rest, last := |runs| - 1, runs[..|runs| - 1], runs[|runs| - 1];
            && EligibleAt(runs) == EligibleAt(rest) + (if Eligible(last) then {n} else {})
            && LowerAt(runs, netReturn)
               == LowerAt(rest, netReturn)
                  + (if Eligible(last) && last.netReturn < netReturn then {n} else {})
            && SameAt(runs, netReturn)
               == SameAt(rest, netReturn)
                  + (if Eligible(last) && last.netReturn == netReturn then {n} else {})
  {
    var n, rest := |runs| - 1, runs[..|runs| - 1];
    assert forall k: nat :: k < n ==> rest[k] == runs[k];
  }

  lemma CountsGrow(runs: seq<RunScoreInput>, netReturn: int)
    requires runs != []
    ensures var rest, last := runs[..|runs| - 1], runs[|runs| - 1];
            var values, before := EligibleReturns(runs), EligibleReturns(rest);
            && |values| == |before| + (if Eligible(last) then 1 else 0)
            && Below(values, netReturn)
               == Below(before, netReturn)
                  + (if Eligible(last) && last.netReturn < netReturn then 1 else 0)
            && EqualTo(values, netReturn)
               == EqualTo(before, netReturn)
                  + (if Eligible(last) && last.netReturn == netReturn then 1 else 0)
  {
    var last, before := runs[|runs| - 1], EligibleReturns(runs[..|runs| - 1]);
    if Eligible(last) {
      assert (before + [last.netReturn])[..|before|] == before;
    } else {
      assert EligibleReturns(runs) == before;
    }
  }

  lemma PlacesCount(runs: seq<RunScoreInput>, netReturn: int)
    requires runs != []
    ensures var rest, last := runs[..|runs| - 1], runs[|runs| - 1];
            && |EligibleAt(runs)| == |EligibleAt(rest)| + (if Eligible(last) then 1 else 0)
            && |LowerAt(runs, netReturn)|
               == |LowerAt(rest, netReturn)|
                  + (if Eligible(last) && last.netReturn < netReturn then 1 else 0)
            && |SameAt(runs, netReturn)|
               == |SameAt(rest, netReturn)|
                  + (if Eligible(last) && last.netReturn == netReturn then 1 else 0)
  {
    var n, rest := |runs| - 1, runs[..|runs| - 1];
    PlacesGrow(runs, netReturn);
    assert n !in EligibleAt(rest) && n !in LowerAt(rest, netReturn) && n !in SameAt(rest, netReturn);
    hide EligibleAt, LowerAt, SameAt;
  }

  lemma {:induction false} CountsArePlaces(runs: seq<RunScoreInput>, netReturn: int)
    ensures |EligibleReturns(runs)| == |EligibleAt(runs)|
    ensures Below(EligibleReturns(runs), netReturn) == |LowerAt(runs, netReturn)|
    ensures EqualTo(EligibleReturns(runs), netReturn) == |SameAt(runs, netReturn)|
  {
    if runs == [] {
      NoPlaces(netReturn);
    } else {
      CountsArePlaces(runs[..|runs| - 1], netReturn);
      CountsGrow(runs, netReturn);
      PlacesCount(runs, netReturn);
      hide EligibleAt, LowerAt, SameAt, EligibleReturns, Below, EqualTo;
    }
  }

  lemma NoPlaces(netReturn: int)
    ensures |EligibleAt([])| == |LowerAt([], netReturn)| == |SameAt([], netReturn)| == 0
    ensures EligibleReturns([]) == []
  {
  }

  /** The percentile is the share of the other eligible runs that are lower, half of it for equal ones,
      in millionths and rounded down; a run without eligible company is at the top. The score is a tenth
      of it, and a disqualified run has neither. */
  ghost predicate Says(runs: seq<RunScoreInput>, run: RunScoreInput, score: ScoredRun) {
    && score.runId == run.runId && score.disqualifiedReason == run.disqualifiedReason
    && var count, share := |EligibleAt(runs)|, score.netReturnPercentile;
       if run.disqualifiedReason.Some? then score.scoreMillis == 0 == share
       else
         && (if count <= 1 then share == 1_000_000
             else
               var lower := |LowerAt(runs, run.netReturn)|;
               var equal := |SameAt(runs, run.netReturn)| - 1;
               && share * 2 * (count - 1) <= (2 * lower + equal) * 1_000_000
               && (2 * lower + equal) * 1_000_000 < (share + 1) * 2 * (count - 1))
         && 10 * score.scoreMillis <= share < 10 * (score.scoreMillis + 1)
  }

  lemma {:induction false} ReturnIsEligible(runs: seq<RunScoreInput>, a: nat)
    requires a < |runs| && Eligible(runs[a])
    ensures runs[a].netReturn in EligibleReturns(runs)
  {
    if a < |runs| - 1 {
      ReturnIsEligible(runs[..|runs| - 1], a);
    }
  }

  lemma ScoreSays(runs: seq<RunScoreInput>, a: nat)
    requires a < |runs|
    ensures Says(runs, runs[a], Score(EligibleReturns(runs), runs[a]))
  {
    hide EligibleAt, LowerAt, SameAt, EligibleReturns, Below, EqualTo;
    var run, values := runs[a], EligibleReturns(runs);
    if Eligible(run) {
      CountsArePlaces(runs, run.netReturn);
      ReturnIsEligible(runs, a);
      PercentileInRange(values, run.netReturn);
      CountsDisjoint(values, run.netReturn);
      var share := Percentile(values, run.netReturn);
      DivBounds(share, 10);
      if |values| > 1 {
        DivBounds(AverageRankTwice(values, run.netReturn) * PERCENTILE_SCALE, 2 * (|values| - 1));
        ByTwo(share, |values| - 1);
        ByTwo(share + 1, |values| - 1);
      }
    }
  }

  lemma ByTwo(a: int, b: int)
    ensures a * (2 * b) == a * 2 * b
  {
  }

  /** Every score of a ranking is the score of one of its runs. */
  lemma RankedScoresSay(runs: seq<RunScoreInput>, scored: seq<ScoredRun>, i: nat)
    requires IsRanking(runs, scored) && i < |scored|
    ensures exists a :: 0 <= a < |runs| && Says(runs, runs[a], scored[i])
  {
    hide Score, RankedPrefix, InOrder, Known;
    var a := Origin(runs, WithoutRanks(scored), i);
    ScoreSays(runs, a);
    hide EligibleAt, LowerAt, SameAt;
    assert Says(runs, runs[a], scored[i]);
  }

  /** And every run has its score in the ranking. */
  lemma EveryRunIsScored(runs: seq<RunScoreInput>, scored: seq<ScoredRun>, a: nat)
    requires IsRanking(runs, scored) && a < |runs|
    ensures exists i :: 0 <= i < |scored| && Says(runs, runs[a], scored[i])
  {
    hide Score, RankedPrefix, InOrder, Known, Says;
    var bare := WithoutRanks(scored);
    assert Scores(runs)[a] in multiset(Scores(runs));
    assert Scores(runs)[a] in multiset(bare);
    var i :| 0 <= i < |bare| && bare[i] == Scores(runs)[a];
    ScoreSays(runs, a);
    SaysWhateverTheRank(runs, runs[a], bare[i], scored[i]);
  }

  lemma SaysWhateverTheRank(runs: seq<RunScoreInput>, run: RunScoreInput, bare: ScoredRun, score: ScoredRun)
    requires Says(runs, run, bare) && bare == score.(rank := bare.rank)
    ensures Says(runs, run, score)
  {
    hide EligibleAt, LowerAt, SameAt;
  }
}
