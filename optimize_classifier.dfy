/**
 * The bookkeeping around the hyperparameter search: the objective-function
 * wrapper `Evaluator` (constraint penalty, score history, best result, cached
 * refit) and the selection rules of `MetaOptimizer` (strategy dispatch, the
 * searched/fixed split for particle-swarm search, the descending score
 * report and the support-weighted evaluation record).
 *
 * Training, cross-validation, sampling and the swarm dynamics are external:
 * the cross-validation scores of a candidate are an abstract function
 * `crossValScores`, and a fitted classifier is identified by the parameters
 * it was built from.
 */
module OptimizeClassifier {
  import opened Results
  import Seqs

  /** A hyperparameter value: a searched coordinate or a fixed grid value. */
  datatype Value = Num(x: real) | Text(s: string)

  /** The keyword arguments handed to the classifier factory. */
  type Candidate = map<string, Value>

  /** Per-fold cross-validation scores; there is at least one fold. */
  type Scores = s: seq<real> | |s| > 0 witness [0.0]

  /** One entry of `grid_scores_`: parameters, mean score, fold scores. */
  datatype ScoreRecord = ScoreRecord(params: Candidate, mean: real, scores: Scores)

  /** A classifier built by the factory from `params` and fitted on the training data. */
  datatype Classifier = Fitted(params: Candidate)

  /** Per-parameter validity predicates; an absent table is the empty map. */
  type Restrictions = map<string, real -> bool>

  function Sum(s: seq<real>): real
    decreases |s|
  {
    if s == [] then 0.0 else Sum(s[..|s| - 1]) + s[|s| - 1]
  }

  /** Fold scores in [0, 1] sum to between zero and the number of folds. */
  lemma {:induction false} SumUnitBounds(s: seq<real>)
    requires InUnitRange(s)
    ensures 0.0 <= Sum(s) <= |s| as real
    decreases |s|
  {
    if s != [] {
      UnitRangePrefix(s, |s| - 1);
      SumUnitBounds(s[..|s| - 1]);
    }
  }

  /** `scores.mean()`: F1 fold scores, all in [0, 1], have a mean in [0, 1]. */
  function Mean(s: Scores): (r: real)
    ensures InUnitRange(s) ==> 0.0 <= r <= 1.0
  {
    var total := Sum(s);
    assert InUnitRange(s) ==> 0.0 <= total / |s| as real <= 1.0 by {
      if InUnitRange(s) {
        SumUnitBounds(s);
        DivisionInUnitRange(total, |s| as real);
      }
    }
    total / |s| as real
  }

  function Abs(x: real): real
  {
    if x < 0.0 then -x else x
  }

  // ---------------------------------------------------------------------
  // Building the candidate
  // ---------------------------------------------------------------------

  /**
   * `p[name] = params[i]` for the first `n` searched names in turn; a
   * repeated name keeps its last value.
   */
  function Assign(names: seq<string>, position: seq<real>, n: nat): Candidate
    requires n <= |names| <= |position|
  {
    if n == 0 then map[]
    else Assign(names, position, n - 1)[names[n - 1] := Num(position[n - 1])]
  }

  /** The zipped names are exactly the keys. */
  lemma {:induction false} AssignKeys(names: seq<string>, position: seq<real>, n: nat)
    requires n <= |names| <= |position|
    ensures forall x :: x in Assign(names, position, n) <==> x in names[..n]
    decreases n
  {
    if n > 0 {
      AssignKeys(names, position, n - 1);
      assert forall x :: x in names[..n] <==> x in names[..n - 1] || x == names[n - 1];
    }
  }

  /** Every entry of `p` is some zipped pair: a searched name with the coordinate at its position. */
  lemma {:induction false} AssignValues(names: seq<string>, position: seq<real>, n: nat, x: string)
    requires n <= |names| <= |position|
    requires x in Assign(names, position, n)
    ensures exists i :: 0 <= i < n && names[i] == x && Assign(names, position, n)[x] == Num(position[i])
    decreases n
  {
    if x != names[n - 1] {
      AssignValues(names, position, n - 1, x);
    }
  }

  /** The searched names zipped with the position, then `p.update(defaults)`. */
  function MakeCandidate(names: seq<string>, position: seq<real>, defaults: Candidate): (p: Candidate)
    requires |names| <= |position|
    ensures forall x :: x in p <==> x in names || x in defaults
  {
    AssignKeys(names, position, |names|);
    assert names[..|names|] == names;
    Assign(names, position, |names|) + defaults
  }

  lemma {:induction false} AssignAt(names: seq<string>, position: seq<real>, n: nat, i: nat)
    requires i < n <= |names| <= |position|
    requires names[i] !in names[i + 1..n]
    ensures names[i] in Assign(names, position, n)
    ensures Assign(names, position, n)[names[i]] == Num(position[i])
    decreases n
  {
    AssignKeys(names, position, n);
    if i < n - 1 {
      assert names[n - 1] in names[i + 1..n];
      assert names[i + 1..n - 1] == names[i + 1..n][..n - 1 - (i + 1)];
      AssignAt(names, position, n - 1, i);
    }
  }

  /**
   * Each searched name carries the coordinate at its position, unless a
   * default of the same name overrides it; defaults always win.
   */
  lemma CandidateValues(names: seq<string>, position: seq<real>, defaults: Candidate, i: nat)
    requires |names| <= |position| && i < |names|
    requires names[i] !in names[i + 1..]
    ensures names[i] in defaults ==> MakeCandidate(names, position, defaults)[names[i]] == defaults[names[i]]
    ensures names[i] !in defaults ==> MakeCandidate(names, position, defaults)[names[i]] == Num(position[i])
  {
    assert names[i + 1..|names|] == names[i + 1..];
    AssignAt(names, position, |names|, i);
  }

  // ---------------------------------------------------------------------
  // Restrictions and the penalty
  // ---------------------------------------------------------------------

  /** The restriction for `name` is consulted and rejects `v`. */
  predicate Fails(restrictions: Restrictions, name: string, v: real)
  {
    name in restrictions && !restrictions[name](v)
  }

  /** Some of the first `n` searched coordinates is rejected by its restriction. */
  predicate AnyFails(names: seq<string>, position: seq<real>, restrictions: Restrictions, n: nat)
    requires n <= |names| <= |position|
  {
    exists i :: 0 <= i < n && Fails(restrictions, names[i], position[i])
  }

  /** `failed_power` after `n` names: 3.0 multiplied by every rejected coordinate, in order. */
  function FailedPower(names: seq<string>, position: seq<real>, restrictions: Restrictions, n: nat): real
    requires n <= |names| <= |position|
  {
    if n == 0 then 3.0
    else
      var prev := FailedPower(names, position, restrictions, n - 1);
      if Fails(restrictions, names[n - 1], position[n - 1]) then prev * position[n - 1] else prev
  }

  /** With no rejected coordinate, `failed_power` keeps its initial value 3.0. */
  lemma {:induction false} FailedPowerWithoutViolation(names: seq<string>, position: seq<real>,
                                                       restrictions: Restrictions, n: nat)
    requires n <= |names| <= |position|
    requires !AnyFails(names, position, restrictions, n)
    ensures FailedPower(names, position, restrictions, n) == 3.0
    decreases n
  {
    if n > 0 {
      assert !Fails(restrictions, names[n - 1], position[n - 1]);
      FailedPowerWithoutViolation(names, position, restrictions, n - 1);
    }
  }

  /** The fitness returned for a rejected candidate: `-abs(failed_power)`. */
  function Penalty(names: seq<string>, position: seq<real>, restrictions: Restrictions): (r: real)
    requires |names| <= |position|
    ensures r <= 0.0
  {
    -Abs(FailedPower(names, position, restrictions, |names|))
  }

  lemma {:induction false} FailedPowerZeroIff(names: seq<string>, position: seq<real>, restrictions: Restrictions, n: nat)
    requires n <= |names| <= |position|
    ensures FailedPower(names, position, restrictions, n) == 0.0 <==>
      exists i :: 0 <= i < n && Fails(restrictions, names[i], position[i]) && position[i] == 0.0
    decreases n
  {
    if n > 0 {
      FailedPowerZeroIff(names, position, restrictions, n - 1);
      var prev := FailedPower(names, position, restrictions, n - 1);
      if Fails(restrictions, names[n - 1], position[n - 1]) {
        assert prev * position[n - 1] == 0.0 <==> prev == 0.0 || position[n - 1] == 0.0;
      }
    }
  }

  /**
   * The penalty is zero exactly when some rejected coordinate is zero, and
   * strictly negative otherwise.
   */
  lemma PenaltyZeroIff(names: seq<string>, position: seq<real>, restrictions: Restrictions)
    requires |names| <= |position|
    ensures Penalty(names, position, restrictions) == 0.0 <==>
      exists i :: 0 <= i < |names| && Fails(restrictions, names[i], position[i]) && position[i] == 0.0
  {
    FailedPowerZeroIff(names, position, restrictions, |names|);
  }

  /** A single rejected coordinate `v` gives the penalty `-|3.0 * v|`. */
  lemma SingleViolationPenalty(name: string, v: real, restrictions: Restrictions)
    requires Fails(restrictions, name, v)
    ensures Penalty([name], [v], restrictions) == -Abs(3.0 * v)
  {
    assert FailedPower([name], [v], restrictions, 1) == FailedPower([name], [v], restrictions, 0) * v;
  }

  /** `failed_power` after `n` names depends only on the first `n` names and coordinates. */
  lemma {:induction false} FailedPowerPrefix(names: seq<string>, position: seq<real>,
                                             names': seq<string>, position': seq<real>,
                                             restrictions: Restrictions, n: nat)
    requires n <= |names| <= |position| && n <= |names'| <= |position'|
    requires names[..n] == names'[..n] && position[..n] == position'[..n]
    ensures FailedPower(names, position, restrictions, n) == FailedPower(names', position', restrictions, n)
    decreases n
  {
    if n > 0 {
      assert names[n - 1] == names[..n][n - 1] && names'[n - 1] == names'[..n][n - 1];
      assert position[n - 1] == position[..n][n - 1] && position'[n - 1] == position'[..n][n - 1];
      assert names[..n - 1] == names[..n][..n - 1] && names'[..n - 1] == names'[..n][..n - 1];
      assert position[..n - 1] == position[..n][..n - 1] && position'[..n - 1] == position'[..n][..n - 1];
      FailedPowerPrefix(names, position, names', position', restrictions, n - 1);
    }
  }

  lemma AbsMul(a: real, b: real)
    ensures Abs(a * b) == Abs(a) * Abs(b)
  {
    if a < 0.0 && b >= 0.0 {
      assert a * b == -((-a) * b);
    } else if a >= 0.0 && b < 0.0 {
      assert a * b == -(a * (-b));
    } else if a < 0.0 && b < 0.0 {
      assert a * b == (-a) * (-b);
    }
  }

  /**
   * One more rejected coordinate `v` scales the penalty by `|v|`: it grows
   * in magnitude only when `|v| > 1`, and shrinks for `|v| < 1`.
   */
  lemma ExtraViolationPenalty(names: seq<string>, position: seq<real>, restrictions: Restrictions,
                              name: string, v: real)
    requires |names| == |position| && Fails(restrictions, name, v)
    ensures Penalty(names + [name], position + [v], restrictions) == Penalty(names, position, restrictions) * Abs(v)
  {
    var n := |names|;
    var names', position' := names + [name], position + [v];
    assert names'[..n] == names[..n] && position'[..n] == position[..n];
    FailedPowerPrefix(names, position, names', position', restrictions, n);
    var prev := FailedPower(names, position, restrictions, n);
    assert FailedPower(names', position', restrictions, n + 1) == prev * v;
    AbsMul(prev, v);
  }

  /** One more searched name: how the accumulated values extend. */
  lemma ScanStep(names: seq<string>, position: seq<real>, restrictions: Restrictions, i: nat)
    requires i < |names| <= |position|
    ensures Assign(names, position, i + 1) == Assign(names, position, i)[names[i] := Num(position[i])]
    ensures AnyFails(names, position, restrictions, i + 1) <==>
      AnyFails(names, position, restrictions, i) || Fails(restrictions, names[i], position[i])
    ensures FailedPower(names, position, restrictions, i + 1) ==
      if Fails(restrictions, names[i], position[i])
      then FailedPower(names, position, restrictions, i) * position[i]
      else FailedPower(names, position, restrictions, i)
  {
  }

  /**
   * The loop at the head of `__call__`: zips the position with the searched
   * names and accumulates the rejection flag and `failed_power`.
   */
  method ScanPosition(names: seq<string>, position: seq<real>, restrictions: Restrictions)
    returns (p: Candidate, invalid: bool, failedPower: real)
    requires |names| <= |position|
    ensures p == Assign(names, position, |names|)
    ensures invalid == AnyFails(names, position, restrictions, |names|)
    ensures failedPower == FailedPower(names, position, restrictions, |names|)
    ensures -Abs(failedPower) == Penalty(names, position, restrictions)
  {
    p, invalid, failedPower := map[], false, 3.0;
    var i := 0;
    while i < |names|
      invariant 0 <= i <= |names|
      invariant p == Assign(names, position, i)
      invariant invalid == AnyFails(names, position, restrictions, i)
      invariant failedPower == FailedPower(names, position, restrictions, i)
    {
      var name := names[i];
      var v := position[i];
      p := p[name := Num(v)];
      if name in restrictions && !restrictions[name](v) {
        invalid := true;
        failedPower := failedPower * v;
      }
      assert failedPower == FailedPower(names, position, restrictions, i + 1) by {
        ScanStep(names, position, restrictions, i);
      }
      assert p == Assign(names, position, i + 1) by {
        ScanStep(names, position, restrictions, i);
      }
      assert invalid == AnyFails(names, position, restrictions, i + 1) by {
        ScanStep(names, position, restrictions, i);
      }
      i := i + 1;
    }
  }

  // ---------------------------------------------------------------------
  // The best result
  // ---------------------------------------------------------------------

  /** The index `best_score_` tracks: replaced only by a strictly greater mean. */
  function BestIndex(h: seq<ScoreRecord>): (b: nat)
    requires |h| > 0
    ensures b < |h|
    decreases |h|
  {
    if |h| == 1 then 0
    else
      var j := BestIndex(h[..|h| - 1]);
      if h[j].mean < h[|h| - 1].mean then |h| - 1 else j
  }

  /** `b` holds the largest mean, and every earlier record has a strictly smaller one. */
  ghost predicate IsFirstMaximum(h: seq<ScoreRecord>, b: int)
  {
    0 <= b < |h| &&
    (forall k :: 0 <= k < |h| ==> h[k].mean <= h[b].mean) &&
    (forall k :: 0 <= k < b ==> h[k].mean < h[b].mean)
  }

  /** The incrementally tracked best is the first maximum of the history. */
  lemma {:induction false} BestIndexIsFirstMaximum(h: seq<ScoreRecord>)
    requires |h| > 0
    ensures IsFirstMaximum(h, BestIndex(h))
    decreases |h|
  {
    if |h| > 1 {
      var init := h[..|h| - 1];
      BestIndexIsFirstMaximum(init);
      assert forall k :: 0 <= k < |init| ==> init[k] == h[k];
    }
  }

  /** Re-deriving the best from the full history gives the tracked index and no other. */
  lemma FirstMaximumIsUnique(h: seq<ScoreRecord>, b: int)
    requires IsFirstMaximum(h, b)
    ensures b == BestIndex(h)
  {
    BestIndexIsFirstMaximum(h);
  }

  /** Appending a record moves the best to it exactly when its mean is strictly greater. */
  lemma BestIndexAppend(h: seq<ScoreRecord>, r: ScoreRecord)
    ensures BestIndex(h + [r]) ==
      if h == [] || h[BestIndex(h)].mean < r.mean then |h| else BestIndex(h)
  {
    assert (h + [r])[..|h|] == h;
  }

  /** `best_score_` and `best_params_` hold the first maximum of the history, or None for an empty one. */
  ghost predicate TracksBest(h: seq<ScoreRecord>, score: Option<real>, params: Option<Candidate>)
  {
    (h == [] <==> score.None?) &&
    (score.None? <==> params.None?) &&
    (h != [] ==> score == Some(h[BestIndex(h)].mean) && params == Some(h[BestIndex(h)].params))
  }

  /** Recording a result and replacing the best only on a strictly greater mean keeps the tracking exact. */
  lemma TracksBestAppend(h: seq<ScoreRecord>, score: Option<real>, params: Option<Candidate>, r: ScoreRecord)
    requires TracksBest(h, score, params)
    ensures var improved := score.None? || score.value < r.mean;
      TracksBest(h + [r], if improved then Some(r.mean) else score, if improved then Some(r.params) else params)
  {
    BestIndexAppend(h, r);
    assert (h + [r])[|h|] == r;
    if h != [] {
      assert (h + [r])[BestIndex(h)] == h[BestIndex(h)];
    }
  }

  /** A tracked best score bounds every recorded mean. */
  lemma TracksBestIsMaximum(h: seq<ScoreRecord>, score: Option<real>, params: Option<Candidate>)
    requires TracksBest(h, score, params)
    ensures score.Some? ==> forall k :: 0 <= k < |h| ==> h[k].mean <= score.value
  {
    if h != [] {
      BestIndexIsFirstMaximum(h);
    }
  }

  // ---------------------------------------------------------------------
  // Evaluator
  // ---------------------------------------------------------------------

  /** The stateful objective function handed to the search strategies. */
  class Evaluator {
    const parameterNames: seq<string>
    const defaultParameters: Candidate
    const restrictions: Restrictions
    /** The factory, the training data and `cross_val_score` with two folds, as one function. */
    const crossValScores: Candidate -> Scores

    /** `grid_scores_`, append-only. */
    var history: seq<ScoreRecord>
    var bestScore: Option<real>
    var bestParams: Option<Candidate>
    var bestClassifier: Option<Classifier>

    /** Calls of the classifier factory, and of `fit`, so far. */
    ghost var factoryCalls: nat
    ghost var fits: nat

    ghost predicate Valid()
      reads this
    {
      TracksBest(history, bestScore, bestParams) &&
      (bestClassifier.Some? ==> bestParams.Some?) &&
      fits == (if bestClassifier.Some? then 1 else 0) &&
      factoryCalls == |history| + fits
    }

    constructor (parameterNames: seq<string>, defaultParameters: Candidate,
                 restrictions: Restrictions, crossValScores: Candidate -> Scores)
      ensures Valid()
      ensures this.parameterNames == parameterNames && this.defaultParameters == defaultParameters
      ensures this.restrictions == restrictions && this.crossValScores == crossValScores
      ensures history == [] && bestScore == None && bestParams == None && bestClassifier == None
      ensures factoryCalls == 0
    {
      this.parameterNames := parameterNames;
      this.defaultParameters := defaultParameters;
      this.restrictions := restrictions;
      this.crossValScores := crossValScores;
      history := [];
      bestScore := None;
      bestParams := None;
      bestClassifier := None;
      factoryCalls := 0;
      fits := 0;
    }

    /**
     * `__call__`: a rejected position returns the penalty and changes
     * nothing; an accepted one is scored and recorded.
     */
    method Evaluate(position: seq<real>) returns (fitness: real)
      requires Valid()
      requires |parameterNames| <= |position|
      modifies this
      ensures Valid()
      ensures AnyFails(parameterNames, position, restrictions, |parameterNames|) ==>
        fitness == Penalty(parameterNames, position, restrictions) && unchanged(this)
      ensures !AnyFails(parameterNames, position, restrictions, |parameterNames|) ==>
        var p := MakeCandidate(parameterNames, position, defaultParameters);
        fitness == Mean(crossValScores(p)) &&
        history == old(history) + [ScoreRecord(p, fitness, crossValScores(p))] &&
        factoryCalls == old(factoryCalls) + 1
      ensures bestClassifier == old(bestClassifier) && fits == old(fits)
    {
      var zipped, invalid, failedPower := ScanPosition(parameterNames, position, restrictions);
      var p := zipped + defaultParameters;
      assert p == MakeCandidate(parameterNames, position, defaultParameters);
      if invalid {
        return -Abs(failedPower);
      }
      fitness := RecordScore(p);
    }

    /**
     * The accepted path of `__call__`: build and score the candidate,
     * append the record, and take it as the best only on a strictly
     * greater mean.
     */
    method RecordScore(p: Candidate) returns (mean: real)
      requires Valid()
      modifies this
      ensures Valid()
      ensures mean == Mean(crossValScores(p))
      ensures history == old(history) + [ScoreRecord(p, mean, crossValScores(p))]
      ensures var improved := old(bestScore).None? || old(bestScore).value < mean;
        bestScore == (if improved then Some(mean) else old(bestScore)) &&
        bestParams == (if improved then Some(p) else old(bestParams))
      ensures factoryCalls == old(factoryCalls) + 1
      ensures bestClassifier == old(bestClassifier) && fits == old(fits)
    {
      var scores := crossValScores(p);
      factoryCalls := factoryCalls + 1;
      mean := Mean(scores);
      var record := ScoreRecord(p, mean, scores);
      TracksBestAppend(history, bestScore, bestParams, record);
      history := history + [record];
      if bestScore.None? || bestScore.value < mean {
        bestScore := Some(mean);
        bestParams := Some(p);
      }
    }

    /**
     * `getBestClassifier`: None before any accepted evaluation; otherwise
     * builds and fits once and returns the cached classifier afterwards.
     */
    method GetBestClassifier() returns (clf: Option<Classifier>)
      requires Valid()
      modifies this
      ensures Valid()
      ensures history == old(history) && bestScore == old(bestScore) && bestParams == old(bestParams)
      ensures old(bestClassifier).Some? ==> clf == old(bestClassifier) && unchanged(this)
      ensures old(bestClassifier).None? && bestParams.None? ==> clf == None && unchanged(this)
      ensures old(bestClassifier).None? && bestParams.Some? ==>
        clf == Some(Fitted(bestParams.value)) && bestClassifier == clf &&
        factoryCalls == old(factoryCalls) + 1 && fits == 1
    {
      if bestClassifier.Some? {
        return bestClassifier;
      }
      if bestParams.None? {
        return None;
      }
      var classifier := Fitted(bestParams.value);
      factoryCalls := factoryCalls + 1;
      fits := fits + 1;
      bestClassifier := Some(classifier);
      clf := bestClassifier;
    }
  }

  // ---------------------------------------------------------------------
  // MetaOptimizer: strategy dispatch
  // ---------------------------------------------------------------------

  /** The three search strategies, `grid_search`, `randomized_search` and `pso_search`. */
  datatype Strategy = Grid | Random | Pso

  function StrategyName(s: Strategy): string
  {
    match s
    case Grid => "grid"
    case Random => "random"
    case Pso => "pso"
  }

  /** The lookup in `optimizationAlgorithms`: a known name selects its one strategy. */
  function StrategyByName(name: string): (r: Option<Strategy>)
    ensures r.Some? ==> StrategyName(r.value) == name
    ensures r.None? <==> forall s: Strategy :: StrategyName(s) != name
  {
    if name == "grid" then Some(Grid)
    else if name == "random" then Some(Random)
    else if name == "pso" then Some(Pso)
    else
      assert forall s: Strategy :: StrategyName(s) in {"grid", "random", "pso"};
      None
  }

  // ---------------------------------------------------------------------
  // MetaOptimizer: the particle-swarm setup
  // ---------------------------------------------------------------------

  /** One item of `grid_parameters`: a name and its list of variants. */
  datatype GridEntry = GridEntry(name: string, variants: seq<Value>)

  /** Dictionary keys are distinct. */
  predicate DistinctNames(grid: seq<GridEntry>)
  {
    forall i, j :: 0 <= i < j < |grid| ==> grid[i].name != grid[j].name
  }

  function GridNames(grid: seq<GridEntry>): (names: seq<string>)
    ensures |names| == |grid| && forall i :: 0 <= i < |grid| ==> names[i] == grid[i].name
  {
    seq(|grid|, i requires 0 <= i < |grid| => grid[i].name)
  }

  /**
   * `searched` holds, in grid order, the names with more than one variant;
   * `fixed` maps each single-variant name to that variant; names with no
   * variant are in neither.
   */
  ghost predicate IsGridSplit(grid: seq<GridEntry>, searched: seq<string>, fixed: Candidate)
  {
    (forall n :: n in searched <==> exists i :: 0 <= i < |grid| && grid[i].name == n && |grid[i].variants| > 1) &&
    (forall n :: n in fixed <==> exists i :: 0 <= i < |grid| && grid[i].name == n && |grid[i].variants| == 1) &&
    (forall i :: 0 <= i < |grid| && |grid[i].variants| == 1 ==>
      grid[i].name in fixed && fixed[grid[i].name] == grid[i].variants[0]) &&
    Seqs.IsSubsequence(searched, GridNames(grid))
  }

  /** `immutable_parameters` after the first `n` grid items. */
  function FixedUpTo(grid: seq<GridEntry>, n: nat): Candidate
    requires n <= |grid|
  {
    if n == 0 then map[]
    else if |grid[n - 1].variants| == 1 then FixedUpTo(grid, n - 1)[grid[n - 1].name := grid[n - 1].variants[0]]
    else FixedUpTo(grid, n - 1)
  }

  lemma {:induction false} FixedUpToKeys(grid: seq<GridEntry>, n: nat)
    requires n <= |grid|
    ensures forall x :: x in FixedUpTo(grid, n) <==>
      exists i :: 0 <= i < n && grid[i].name == x && |grid[i].variants| == 1
    decreases n
  {
    if n > 0 {
      FixedUpToKeys(grid, n - 1);
    }
  }

  lemma {:induction false} FixedUpToValues(grid: seq<GridEntry>, n: nat)
    requires n <= |grid| && DistinctNames(grid)
    ensures forall i :: 0 <= i < n && |grid[i].variants| == 1 ==>
      grid[i].name in FixedUpTo(grid, n) && FixedUpTo(grid, n)[grid[i].name] == grid[i].variants[0]
    decreases n
  {
    if n > 0 {
      FixedUpToValues(grid, n - 1);
      forall i | 0 <= i < n - 1 && |grid[i].variants| == 1
        ensures grid[i].name in FixedUpTo(grid, n) && FixedUpTo(grid, n)[grid[i].name] == grid[i].variants[0]
      {
        assert grid[i].name != grid[n - 1].name;
      }
    }
  }

  /** `optimized_parameters_names` after the first `n` grid items. */
  function SearchedUpTo(grid: seq<GridEntry>, n: nat): seq<string>
    requires n <= |grid|
  {
    if n == 0 then []
    else if |grid[n - 1].variants| > 1 then SearchedUpTo(grid, n - 1) + [grid[n - 1].name]
    else SearchedUpTo(grid, n - 1)
  }

  /** The positions in `grid` the searched names come from: a witness that they keep the grid's order. */
  lemma {:induction false} SearchedUpToOrder(grid: seq<GridEntry>, n: nat) returns (idx: seq<nat>)
    requires n <= |grid|
    ensures |idx| == |SearchedUpTo(grid, n)|
    ensures forall k :: 0 <= k < |idx| ==> idx[k] < n && grid[idx[k]].name == SearchedUpTo(grid, n)[k]
    ensures forall k, l :: 0 <= k < l < |idx| ==> idx[k] < idx[l]
    decreases n
  {
    if n == 0 {
      idx := [];
    } else {
      var prev := SearchedUpToOrder(grid, n - 1);
      var before := SearchedUpTo(grid, n - 1);
      if |grid[n - 1].variants| > 1 {
        idx := prev + [n - 1];
        var after := before + [grid[n - 1].name];
        assert SearchedUpTo(grid, n) == after;
        forall k | 0 <= k < |idx|
          ensures idx[k] < n && grid[idx[k]].name == after[k]
        {
          if k < |prev| {
            assert idx[k] == prev[k] && after[k] == before[k];
          }
        }
      } else {
        idx := prev;
      }
    }
  }

  lemma {:induction false} SearchedUpToMembers(grid: seq<GridEntry>, n: nat)
    requires n <= |grid|
    ensures forall x :: x in SearchedUpTo(grid, n) <==>
      exists i :: 0 <= i < n && grid[i].name == x && |grid[i].variants| > 1
    decreases n
  {
    if n > 0 {
      SearchedUpToMembers(grid, n - 1);
    }
  }

  /** The two prefix functions, run over the whole grid, split it as `IsGridSplit` says. */
  lemma GridSplitHolds(grid: seq<GridEntry>)
    requires DistinctNames(grid)
    ensures IsGridSplit(grid, SearchedUpTo(grid, |grid|), FixedUpTo(grid, |grid|))
  {
    var searched := SearchedUpTo(grid, |grid|);
    var idx := SearchedUpToOrder(grid, |grid|);
    SearchedUpToMembers(grid, |grid|);
    FixedUpToKeys(grid, |grid|);
    FixedUpToValues(grid, |grid|);
    assert Seqs.IsSubsequence(searched, GridNames(grid)) by {
      assert |idx| == |searched| &&
        (forall k :: 0 <= k < |idx| ==> idx[k] < |GridNames(grid)| && GridNames(grid)[idx[k]] == searched[k]);
    }
  }

  /** The loop over `grid_parameters.items()` at the start of `pso_search`. */
  method SplitGridParameters(grid: seq<GridEntry>) returns (searched: seq<string>, fixed: Candidate)
    requires DistinctNames(grid)
    ensures IsGridSplit(grid, searched, fixed)
  {
    searched, fixed := [], map[];
    for i := 0 to |grid|
      invariant searched == SearchedUpTo(grid, i)
      invariant fixed == FixedUpTo(grid, i)
    {
      var entry := grid[i];
      if |entry.variants| > 1 {
        searched := searched + [entry.name];
      } else if |entry.variants| == 1 {
        fixed := fixed[entry.name := entry.variants[0]];
      }
    }
    GridSplitHolds(grid);
  }

  /** The swarm's configuration: start vector, boundaries, population size, evaluation budget. */
  datatype SwarmSetup = SwarmSetup(start: seq<real>, boundaries: seq<(real, real)>, size: nat, maxEvaluations: int)

  const SwarmSize: nat := 5

  /** `x0`, `boundaries=[(0, 1)] * n`, `size=5` and `maxEvaluations = iterations`. */
  function MakeSwarmSetup(dimensions: nat, iterations: int): (setup: SwarmSetup)
    ensures |setup.start| == dimensions && |setup.boundaries| == dimensions
    ensures forall k :: 0 <= k < dimensions ==> setup.start[k] == 0.0 && setup.boundaries[k] == (0.0, 1.0)
    ensures setup.size == SwarmSize && setup.maxEvaluations == iterations
  {
    SwarmSetup(seq(dimensions, _ => 0.0), seq(dimensions, _ => (0.0, 1.0)), SwarmSize, iterations)
  }

  // ---------------------------------------------------------------------
  // MetaOptimizer: the score report
  // ---------------------------------------------------------------------

  predicate SortedByMeanDesc(rs: seq<ScoreRecord>)
  {
    forall i, j :: 0 <= i < j < |rs| ==> rs[i].mean >= rs[j].mean
  }

  /** Putting a record with a mean at least the head's in front keeps the order. */
  lemma SortedCons(x: ScoreRecord, s: seq<ScoreRecord>)
    requires SortedByMeanDesc(s)
    requires s == [] || x.mean >= s[0].mean
    ensures SortedByMeanDesc([x] + s)
  {
    var t := [x] + s;
    forall i, j | 0 <= i < j < |t| ensures t[i].mean >= t[j].mean {
      if i == 0 && j > 1 {
        assert t[1] == s[0] && t[j] == s[j - 1];
      }
    }
  }

  function InsertByMean(r: ScoreRecord, sorted: seq<ScoreRecord>): (out: seq<ScoreRecord>)
    requires SortedByMeanDesc(sorted)
    ensures SortedByMeanDesc(out)
    ensures multiset(out) == multiset(sorted) + multiset{r}
    ensures |out| > 0 && (out[0] == r || (sorted != [] && out[0] == sorted[0]))
    decreases |sorted|
  {
    if sorted == [] || sorted[0].mean <= r.mean then
      SortedCons(r, sorted);
      [r] + sorted
    else
      var rest := InsertByMean(r, sorted[1..]);
      assert sorted == [sorted[0]] + sorted[1..];
      SortedCons(sorted[0], rest);
      [sorted[0]] + rest
  }

  /** The rows of `log_optimized_info`: the history ordered by mean score, best first. */
  function ScoreReport(history: seq<ScoreRecord>): (report: seq<ScoreRecord>)
    ensures SortedByMeanDesc(report)
    ensures multiset(report) == multiset(history)
    decreases |history|
  {
    if history == [] then []
    else
      assert history == [history[0]] + history[1..];
      InsertByMean(history[0], ScoreReport(history[1..]))
  }

  // ---------------------------------------------------------------------
  // MetaOptimizer: the evaluation record
  // ---------------------------------------------------------------------

  /** `np.average` with zero total weight, or the `IndexError` of `p[1]` when fewer than two labels occur. */
  datatype MetricsError = ZeroSupport | MissingClass

  /**
   * `precision_recall_fscore_support(..., average=None)`: one entry per label
   * occurring in the truth or the predictions, in sorted label order. The
   * arrays are positional: with 0/1 labels and both present, position 0 is
   * class 0 and position 1 is class 1; with one label present they have a
   * single entry.
   */
  datatype ClassMetrics = ClassMetrics(precision: seq<real>, recall: seq<real>, f1: seq<real>, support: seq<nat>)

  predicate WellShaped(m: ClassMetrics)
  {
    |m.precision| == |m.support| && |m.recall| == |m.support| && |m.f1| == |m.support|
  }

  /** The final report record of one optimizer run. */
  datatype ClassifierEvaluation = ClassifierEvaluation(
    name: string, searchMethod: string, bestParams: Option<Candidate>, accuracy: real,
    f1Weighted: real, precisionWeighted: real, recallWeighted: real,
    precisionPositive: real, precisionNegative: real,
    recallPositive: real, recallNegative: real,
    f1Positive: real, f1Negative: real,
    supportPositive: nat, supportNegative: nat)

  function SupportTotal(w: seq<nat>): nat
    decreases |w|
  {
    if w == [] then 0 else SupportTotal(w[..|w| - 1]) + w[|w| - 1]
  }

  function WeightedSum(v: seq<real>, w: seq<nat>): real
    requires |v| == |w|
    decreases |w|
  {
    if w == [] then 0.0
    else WeightedSum(v[..|v| - 1], w[..|w| - 1]) + v[|v| - 1] * w[|w| - 1] as real
  }

  /** `np.average(v, weights=w)`: fails when the weights sum to zero. */
  function WeightedAverage(v: seq<real>, w: seq<nat>): (r: Result<real, MetricsError>)
    requires |v| == |w|
    ensures r.Failure? <==> SupportTotal(w) == 0
    ensures r.Failure? ==> r.error == ZeroSupport
  {
    if SupportTotal(w) == 0 then Failure(ZeroSupport)
    else Success(WeightedSum(v, w) / SupportTotal(w) as real)
  }

  /** Values in [0, 1] give a weighted sum between zero and the total support. */
  lemma {:induction false} WeightedSumUnitBounds(v: seq<real>, w: seq<nat>)
    requires |v| == |w| && InUnitRange(v)
    ensures 0.0 <= WeightedSum(v, w) <= SupportTotal(w) as real
    decreases |w|
  {
    if w != [] {
      var n := |w| - 1;
      UnitRangePrefix(v, n);
      WeightedSumUnitBounds(v[..n], w[..n]);
      UnitStep(WeightedSum(v[..n], w[..n]), SupportTotal(w[..n]) as real, v[n], w[n] as real,
               WeightedSum(v, w), SupportTotal(w) as real);
    }
  }

  lemma UnitRangePrefix(v: seq<real>, n: nat)
    requires n <= |v| && InUnitRange(v)
    ensures InUnitRange(v[..n])
  {
    assert forall k :: 0 <= k < n ==> v[..n][k] == v[k];
  }

  /** One step of the weighted sum keeps it between zero and the support so far. */
  lemma UnitStep(s1: real, t1: real, x: real, c: real, s: real, t: real)
    requires 0.0 <= s1 <= t1 && 0.0 <= c && 0.0 <= x <= 1.0
    requires s == s1 + x * c && t == t1 + c
    ensures 0.0 <= s <= t
  {
    UnitScale(x, c);
  }

  lemma UnitScale(x: real, c: real)
    requires 0.0 <= c && 0.0 <= x <= 1.0
    ensures 0.0 <= x * c <= c
  {
    assert (1.0 - x) * c >= 0.0;
  }

  /** Values all 1.0 give a weighted sum equal to the total support. */
  lemma {:induction false} WeightedSumOfOnes(v: seq<real>, w: seq<nat>)
    requires |v| == |w| && forall k :: 0 <= k < |v| ==> v[k] == 1.0
    ensures WeightedSum(v, w) == SupportTotal(w) as real
    decreases |w|
  {
    if w != [] {
      var n := |w| - 1;
      WeightedSumOfOnes(v[..n], w[..n]);
    }
  }

  /** Dividing a sum between zero and a positive total by that total gives a value in [0, 1]. */
  lemma DivisionInUnitRange(s: real, total: real)
    requires 0.0 < total && 0.0 <= s <= total
    ensures 0.0 <= s / total <= 1.0
  {
    var q := s / total;
    assert q * total == s;
    assert (1.0 - q) * total >= 0.0;
  }

  /** A support-weighted average of values in [0, 1] lies in [0, 1]. */
  lemma WeightedAverageInUnitRange(v: seq<real>, w: seq<nat>)
    requires |v| == |w| && SupportTotal(w) > 0 && InUnitRange(v)
    ensures WeightedAverage(v, w).Success?
    ensures 0.0 <= WeightedAverage(v, w).value <= 1.0
  {
    WeightedSumUnitBounds(v, w);
    DivisionInUnitRange(WeightedSum(v, w), SupportTotal(w) as real);
  }

  /** A support-weighted average of values all 1.0 is 1.0. */
  lemma WeightedAverageOfOnes(v: seq<real>, w: seq<nat>)
    requires |v| == |w| && SupportTotal(w) > 0 && forall k :: 0 <= k < |v| ==> v[k] == 1.0
    ensures WeightedAverage(v, w) == Success(1.0)
  {
    WeightedSumOfOnes(v, w);
    var t := SupportTotal(w) as real;
    assert t / t == 1.0;
  }

  /**
   * The record built in `test_classifier`: weighted averages over all
   * labels, and the entries at positions 1 and 0 of the per-label arrays as
   * the positive and the negative class; fewer than two labels is the
   * `IndexError` of `p[1]`.
   */
  function BuildEvaluation(name: string, searchMethod: string, bestParams: Option<Candidate>,
                           accuracy: real, m: ClassMetrics): (r: Result<ClassifierEvaluation, MetricsError>)
    requires WellShaped(m)
    ensures r.Failure? <==> SupportTotal(m.support) == 0 || |m.support| < 2
    ensures SupportTotal(m.support) == 0 ==> r == Failure(ZeroSupport)
    ensures r.Success? ==>
      r.value.name == name && r.value.searchMethod == searchMethod && r.value.bestParams == bestParams &&
      r.value.accuracy == accuracy &&
      r.value.precisionPositive == m.precision[1] && r.value.precisionNegative == m.precision[0] &&
      r.value.recallPositive == m.recall[1] && r.value.recallNegative == m.recall[0] &&
      r.value.f1Positive == m.f1[1] && r.value.f1Negative == m.f1[0] &&
      r.value.supportPositive == m.support[1] && r.value.supportNegative == m.support[0]
    ensures r.Success? ==>
      r.value.f1Weighted == WeightedAverage(m.f1, m.support).value &&
      r.value.precisionWeighted == WeightedAverage(m.precision, m.support).value &&
      r.value.recallWeighted == WeightedAverage(m.recall, m.support).value
  {
    var pw := WeightedAverage(m.precision, m.support);
    var rw := WeightedAverage(m.recall, m.support);
    var fw := WeightedAverage(m.f1, m.support);
    if pw.Failure? || rw.Failure? || fw.Failure? then Failure(ZeroSupport)
    else if |m.support| < 2 then Failure(MissingClass)
    else Success(ClassifierEvaluation(
      name, searchMethod, bestParams, accuracy,
      fw.value, pw.value, rw.value,
      m.precision[1], m.precision[0],
      m.recall[1], m.recall[0],
      m.f1[1], m.f1[0],
      m.support[1], m.support[0]))
  }

  predicate InUnitRange(v: seq<real>)
  {
    forall k :: 0 <= k < |v| ==> 0.0 <= v[k] <= 1.0
  }

  /** Per-class metrics in [0, 1] give weighted metrics in [0, 1]. */
  lemma EvaluationWeightedInUnitRange(name: string, searchMethod: string, bestParams: Option<Candidate>,
                                      accuracy: real, m: ClassMetrics)
    requires WellShaped(m)
    requires InUnitRange(m.precision) && InUnitRange(m.recall) && InUnitRange(m.f1)
    ensures var r := BuildEvaluation(name, searchMethod, bestParams, accuracy, m);
      r.Success? ==>
        0.0 <= r.value.precisionWeighted <= 1.0 &&
        0.0 <= r.value.recallWeighted <= 1.0 &&
        0.0 <= r.value.f1Weighted <= 1.0
  {
    if SupportTotal(m.support) > 0 {
      WeightedAverageInUnitRange(m.precision, m.support);
      WeightedAverageInUnitRange(m.recall, m.support);
      WeightedAverageInUnitRange(m.f1, m.support);
    }
  }

  /**
   * A classifier that is right on every test row (all per-class metrics 1.0)
   * scores 1.0 weighted. sklearn reports a label only when it occurs, so both
   * supports are then positive; the lemma holds whenever their sum is.
   */
  lemma PerfectPredictionEvaluation(name: string, searchMethod: string, bestParams: Option<Candidate>,
                                    accuracy: real, supportNegative: nat, supportPositive: nat)
    requires supportNegative + supportPositive > 0
    ensures var m := ClassMetrics([1.0, 1.0], [1.0, 1.0], [1.0, 1.0], [supportNegative, supportPositive]);
      var r := BuildEvaluation(name, searchMethod, bestParams, accuracy, m);
      r.Success? && r.value.f1Weighted == 1.0 && r.value.precisionWeighted == 1.0 && r.value.recallWeighted == 1.0
  {
    var w := [supportNegative, supportPositive];
    assert SupportTotal(w) == SupportTotal(w[..1]) + supportPositive;
    assert SupportTotal(w[..1]) == supportNegative by {
      assert w[..1][..0] == [];
    }
    WeightedAverageOfOnes([1.0, 1.0], w);
  }

  // ---------------------------------------------------------------------
  // MetaOptimizer
  // ---------------------------------------------------------------------

  datatype SearchError = PyBrainMissing

  /** The orchestrator; datasets and the classifier family stay abstract. */
  class MetaOptimizer {
    var optimizationMethod: string
    var modelFilename: string
    var jobs: int
    var iterations: int
    var scoresCsvFilename: Option<string>
    var algorithm: Option<Strategy>
    var evaluation: Option<ClassifierEvaluation>

    /** `iterations` starts at the optimizer's class-level default. */
    constructor (defaultIterations: int)
      ensures iterations == defaultIterations && algorithm == None && evaluation == None
    {
      optimizationMethod := "";
      modelFilename := "";
      jobs := -1;
      iterations := defaultIterations;
      scoresCsvFilename := None;
      algorithm := None;
      evaluation := None;
    }

    /**
     * `initialize_optimizer`: stores the run settings, overrides the
     * iteration budget only when one is given, and selects the strategy by
     * name; an unknown name is the `KeyError` of the dictionary lookup.
     */
    method InitializeOptimizer(optimizationMethod: string, modelFilename: string, jobs: int,
                               iterations: Option<int>, scoresCsvFilename: Option<string>)
      returns (known: bool)
      modifies this
      ensures this.optimizationMethod == optimizationMethod && this.modelFilename == modelFilename
      ensures this.jobs == jobs && this.scoresCsvFilename == scoresCsvFilename
      ensures this.iterations == if iterations.Some? then iterations.value else old(this.iterations)
      ensures known <==> StrategyByName(optimizationMethod).Some?
      ensures algorithm == if known then StrategyByName(optimizationMethod) else old(algorithm)
      ensures evaluation == old(evaluation)
    {
      this.optimizationMethod := optimizationMethod;
      this.modelFilename := modelFilename;
      this.jobs := jobs;
      if iterations.Some? {
        this.iterations := iterations.value;
      }
      this.scoresCsvFilename := scoresCsvFilename;
      var selected := StrategyByName(optimizationMethod);
      known := selected.Some?;
      if known {
        algorithm := selected;
      }
    }

    /**
     * `pso_search` up to the hand-over to the swarm: fails when PyBrain is
     * missing; otherwise an evaluator over the searched names with the
     * single-variant names as defaults, and a swarm over [0, 1] per
     * searched name with `iterations` evaluations.
     */
    method PsoSearch(grid: seq<GridEntry>, restrictions: Restrictions,
                     crossValScores: Candidate -> Scores, pyBrainInstalled: bool)
      returns (r: Result<(Evaluator, SwarmSetup), SearchError>)
      requires DistinctNames(grid)
      ensures !pyBrainInstalled <==> r.Failure?
      ensures r.Failure? ==> r.error == PyBrainMissing
      ensures r.Success? ==>
        var (co, setup) := r.value;
        fresh(co) && co.Valid() && co.history == [] &&
        IsGridSplit(grid, co.parameterNames, co.defaultParameters) &&
        co.restrictions == restrictions && co.crossValScores == crossValScores &&
        setup == MakeSwarmSetup(|co.parameterNames|, iterations)
    {
      if !pyBrainInstalled {
        return Failure(PyBrainMissing);
      }
      var searched, fixed := SplitGridParameters(grid);
      var co := new Evaluator(searched, fixed, restrictions, crossValScores);
      r := Success((co, MakeSwarmSetup(|searched|, iterations)));
    }

    /** `test_classifier`: builds the evaluation record and keeps it. */
    method TestClassifier(name: string, bestParams: Option<Candidate>, accuracy: real, m: ClassMetrics)
      returns (r: Result<ClassifierEvaluation, MetricsError>)
      requires WellShaped(m)
      modifies this
      ensures r == BuildEvaluation(name, optimizationMethod, bestParams, accuracy, m)
      ensures evaluation == if r.Success? then Some(r.value) else old(evaluation)
      ensures optimizationMethod == old(optimizationMethod) && iterations == old(iterations)
      ensures modelFilename == old(modelFilename) && jobs == old(jobs)
      ensures scoresCsvFilename == old(scoresCsvFilename)
      ensures algorithm == old(algorithm)
    {
      r := BuildEvaluation(name, optimizationMethod, bestParams, accuracy, m);
      if r.Success? {
        evaluation := Some(r.value);
      }
    }
  }
}
