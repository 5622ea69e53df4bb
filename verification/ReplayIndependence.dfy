// When a replayed selection depends on candidates that lose: the exact condition on the policy.

module ReplayIndependence {
  import opened Arithmetic
  import opened Basics
  import opened ControlTypes
  import opened R = Replay

  // ---- Deleting a candidate ----

  function Without(predictions: seq<Prediction>, d: Prediction): seq<Prediction> {
    Filter(predictions, Other(d))
  }

  function Other(d: Prediction): Prediction -> bool {
    (p: Prediction) => p != d
  }

  lemma WithoutCommutes(s: seq<Prediction>, d: Prediction, keep: Prediction -> bool)
    ensures Without(Filter(s, keep), d) == Filter(Without(s, d), keep)
  {
    hide Filter;
    FilterTwice(s, keep, Other(d));
    FilterTwice(s, Other(d), keep);
    FilterSame(s, Both(keep, Other(d)), Both(Other(d), keep));
  }

  lemma WithoutKeepsHead(s: seq<Prediction>, d: Prediction)
    requires s != [] && s[0] != d
    ensures Without(s, d) != [] && Without(s, d)[0] == s[0]
  {
    assert s == [s[0]] + s[1..];
    FilterConcat([s[0]], s[1..], Other(d));
    assert [s[0]][..0] == [];
  }

  function Forget(record: JoinedRecord, d: Prediction): JoinedRecord {
    record.(predictions := Without(record.predictions, d))
  }

  lemma {:induction false} WithoutStaysDistinct(s: seq<Prediction>, d: Prediction)
    requires DistinctCandidates(s)
    ensures DistinctCandidates(Without(s, d))
  {
    if s != [] {
      var front := s[..|s| - 1];
      WithoutStaysDistinct(front, d);
      forall p | p in Without(front, d) ensures p.candidateId != s[|s| - 1].candidateId {
        var i :| 0 <= i < |front| && front[i] == p;
      }
    }
  }

  lemma BaselineSurvivesDeletion(action: Action, s: seq<Prediction>, d: Prediction)
    requires Baseline(action, s).Some? && d in s && d != Baseline(action, s).value
    ensures Baseline(action, Without(s, d)) == Baseline(action, s)
  {
    var chosen := Baseline(action, s).value;
    assert chosen in s && chosen in Without(s, d);
    if CandidateId in action.parameters {
      var id := action.parameters[CandidateId];
      WithoutCommutes(s, d, (p: Prediction) => id == Text(p.candidateId));
      if ForCandidate(s, id) == [chosen] {
        WithoutKeepsHead(ForCandidate(s, id), d);
      }
    }
  }

  // ---- Stages that a deletion does not move ----

  /** Whoever is known survives: every known value lies between 0 and the best one. */
  predicate Full(config: Config, o: Objective) {
    (o == Success && config.success == 1.0) || (o == Throughput && config.throughput == 1.0)
  }

  predicate Strict(config: Config, o: Objective) {
    match o
    case Success => config.success == 0.0
    case Latency => config.latency == 0.0
    case MoneyCost => config.cost == 0.0
    case Throughput => config.throughput == 0.0
    case Energy => true
  }

  /** The gate keeps the best values only, or every known value. */
  predicate Exact(config: Config, o: Objective) {
    Strict(config, o) || Full(config, o)
  }

  lemma StrictMeansBest(config: Config, o: Objective, known: seq<Prediction>, p: Prediction)
    requires known != [] && (forall i :: 0 <= i < |known| ==> RawValue(known[i], o).Some?) && p in known
    requires Strict(config, o)
    ensures Survives(config, o, BestValue(known, o), p) <==> RawValue(p, o) == Some(BestValue(known, o))
  {
    hide BestValue;
    assert Tolerance(config, o, BestValue(known, o)) == 0.0;
  }

  lemma FullKeepsKnown(config: Config, o: Objective, known: seq<Prediction>, p: Prediction)
    requires known != [] && (forall i :: 0 <= i < |known| ==> RawValue(known[i], o).Some?)
    requires (forall q :: q in known ==> WellValued(q, o)) && WellValued(p, o) && Full(config, o)
    ensures Survives(config, o, BestValue(known, o), p) <==> RawValue(p, o).Some?
  {
    hide BestValue, Tolerance, Full;
    var best := BestValue(known, o);
    var top :| top in known && RawValue(top, o) == Some(best);
    assert WellValued(top, o);
    FullAdmitsAll(config, o, best);
  }

  lemma FullAdmitsAll(config: Config, o: Objective, best: real)
    requires Full(config, o) && 0.0 <= best && (o == Success ==> best <= 1.0)
    ensures Maximized(o) && best - Tolerance(config, o, best) <= 0.0
  {
  }

  lemma BestIsUnique(known: seq<Prediction>, o: Objective, other: seq<Prediction>, p: Prediction)
    requires known != [] && other != []
    requires forall q :: q in known || q in other ==> RawValue(q, o).Some?
    requires forall q :: q in other ==> q in known
    requires p in other && RawValue(p, o) == Some(BestValue(known, o))
    ensures BestValue(other, o) == BestValue(known, o)
  {
    var best := BestValue(known, o);
    var top :| top in other && RawValue(top, o) == Some(BestValue(other, o));
  }

  /** Stage `k`, if it runs, keeps every known candidate, or someone other than `d` attains the best value too. */
  ghost predicate Unmoved(config: Config, objectives: seq<Objective>, k: nat, passing: seq<Prediction>, d: Prediction)
    requires k < |objectives|
  {
    match Eliminate(config, objectives, k, passing)
    case Err(_) => true
    case Ok(x) => Stopped(x) || UnmovedStage(config, objectives[k], x.eligible, d)
  }

  ghost predicate UnmovedStage(config: Config, o: Objective, eligible: seq<Prediction>, d: Prediction) {
    || Full(config, o) || Known(eligible, o) == []
    || exists p :: p in eligible && p != d && RawValue(p, o) == Some(BestValue(Known(eligible, o), o))
  }

  /** With or without `d`, the same others survive such a stage. */
  lemma SameSurvivors(config: Config, o: Objective, x: seq<Prediction>, d: Prediction, p: Prediction)
    requires UnmovedStage(config, o, x, d) && p in Without(x, d)
    requires Known(x, o) != [] && Known(Without(x, d), o) != [] && forall q :: q in x ==> WellValued(q, o)
    ensures var y := Without(x, d);
            Survives(config, o, BestValue(Known(y, o), o), p) == Survives(config, o, BestValue(Known(x, o), o), p)
  {
    hide BestValue, WellValued, Survives, Filter, RawValue, Full;
    var y := Without(x, d);
    if Full(config, o) {
      FullKeepsKnown(config, o, Known(x, o), p);
      FullKeepsKnown(config, o, Known(y, o), p);
    } else {
      var top :| top in x && top != d && RawValue(top, o) == Some(BestValue(Known(x, o), o));
      assert top in y && top in Known(y, o);
      BestIsUnique(Known(x, o), o, Known(y, o), top);
    }
  }

  lemma RunStageWithout(config: Config, o: Objective, x: Staged, y: Staged, d: Prediction, selected: Prediction)
    requires y.eligible == Without(x.eligible, d) && (x.trace == [] <==> y.trace == [])
    requires RunStage(config, o, x).Ok? && selected != d && selected in RunStage(config, o, x).value.eligible
    requires Stopped(x) || UnmovedStage(config, o, x.eligible, d)
    ensures RunStage(config, o, y).Ok?
    ensures RunStage(config, o, y).value.eligible == Without(RunStage(config, o, x).value.eligible, d)
    ensures RunStage(config, o, x).value.trace == [] <==> RunStage(config, o, y).value.trace == []
  {
    hide BestValue, Survives, WellValued, Filter, RawValue, UnmovedStage, Tolerance;
    if Stopped(x) {
      WithoutKeepsHead(x.eligible, d);
    } else {
      var best := BestValue(Known(x.eligible, o), o);
      WithoutCommutes(x.eligible, d, Survivor(config, o, best));
      assert selected in y.eligible && Survives(config, o, best, selected);
      if Stopped(y) {
        assert y.eligible == [selected];
        FilterAll(y.eligible, Survivor(config, o, best));
      } else {
        SurvivingMeansKnown(config, o, best, selected, y.eligible);
        var here := BestValue(Known(y.eligible, o), o);
        forall p | p in y.eligible ensures Survives(config, o, here, p) == Survives(config, o, best, p) {
          SameSurvivors(config, o, x.eligible, d, p);
        }
        FilterSame(y.eligible, Survivor(config, o, here), Survivor(config, o, best));
      }
    }
  }

  lemma SurvivingMeansKnown(config: Config, o: Objective, best: real, p: Prediction, s: seq<Prediction>)
    requires p in s && Survives(config, o, best, p)
    ensures p in Known(s, o)
  {
  }

  lemma {:induction false} EliminateWithout(
      config: Config, objectives: seq<Objective>, k: nat, passing: seq<Prediction>, d: Prediction, selected: Prediction)
    requires k <= |objectives| && passing != [] && selected != d
    requires Eliminate(config, objectives, k, passing).Ok?
    requires selected in Eliminate(config, objectives, k, passing).value.eligible
    requires forall i :: 0 <= i < k ==> Unmoved(config, objectives, i, passing, d)
    ensures var x, y := Eliminate(config, objectives, k, passing), Eliminate(config, objectives, k, Without(passing, d));
            && y.Ok? && y.value.eligible == Without(x.value.eligible, d)
            && (x.value.trace == [] <==> y.value.trace == [])
  {
    hide RunStage, Without, UnmovedStage;
    if k > 0 {
      EliminationShrinks(config, objectives, k - 1, k, passing);
      EliminateWithout(config, objectives, k - 1, passing, d, selected);
      var x, o := Eliminate(config, objectives, k - 1, passing).value, objectives[k - 1];
      assert Unmoved(config, objectives, k - 1, passing, d);
      RunStageWithout(config, o, x, Eliminate(config, objectives, k - 1, Without(passing, d)).value, d, selected);
    }
  }

  /** Dropping a candidate that is neither selected nor the baseline, and moves no stage, selects the same. */
  lemma DeletionKeepsSelection(
      record: JoinedRecord, objectives: seq<Objective>, c: Constraints, config: Config, d: Prediction)
    requires Replay(record, objectives, c, config).Ok? && d in record.predictions
    requires var r := Replay(record, objectives, c, config).value;
             d.candidateId != r.selected && d.candidateId != r.baseline
    requires forall i :: 0 <= i < |objectives| ==>
               Unmoved(config, objectives, i, Passing(record.predictions, c), d)
    ensures var before, after := Replay(record, objectives, c, config), Replay(Forget(record, d), objectives, c, config);
            && after.Ok? && after.value.selected == before.value.selected
            && after.value.selectedPrediction == before.value.selectedPrediction
            && after.value.baseline == before.value.baseline
            && after.value.objectiveValues == before.value.objectiveValues && after.value.gain == before.value.gain
  {
    hide RunStage, Unmoved, AllReasons, KnownValues, WellValuedFor, ConstraintReasons, Malformed, PotentialGain;
    hide CollectReasons, Filter;
    var s, n := record.predictions, |objectives|;
    var passing := Passing(s, c);
    WithoutCommutes(s, d, Passes(c));
    assert Passing(Without(s, d), c) == Without(passing, d);
    SomeoneSurvives(config, objectives, n, passing);
    var left := Eliminate(config, objectives, n, passing).value.eligible;
    EliminateWithout(config, objectives, n, passing, d, left[0]);
    WithoutKeepsHead(left, d);
    WithoutStaysDistinct(s, d);
    BaselineSurvivesDeletion(record.decision.selectedAction, s, d);
    assert left[0] in Without(passing, d) && left[0] in Without(s, d);
  }

  /** An exact gate is never moved by deleting someone other than a final survivor. */
  lemma ExactIsUnmoved(
      config: Config, objectives: seq<Objective>, k: nat, passing: seq<Prediction>, d: Prediction, p: Prediction)
    requires k < |objectives| && passing != [] && Eliminate(config, objectives, |objectives|, passing).Ok?
    requires p in Eliminate(config, objectives, |objectives|, passing).value.eligible && p != d
    requires Exact(config, objectives[k])
    ensures Unmoved(config, objectives, k, passing, d)
  {
    hide BestValue, WellValued, Eliminate, Tolerance, Survives;
    EliminationShrinks(config, objectives, k, |objectives|, passing);
    EliminationShrinks(config, objectives, k + 1, |objectives|, passing);
    EliminateStep(config, objectives, k, passing);
    var x, o := Eliminate(config, objectives, k, passing).value, objectives[k];
    if !Stopped(x) && !Full(config, o) {
      var known := Known(x.eligible, o);
      SurvivingMeansKnown(config, o, BestValue(known, o), p, x.eligible);
      StrictMeansBest(config, o, known, p);
    }
  }

  // ---- Gates that were applied before ----

  /** Everybody survives the gate, whoever of them is the best. */
  ghost predicate Applied(config: Config, o: Objective, s: seq<Prediction>) {
    forall p, q :: p in s && q in s ==> RawValue(q, o).Some? && Survives(config, o, RawValue(q, o).value, p)
  }

  /** The threshold moves with the best value. */
  lemma ThresholdIsMonotone(config: Config, o: Objective, a: real, b: real)
    requires 0.0 <= a <= b
    ensures a - Tolerance(config, o, a) <= b - Tolerance(config, o, b)
    ensures a + Tolerance(config, o, a) <= b + Tolerance(config, o, b)
  {
    forall t | 0.0 <= t <= 1.0 ensures Product(a, t) <= Product(b, t) && b * t - a * t <= b - a {
      ScaleKeepsOrder(t, a, b);
      ScaleKeepsOrder(b - a, t, 1.0);
    }
    assert AbsReal(a) == a && AbsReal(b) == b;
    assert Product(a, config.latency) <= Product(b, config.latency);
    assert Product(a, config.cost) <= Product(b, config.cost);
    assert Product(a, config.throughput) <= Product(b, config.throughput);
  }

  lemma StageApplies(config: Config, o: Objective, x: Staged)
    requires RunStage(config, o, x).Ok? && !Stopped(x)
    ensures Applied(config, o, RunStage(config, o, x).value.eligible)
  {
    hide BestValue, Tolerance, Filter, RawValue;
    var left, best := RunStage(config, o, x).value.eligible, BestValue(Known(x.eligible, o), o);
    forall p, q | p in left && q in left ensures RawValue(q, o).Some? && Survives(config, o, RawValue(q, o).value, p) {
      var v := RawValue(q, o).value;
      assert q in x.eligible && q in Known(x.eligible, o) && WellValued(q, o);
      var top :| top in Known(x.eligible, o) && RawValue(top, o) == Some(best);
      assert top in x.eligible && WellValued(top, o);
      ThresholdIsMonotone(config, o, MinReal(v, best), MaxReal(v, best));
    }
  }

  lemma AppliedKeepsEveryone(config: Config, o: Objective, x: Staged)
    requires RunStage(config, o, x).Ok? && Applied(config, o, x.eligible)
    ensures RunStage(config, o, x).value.eligible == x.eligible
  {
    hide BestValue, Survives, RawValue, WellValued;
    if !Stopped(x) {
      var best := BestValue(Known(x.eligible, o), o);
      var top :| top in Known(x.eligible, o) && RawValue(top, o) == Some(best);
      assert top in x.eligible;
      FilterAll(x.eligible, Survivor(config, o, best));
    }
  }

  /** After a stage, its objective has been applied for good unless elimination had stopped. */
  lemma AppliedForGood(config: Config, objectives: seq<Objective>, i: nat, k: nat, passing: seq<Prediction>)
    requires i < k <= |objectives| && passing != [] && Eliminate(config, objectives, k, passing).Ok?
    ensures var x := Eliminate(config, objectives, k, passing).value;
            Stopped(x) || Applied(config, objectives[i], x.eligible)
  {
    hide RunStage, Eliminate, Survives, RawValue, Stopped;
    EliminationShrinks(config, objectives, i, k, passing);
    EliminationShrinks(config, objectives, i + 1, k, passing);
    EliminateStep(config, objectives, i, passing);
    var x := Eliminate(config, objectives, i, passing).value;
    if Stopped(x) {
      StoppedForever(config, objectives, i, k, passing);
    } else {
      StageApplies(config, objectives[i], x);
    }
  }

  /** Objectives that were all applied before change nothing. */
  lemma {:induction false} RepeatsKeepEveryone(
      config: Config, objectives: seq<Objective>, i: nat, k: nat, passing: seq<Prediction>)
    requires i < k <= |objectives| && passing != [] && Eliminate(config, objectives, k, passing).Ok?
    requires forall j :: i < j < k ==> objectives[j] in objectives[..i + 1]
    ensures Eliminate(config, objectives, i + 1, passing).Ok?
    ensures Eliminate(config, objectives, k, passing).value.eligible
            == Eliminate(config, objectives, i + 1, passing).value.eligible
  {
    hide RunStage, Eliminate, Applied, Stopped;
    EliminationShrinks(config, objectives, i + 1, k, passing);
    if i + 1 < k {
      EliminateStep(config, objectives, k - 1, passing);
      RepeatsKeepEveryone(config, objectives, i, k - 1, passing);
      var x, o := Eliminate(config, objectives, k - 1, passing).value, objectives[k - 1];
      var h :| 0 <= h < i + 1 && objectives[h] == o;
      AppliedForGood(config, objectives, h, k - 1, passing);
      if Stopped(x) {
        StoppedStays(config, o, x);
      } else {
        AppliedKeepsEveryone(config, o, x);
      }
    }
  }

  // ---- The condition on the policy ----

  /** How many objectives come before the first one that no prediction knows. */
  function Reach(objectives: seq<Objective>): (n: nat)
    ensures n <= |objectives| && Energy !in objectives[..n]
    ensures n < |objectives| ==> objectives[n] == Energy
  {
    if objectives == [] || objectives[0] == Energy then 0
    else
      var n := Reach(objectives[1..]);
      assert objectives[..n + 1] == [objectives[0]] + objectives[1..][..n];
      n + 1
  }

  /** Every gate is exact; or, if "energy" demands a single survivor, a gate that is not is followed by repeats only. */
  predicate Robust(objectives: seq<Objective>, config: Config) {
    var n := Reach(objectives);
    forall i :: 0 <= i < n && !Exact(config, objectives[i]) ==>
      n < |objectives| && forall j :: i < j < n ==> objectives[j] in objectives[..i + 1]
  }

  /** `d` was neither selected nor the baseline of a replay that succeeded. */
  predicate Irrelevant(
      record: JoinedRecord, objectives: seq<Objective>, c: Constraints, config: Config, d: Prediction)
  {
    && Replay(record, objectives, c, config).Ok? && d in record.predictions
    && d.candidateId != Replay(record, objectives, c, config).value.selected
    && d.candidateId != Replay(record, objectives, c, config).value.baseline
  }

  predicate SelectsTheSame(
      record: JoinedRecord, other: JoinedRecord, objectives: seq<Objective>, c: Constraints, config: Config)
    requires Replay(record, objectives, c, config).Ok?
  {
    && Replay(other, objectives, c, config).Ok?
    && Replay(other, objectives, c, config).value.selected == Replay(record, objectives, c, config).value.selected
  }

  /** Deleting an irrelevant candidate never changes who is selected, on any record and under any constraints. */
  ghost predicate Independent(objectives: seq<Objective>, config: Config) {
    forall record, c, d :: Irrelevant(record, objectives, c, config, d) ==>
      SelectsTheSame(record, Forget(record, d), objectives, c, config)
  }

  lemma EnergyStops(config: Config, objectives: seq<Objective>, passing: seq<Prediction>)
    requires Reach(objectives) < |objectives| && passing != []
    requires Eliminate(config, objectives, |objectives|, passing).Ok?
    ensures Eliminate(config, objectives, Reach(objectives), passing).Ok?
    ensures Stopped(Eliminate(config, objectives, Reach(objectives), passing).value)
    ensures Eliminate(config, objectives, |objectives|, passing)
            == Eliminate(config, objectives, Reach(objectives), passing)
  {
    hide Eliminate, Stopped, BestValue, Reach, Survives;
    var n := Reach(objectives);
    EliminationShrinks(config, objectives, n, |objectives|, passing);
    EliminationShrinks(config, objectives, n + 1, |objectives|, passing);
    EliminateStep(config, objectives, n, passing);
    var x := Eliminate(config, objectives, n, passing).value;
    if !Stopped(x) {
      NobodyKnowsEnergy(x.eligible);
    }
    StoppedForever(config, objectives, n, |objectives|, passing);
  }

  lemma NobodyKnowsEnergy(s: seq<Prediction>)
    ensures Known(s, Energy) == []
  {
    FilterNone(s, (p: Prediction) => RawValue(p, Energy).Some?);
  }

  /** Where only repeats follow up to a single survivor, that survivor was the best at the gate. */
  lemma RepeatedGateIsUnmoved(
      config: Config, objectives: seq<Objective>, k: nat, passing: seq<Prediction>, d: Prediction, p: Prediction)
    requires k < Reach(objectives) < |objectives| && passing != []
    requires Eliminate(config, objectives, |objectives|, passing).Ok?
    requires p in Eliminate(config, objectives, |objectives|, passing).value.eligible && p != d
    requires forall j :: k < j < Reach(objectives) ==> objectives[j] in objectives[..k + 1]
    ensures Unmoved(config, objectives, k, passing, d)
  {
    hide Eliminate, BestValue, Reach, Survives, WellValued, Tolerance, Full, RawValue;
    EnergyStops(config, objectives, passing);
    RepeatsKeepEveryone(config, objectives, k, Reach(objectives), passing);
    EliminateStep(config, objectives, k, passing);
    var x, o := Eliminate(config, objectives, k, passing).value, objectives[k];
    if !Stopped(x) && Known(x.eligible, o) != [] {
      var known := Known(x.eligible, o);
      var top :| top in known && RawValue(top, o) == Some(BestValue(known, o));
      assert top in x.eligible;
      BestSurvives(config, o, x.eligible, top);
      assert Eliminate(config, objectives, k + 1, passing).value.eligible == [p];
    }
  }

  lemma BeyondEnergyIsUnmoved(
      config: Config, objectives: seq<Objective>, k: nat, passing: seq<Prediction>, d: Prediction)
    requires Reach(objectives) <= k < |objectives| && passing != []
    requires Eliminate(config, objectives, |objectives|, passing).Ok?
    ensures Unmoved(config, objectives, k, passing, d)
  {
    hide RunStage, Reach, Stopped, Eliminate;
    EnergyStops(config, objectives, passing);
    StoppedForever(config, objectives, Reach(objectives), k, passing);
  }

  lemma RobustIsUnmoved(
      config: Config, objectives: seq<Objective>, k: nat, passing: seq<Prediction>, d: Prediction, p: Prediction)
    requires k < |objectives| && passing != [] && Eliminate(config, objectives, |objectives|, passing).Ok?
    requires p in Eliminate(config, objectives, |objectives|, passing).value.eligible && p != d
    requires Robust(objectives, config)
    ensures Unmoved(config, objectives, k, passing, d)
  {
    hide Unmoved, Eliminate, Reach, Exact;
    if k >= Reach(objectives) {
      BeyondEnergyIsUnmoved(config, objectives, k, passing, d);
    } else if Exact(config, objectives[k]) {
      ExactIsUnmoved(config, objectives, k, passing, d, p);
    } else {
      RepeatedGateIsUnmoved(config, objectives, k, passing, d, p);
    }
  }

  /** Under a robust policy the whole selection survives the deletion of an irrelevant candidate. */
  lemma IrrelevantCandidatesDoNotMatter(
      record: JoinedRecord, objectives: seq<Objective>, c: Constraints, config: Config, d: Prediction)
    requires Robust(objectives, config) && Irrelevant(record, objectives, c, config, d)
    ensures var before, after := Replay(record, objectives, c, config), Replay(Forget(record, d), objectives, c, config);
            && after.Ok? && after.value.selected == before.value.selected
            && after.value.selectedPrediction == before.value.selectedPrediction
            && after.value.baseline == before.value.baseline
            && after.value.objectiveValues == before.value.objectiveValues && after.value.gain == before.value.gain
  {
    hide RunStage, Unmoved, AllReasons, KnownValues, WellValuedFor, ConstraintReasons, Malformed, PotentialGain, Robust;
    var passing := Passing(record.predictions, c);
    SomeoneSurvives(config, objectives, |objectives|, passing);
    var left := Eliminate(config, objectives, |objectives|, passing).value.eligible;
    assert left[0] in left && left[0] != d;
    forall i | 0 <= i < |objectives| ensures Unmoved(config, objectives, i, passing, d) {
      RobustIsUnmoved(config, objectives, i, passing, d, left[0]);
    }
    DeletionKeepsSelection(record, objectives, c, config, d);
  }

  // ---- A policy that is not robust depends on a losing candidate ----

  predicate IsBest(s: seq<Prediction>, o: Objective, p: Prediction, value: real) {
    && p in s && RawValue(p, o) == Some(value)
    && forall q :: q in s ==>
         && RawValue(q, o).Some? && WellValued(q, o)
         && if Maximized(o) then RawValue(q, o).value <= value else value <= RawValue(q, o).value
  }

  lemma StageIs(config: Config, o: Objective, x: Staged, p: Prediction, value: real)
    requires IsBest(x.eligible, o, p, value) && !Stopped(x)
    ensures RunStage(config, o, x).Ok?
    ensures RunStage(config, o, x).value.eligible == Filter(x.eligible, Survivor(config, o, value))
    ensures RunStage(config, o, x).value.trace != []
  {
    hide Survivor, WellValued, Filter, RawValue;
    AllKnown(x.eligible, o);
    var top :| top in x.eligible && RawValue(top, o) == Some(BestValue(x.eligible, o));
  }

  lemma AllKnown(s: seq<Prediction>, o: Objective)
    requires forall p :: p in s ==> RawValue(p, o).Some?
    ensures Known(s, o) == s
  {
    FilterAll(s, (p: Prediction) => RawValue(p, o).Some?);
  }

  lemma FilterTwo(a: Prediction, b: Prediction, keep: Prediction -> bool)
    ensures Filter([a, b], keep) == (if keep(a) then [a] else []) + (if keep(b) then [b] else [])
  {
    assert [a, b] == [a] + [b] && [a][..0] == [] && [b][..0] == [];
    FilterConcat([a], [b], keep);
  }

  lemma FilterThree(a: Prediction, b: Prediction, c: Prediction, keep: Prediction -> bool)
    ensures Filter([a, b, c], keep)
            == (if keep(a) then [a] else []) + (if keep(b) then [b] else []) + (if keep(c) then [c] else [])
  {
    assert [a, b, c] == [a, b] + [c] && [c][..0] == [];
    FilterConcat([a, b], [c], keep);
    FilterTwo(a, b, keep);
  }

  /** The value `v` on `o`, 1 on every other objective, and none on `missing`. */
  function Figure(q: Objective, o: Objective, v: real, missing: Option<Objective>): Option<real> {
    if missing == Some(q) then None else if q == o then Some(v) else Some(1.0)
  }

  function Candidate(id: string, o: Objective, v: real, missing: Option<Objective>): Prediction {
    Prediction(id, "snapshot", id,
               Performance(None, None, Figure(Latency, o, v, missing), Figure(Throughput, o, v, missing), None),
               Reliability(Figure(Success, o, v, missing), None, None, None),
               Cost(None, None, None, None, Figure(MoneyCost, o, v, missing)),
               FutureState(None, None, None, None, None, None), 1.0, "model", "routing", map[], "none", [])
  }

  /** The worst value that still survives when `v` is the best. */
  function Edge(config: Config, o: Objective, v: real): real {
    if Maximized(o) then MaxReal(0.0, v - Tolerance(config, o, v)) else v + Tolerance(config, o, v)
  }

  /** On `o`, `b` survives the better `a` and `c` survives the better `b`, but `c` does not survive `a`; elsewhere they
      tie, except that `a` has no value on `missing`. */
  ghost predicate Chained(
      config: Config, o: Objective, missing: Option<Objective>, a: Prediction, b: Prediction, c: Prediction)
  {
    && o != Energy && missing != Some(o) && missing != Some(Energy)
    && (forall q :: q != o && q != Energy ==>
          && RawValue(b, q) == RawValue(c, q) == Some(1.0)
          && RawValue(a, q) == if missing == Some(q) then None else Some(1.0))
    && (forall p :: p in [c, b, a] ==> RawValue(p, o).Some? && WellValued(p, o))
    && Beats(a, b, o) && Beats(b, c, o)
    && Survives(config, o, RawValue(a, o).value, b) && !Survives(config, o, RawValue(a, o).value, c)
    && Survives(config, o, RawValue(b, o).value, c)
  }

  lemma EdgesDiffer(config: Config, o: Objective)
    requires !Exact(config, o)
    ensures o != Energy
    ensures var b := Edge(config, o, 1.0);
            var c := Edge(config, o, b);
            if Maximized(o) then 1.0 > b > c >= 0.0 && c >= b - Tolerance(config, o, b)
            else 1.0 < b < c <= b + Tolerance(config, o, b)
  {
    var b := Edge(config, o, 1.0);
    match o
    case Success =>
    case Throughput =>
      ProductIsPositive(b, config.throughput);
      ScaleKeepsOrder(b, config.throughput, 1.0);
    case Latency => ProductIsPositive(b, config.latency);
    case MoneyCost => ProductIsPositive(b, config.cost);
  }

  lemma CandidatesAreChained(config: Config, o: Objective, missing: Option<Objective>)
    requires !Exact(config, o) && missing != Some(o) && missing != Some(Energy)
    ensures var b := Edge(config, o, 1.0);
            Chained(config, o, missing, Candidate("a", o, 1.0, missing), Candidate("b", o, b, None),
                    Candidate("c", o, Edge(config, o, b), None))
  {
    hide Candidate, Tolerance, Exact, RawValue, Edge;
    EdgesDiffer(config, o);
    var y := Edge(config, o, 1.0);
    var z := Edge(config, o, y);
    EdgeIs(config, o, 1.0);
    EdgeIs(config, o, y);
    var a, b, c := Candidate("a", o, 1.0, missing), Candidate("b", o, y, None), Candidate("c", o, z, None);
    forall q: Objective
      ensures RawValue(a, q) == if q == Energy then None else Figure(q, o, 1.0, missing)
      ensures RawValue(b, q) == if q == Energy then None else Figure(q, o, y, None)
      ensures RawValue(c, q) == if q == Energy then None else Figure(q, o, z, None)
    {
      FigureIs("a", o, 1.0, missing, q);
      FigureIs("b", o, y, None, q);
      FigureIs("c", o, z, None, q);
    }
    assert Beats(a, b, o) && Beats(b, c, o);
    assert WellValued(a, o) && WellValued(b, o) && WellValued(c, o);
    assert Survives(config, o, 1.0, b) && !Survives(config, o, 1.0, c) && Survives(config, o, y, c);
  }

  lemma FigureIs(id: string, o: Objective, v: real, missing: Option<Objective>, q: Objective)
    ensures RawValue(Candidate(id, o, v, missing), q) == if q == Energy then None else Figure(q, o, v, missing)
  {
  }

  lemma EdgeIs(config: Config, o: Objective, v: real)
    ensures Edge(config, o, v)
            == if Maximized(o) then MaxReal(0.0, v - Tolerance(config, o, v)) else v + Tolerance(config, o, v)
  {
  }

  lemma SurvivesItself(config: Config, o: Objective, p: Prediction)
    requires RawValue(p, o).Some?
    ensures Survives(config, o, RawValue(p, o).value, p)
  {
    ToleranceIsNonNegative(config, o, RawValue(p, o).value);
  }

  lemma TiedStage(config: Config, o: Objective, x: Staged)
    requires x.eligible != [] && !Stopped(x) && forall p :: p in x.eligible ==> RawValue(p, o) == Some(1.0)
    ensures RunStage(config, o, x).Ok? && RunStage(config, o, x).value.trace != []
    ensures RunStage(config, o, x).value.eligible == x.eligible
  {
    hide Survives, RunStage, RawValue;
    StageIs(config, o, x, x.eligible[0], 1.0);
    forall p | p in x.eligible ensures Survives(config, o, 1.0, p) {
      SurvivesItself(config, o, p);
    }
    FilterAll(x.eligible, Survivor(config, o, 1.0));
  }

  lemma ChainStage(
      config: Config, o: Objective, missing: Option<Objective>, a: Prediction, b: Prediction, c: Prediction, x: Staged)
    requires Chained(config, o, missing, a, b, c) && x.eligible in [[c, b, a], [b, a], [c, b]]
    ensures RunStage(config, o, x).Ok? && RunStage(config, o, x).value.trace != []
    ensures RunStage(config, o, x).value.eligible == if x.eligible == [c, b, a] then [b, a] else x.eligible
  {
    hide Survives, RunStage, Filter, Chained, Survivor;
    if x.eligible == [c, b, a] {
      ChainTops(config, o, missing, a, b, c);
      StageIs(config, o, x, a, RawValue(a, o).value);
      FilterThree(c, b, a, Survivor(config, o, RawValue(a, o).value));
    } else if x.eligible == [b, a] {
      ChainTops(config, o, missing, a, b, c);
      StageIs(config, o, x, a, RawValue(a, o).value);
      FilterTwo(b, a, Survivor(config, o, RawValue(a, o).value));
    } else {
      ChainTops(config, o, missing, a, b, c);
      StageIs(config, o, x, b, RawValue(b, o).value);
      FilterTwo(c, b, Survivor(config, o, RawValue(b, o).value));
    }
  }

  /** Who is best, and who survives whom. */
  lemma ChainTops(
      config: Config, o: Objective, missing: Option<Objective>, a: Prediction, b: Prediction, c: Prediction)
    requires Chained(config, o, missing, a, b, c)
    ensures RawValue(a, o).Some? && RawValue(b, o).Some?
    ensures IsBest([c, b, a], o, a, RawValue(a, o).value) && IsBest([b, a], o, a, RawValue(a, o).value)
    ensures IsBest([c, b], o, b, RawValue(b, o).value)
    ensures var survivor := Survivor(config, o, RawValue(a, o).value); survivor(a) && survivor(b) && !survivor(c)
    ensures var survivor := Survivor(config, o, RawValue(b, o).value); survivor(b) && survivor(c)
  {
    hide Survives, RawValue;
    SurvivesItself(config, o, a);
    SurvivesItself(config, o, b);
    assert WellValued(a, o) && WellValued(b, o) && WellValued(c, o);
  }

  lemma MissingStage(config: Config, o: Objective, a: Prediction, b: Prediction, x: Staged)
    requires x.eligible == [b, a] && RawValue(a, o).None? && RawValue(b, o) == Some(1.0)
    ensures RunStage(config, o, x).Ok? && RunStage(config, o, x).value.trace != []
    ensures RunStage(config, o, x).value.eligible == [b]
  {
    hide Filter, BestValue;
    FilterTwo(b, a, (p: Prediction) => RawValue(p, o).Some?);
    assert Known(x.eligible, o) == [b];
    var best := BestValue([b], o);
    SurvivesItself(config, o, b);
    FilterTwo(b, a, Survivor(config, o, best));
  }

  function Expected(
      objectives: seq<Objective>, o: Objective, missing: Option<Objective>, a: Prediction, b: Prediction, c: Prediction)
    : seq<Prediction>
  {
    if missing.Some? && missing.value in objectives then [b] else if o in objectives then [b, a] else [c, b, a]
  }

  /** With `a`, the gate on `o` excludes `c`, and an objective that `a` does not know leaves `b` alone. */
  lemma {:induction false} ChainWithTop(
      config: Config, objectives: seq<Objective>, i: nat, k: nat, missing: Option<Objective>,
      a: Prediction, b: Prediction, c: Prediction)
    requires i < |objectives| && Chained(config, objectives[i], missing, a, b, c)
    requires missing.Some? ==> missing.value !in objectives[..i + 1]
    requires k <= |objectives| && Energy !in objectives[..k]
    ensures var x := Eliminate(config, objectives, k, [c, b, a]);
            && x.Ok? && (k > 0 ==> x.value.trace != [])
            && x.value.eligible == Expected(objectives[..k], objectives[i], missing, a, b, c)
  {
    hide RunStage, Survives, RawValue;
    if k > 0 {
      var o, q := objectives[i], objectives[k - 1];
      assert objectives[..k] == objectives[..k - 1] + [q];
      ChainWithTop(config, objectives, i, k - 1, missing, a, b, c);
      var x := Eliminate(config, objectives, k - 1, [c, b, a]).value;
      if x.eligible == [b] {
        StoppedStays(config, q, x);
      } else if q == o {
        ChainStage(config, o, missing, a, b, c, x);
      } else if missing == Some(q) {
        assert k - 1 > i && o == objectives[..k - 1][i];
        MissingStage(config, q, a, b, x);
      } else {
        assert forall p :: p in x.eligible ==> p in [c, b, a];
        TiedStage(config, q, x);
      }
    }
  }

  /** Without `a`, both others stay to the end. */
  lemma {:induction false} ChainWithoutTop(
      config: Config, objectives: seq<Objective>, o: Objective, k: nat, missing: Option<Objective>,
      a: Prediction, b: Prediction, c: Prediction)
    requires Chained(config, o, missing, a, b, c) && k <= |objectives| && Energy !in objectives[..k]
    ensures var x := Eliminate(config, objectives, k, [c, b]); x.Ok? && x.value.eligible == [c, b]
  {
    hide RunStage, Survives, RawValue;
    if k > 0 {
      var q := objectives[k - 1];
      assert objectives[..k] == objectives[..k - 1] + [q];
      ChainWithoutTop(config, objectives, o, k - 1, missing, a, b, c);
      var x := Eliminate(config, objectives, k - 1, [c, b]).value;
      if q == o {
        ChainStage(config, o, missing, a, b, c, x);
      } else {
        TiedStage(config, q, x);
      }
    }
  }

  // ---- Records that show it ----

  const OPEN := Constraints(0.0, None, None, None, "", true)

  function Recorded(predictions: seq<Prediction>, chosen: string): JoinedRecord {
    JoinedRecord(
      DecisionRecord(
        "decision", "snapshot", "policy", CandidateIds(predictions), PredictionIds(predictions), ["model"],
        Action("action", "scheduler", "route", map[CandidateId := Text(chosen)], map[], "key", [], 1.0, map[], true),
        "recorded", [], 0),
      predictions, None, None)
  }

  predicate Plain(p: Prediction, objectives: seq<Objective>) {
    p.confidence == 1.0 && WellValuedFor(objectives, p)
  }

  lemma EverybodyPasses(s: seq<Prediction>, objectives: seq<Objective>)
    requires forall p :: p in s ==> Plain(p, objectives)
    ensures Passing(s, OPEN) == s
  {
    FilterAll(s, Passes(OPEN));
  }

  lemma OpenReplay(record: JoinedRecord, objectives: seq<Objective>, config: Config, b: Prediction)
    requires DistinctCandidates(record.predictions) && objectives != []
    requires forall p :: p in record.predictions ==> Plain(p, objectives)
    requires b in record.predictions && Baseline(record.decision.selectedAction, record.predictions) == Some(b)
    ensures var r, x := Replay(record, objectives, OPEN, config),
                        Eliminate(config, objectives, |objectives|, record.predictions);
            && (x.Err? ==> r.Err?)
            && (x.Ok? ==> x.value.eligible != [] && r.Ok? && r.value.selected == x.value.eligible[0].candidateId
                          && r.value.baseline == b.candidateId)
  {
    hide Eliminate, AllReasons, KnownValues, PotentialGain, ConstraintReasons, DistinctCandidates, WellValuedFor,
         Baseline;
    var s := record.predictions;
    EverybodyPasses(s, objectives);
    var x := Eliminate(config, objectives, |objectives|, s);
    if x.Ok? {
      SomeoneSurvives(config, objectives, |objectives|, s);
      assert x.value.eligible[0] in x.value.eligible;
    }
  }

  lemma ThreeIds(a: Prediction, b: Prediction, c: Prediction)
    requires a.candidateId == "a" && b.candidateId == "b" && c.candidateId == "c"
    ensures DistinctCandidates([c, b, a]) && Without([c, b, a], a) == [c, b]
    ensures Baseline(Recorded([c, b, a], "c").decision.selectedAction, [c, b, a]) == Some(c)
    ensures Baseline(Recorded([c, b, a], "b").decision.selectedAction, [c, b, a]) == Some(b)
  {
    hide Filter;
    assert "a"[0] == 'a' && "b"[0] == 'b' && "c"[0] == 'c';
    FilterThree(c, b, a, Other(a));
    NamedInThree(a, b, c, "b");
    NamedInThree(a, b, c, "c");
  }

  lemma NamedInThree(a: Prediction, b: Prediction, c: Prediction, id: string)
    ensures ForCandidate([c, b, a], Text(id))
            == (if c.candidateId == id then [c] else []) + (if b.candidateId == id then [b] else [])
               + (if a.candidateId == id then [a] else [])
  {
    hide Filter;
    FilterThree(c, b, a, (p: Prediction) => Text(id) == Text(p.candidateId));
  }

  /** Deleting a losing "a" from such a record makes the replay fail, or select "c" instead of "b". */
  lemma ChainDepends(
      objectives: seq<Objective>, config: Config, i: nat, missing: Option<Objective>,
      a: Prediction, b: Prediction, c: Prediction)
    requires i < Reach(objectives) && Chained(config, objectives[i], missing, a, b, c)
    requires a.candidateId == "a" && b.candidateId == "b" && c.candidateId == "c"
    requires forall p :: p in [c, b, a] ==> Plain(p, objectives)
    requires missing.Some? ==> missing.value !in objectives[..i + 1] && missing.value in objectives[..Reach(objectives)]
    requires missing.None? <==> Reach(objectives) == |objectives|
    ensures var record := Recorded([c, b, a], "c");
            && Irrelevant(record, objectives, OPEN, config, a)
            && !SelectsTheSame(record, Forget(record, a), objectives, OPEN, config)
  {
    hide Reach, Chained, Plain, Replay, Recorded, Forget;
    var record := Recorded([c, b, a], "c");
    ChainSelects(objectives, config, i, missing, a, b, c);
    RecordedHolds([c, b, a], "c");
    if Replay(Forget(record, a), objectives, OPEN, config).Ok? {
      ChainLoses(objectives, config, i, missing, a, b, c);
    }
    assert "b"[0] != "c"[0] && "a"[0] != "b"[0] && "a"[0] != "c"[0];
    assert a in [c, b, a];
  }

  lemma ChainSelects(
      objectives: seq<Objective>, config: Config, i: nat, missing: Option<Objective>,
      a: Prediction, b: Prediction, c: Prediction)
    requires i < Reach(objectives) && Chained(config, objectives[i], missing, a, b, c)
    requires a.candidateId == "a" && b.candidateId == "b" && c.candidateId == "c"
    requires forall p :: p in [c, b, a] ==> Plain(p, objectives)
    requires missing.Some? ==> missing.value !in objectives[..i + 1] && missing.value in objectives[..Reach(objectives)]
    requires missing.None? <==> Reach(objectives) == |objectives|
    ensures var r := Replay(Recorded([c, b, a], "c"), objectives, OPEN, config);
            r.Ok? && r.value.selected == "b" && r.value.baseline == "c"
  {
    hide Reach, Chained, Eliminate, Plain, Baseline, Replay, Recorded, DistinctCandidates;
    RecordedHolds([c, b, a], "c");
    ThreeIds(a, b, c);
    ChainSelectsSecond(objectives, config, i, missing, a, b, c);
    OpenReplay(Recorded([c, b, a], "c"), objectives, config, c);
  }

  lemma ChainLoses(
      objectives: seq<Objective>, config: Config, i: nat, missing: Option<Objective>,
      a: Prediction, b: Prediction, c: Prediction)
    requires i < Reach(objectives) && Chained(config, objectives[i], missing, a, b, c)
    requires a.candidateId == "a" && b.candidateId == "b" && c.candidateId == "c"
    requires forall p :: p in [c, b, a] ==> Plain(p, objectives)
    requires Replay(Forget(Recorded([c, b, a], "c"), a), objectives, OPEN, config).Ok?
    ensures Replay(Forget(Recorded([c, b, a], "c"), a), objectives, OPEN, config).value.selected == "c"
  {
    hide Reach, Chained, Eliminate, Plain, Baseline, Replay, Recorded, Forget, DistinctCandidates;
    var record := Recorded([c, b, a], "c");
    RecordedHolds([c, b, a], "c");
    ThreeIds(a, b, c);
    EverybodyPasses([c, b], objectives);
    ForgottenRecord(record, a);
    ReplayFollowsElimination(Forget(record, a), objectives, OPEN, config);
    ChainLosesSecond(objectives, config, i, missing, a, b, c);
  }

  lemma RecordedHolds(s: seq<Prediction>, chosen: string)
    ensures Recorded(s, chosen).predictions == s
  {
  }

  lemma ForgottenRecord(record: JoinedRecord, d: Prediction)
    ensures Forget(record, d).predictions == Without(record.predictions, d)
    ensures Forget(record, d).decision == record.decision
  {
  }

  lemma ChainSelectsSecond(
      objectives: seq<Objective>, config: Config, i: nat, missing: Option<Objective>,
      a: Prediction, b: Prediction, c: Prediction)
    requires i < Reach(objectives) && Chained(config, objectives[i], missing, a, b, c)
    requires missing.Some? ==> missing.value !in objectives[..i + 1] && missing.value in objectives[..Reach(objectives)]
    requires missing.None? <==> Reach(objectives) == |objectives|
    ensures var x := Eliminate(config, objectives, |objectives|, [c, b, a]);
            x.Ok? && x.value.eligible != [] && x.value.eligible[0] == b
  {
    hide Reach, Chained, Eliminate;
    var n := Reach(objectives);
    ChainWithTop(config, objectives, i, n, missing, a, b, c);
    assert objectives[i] == objectives[..n][i];
    if n < |objectives| {
      StoppedForever(config, objectives, n, |objectives|, [c, b, a]);
    } else {
      assert objectives[..n] == objectives;
    }
  }

  lemma ChainLosesSecond(
      objectives: seq<Objective>, config: Config, i: nat, missing: Option<Objective>,
      a: Prediction, b: Prediction, c: Prediction)
    requires i < Reach(objectives) && Chained(config, objectives[i], missing, a, b, c)
    ensures var x := Eliminate(config, objectives, |objectives|, [c, b]); x.Ok? ==> x.value.eligible == [c, b]
  {
    hide Reach, Chained, Eliminate;
    ChainWithoutTop(config, objectives, objectives[i], Reach(objectives), missing, a, b, c);
    if Reach(objectives) < |objectives| {
      EnergyFails(config, objectives, [c, b]);
    }
  }

  lemma EnergyFails(config: Config, objectives: seq<Objective>, s: seq<Prediction>)
    requires Reach(objectives) < |objectives| && |s| > 1
    requires Eliminate(config, objectives, Reach(objectives), s).Ok?
    requires Eliminate(config, objectives, Reach(objectives), s).value.eligible == s
    ensures Eliminate(config, objectives, |objectives|, s).Err?
  {
    hide Eliminate, Reach;
    if Eliminate(config, objectives, |objectives|, s).Ok? {
      EnergyStops(config, objectives, s);
    }
  }

  lemma ReplayFollowsElimination(record: JoinedRecord, objectives: seq<Objective>, c: Constraints, config: Config)
    requires Replay(record, objectives, c, config).Ok?
    ensures var x := Eliminate(config, objectives, |objectives|, Passing(record.predictions, c));
            && x.Ok? && x.value.eligible != []
            && Replay(record, objectives, c, config).value.selected == x.value.eligible[0].candidateId
  {
    hide Eliminate, AllReasons, KnownValues, PotentialGain, ConstraintReasons, DistinctCandidates, WellValuedFor,
         Baseline;
    SomeoneSurvives(config, objectives, |objectives|, Passing(record.predictions, c));
  }

  lemma CandidatesArePlain(
      objectives: seq<Objective>, id: string, o: Objective, v: real, missing: Option<Objective>)
    requires v >= 0.0 && (o == Success ==> v <= 1.0)
    ensures Plain(Candidate(id, o, v, missing), objectives)
  {
    forall q | q in objectives ensures WellValued(Candidate(id, o, v, missing), q) {
      FigureIs(id, o, v, missing, q);
    }
  }

  lemma NotRobustDepends(objectives: seq<Objective>, config: Config)
    requires !Robust(objectives, config)
    ensures !Independent(objectives, config)
  {
    hide Reach, Exact, Tolerance, Chained, Candidate, Edge, Plain;
    var n := Reach(objectives);
    var i :| 0 <= i < n && !Exact(config, objectives[i])
             && (n == |objectives| || exists j :: i < j < n && objectives[j] !in objectives[..i + 1]);
    var o, missing: Option<Objective> := objectives[i], None;
    if n < |objectives| {
      var j :| i < j < n && objectives[j] !in objectives[..i + 1];
      missing := Some(objectives[j]);
      assert objectives[j] == objectives[..n][j] && o == objectives[..i + 1][i];
    }
    CandidatesAreChained(config, o, missing);
    EdgesDiffer(config, o);
    var y := Edge(config, o, 1.0);
    var z := Edge(config, o, y);
    CandidatesArePlain(objectives, "a", o, 1.0, missing);
    CandidatesArePlain(objectives, "b", o, y, None);
    CandidatesArePlain(objectives, "c", o, z, None);
    var a, b, c := Candidate("a", o, 1.0, missing), Candidate("b", o, y, None), Candidate("c", o, z, None);
    Identified("a", o, 1.0, missing);
    Identified("b", o, y, None);
    Identified("c", o, z, None);
    ChainDepends(objectives, config, i, missing, a, b, c);
  }

  lemma Identified(id: string, o: Objective, v: real, missing: Option<Objective>)
    ensures Candidate(id, o, v, missing).candidateId == id
  {
  }

  /** Replay is independent of irrelevant candidates exactly under the policies that are robust. */
  lemma IndependentExactlyWhenRobust(objectives: seq<Objective>, config: Config)
    ensures Independent(objectives, config) <==> Robust(objectives, config)
  {
    hide Robust, Replay, SelectsTheSame;
    if Robust(objectives, config) {
      forall record, c, d | Irrelevant(record, objectives, c, config, d)
        ensures SelectsTheSame(record, Forget(record, d), objectives, c, config)
      {
        RobustSelectsTheSame(record, objectives, c, config, d);
      }
    } else {
      NotRobustDepends(objectives, config);
    }
  }

  lemma RobustSelectsTheSame(
      record: JoinedRecord, objectives: seq<Objective>, c: Constraints, config: Config, d: Prediction)
    requires Robust(objectives, config) && Irrelevant(record, objectives, c, config, d)
    ensures SelectsTheSame(record, Forget(record, d), objectives, c, config)
  {
    hide Replay, Robust, Forget;
    IrrelevantCandidatesDoNotMatter(record, objectives, c, config, d);
  }

  /** Without "energy" that means: every tolerance that applies is 0, or 1 on a value to be maximized. */
  lemma IndependentExactlyWhenExact(objectives: seq<Objective>, config: Config)
    requires Energy !in objectives
    ensures Independent(objectives, config) <==> forall o :: o in objectives ==> Exact(config, o)
  {
    hide Independent, Exact, Reach;
    IndependentExactlyWhenRobust(objectives, config);
    assert Reach(objectives) == |objectives|;
  }

  function Sample(id: string, success: real, latency: real): Prediction {
    Prediction(id, "snapshot", id, Performance(None, None, Some(latency), None, None),
               Reliability(Some(success), None, None, None), Cost(None, None, None, None, None),
               FutureState(None, None, None, None, None, None), 1.0, "model", "routing", map[], "none", [])
  }

  const LOOSE: Config := Tolerances(0.03, 0.0, 0.0, 0.0)

  /** Without "a", the success gate admits the faster "c", which then wins over "b". */
  lemma ToleranceMakesOthersMatter()
    ensures var a, b, c := Sample("a", 0.97, 3.0), Sample("b", 0.95, 2.0), Sample("c", 0.93, 1.0);
            var record := Recorded([c, b, a], "b");
            var before, after := Replay(record, [Success, Latency], OPEN, LOOSE),
                Replay(Forget(record, a), [Success, Latency], OPEN, LOOSE);
            && before.Ok? && before.value.selected == before.value.baseline == "b"
            && after.Ok? && after.value.selected == "c" && after.value.baseline == "b"
  {
    hide Eliminate, Filter, Replay, Baseline, Plain, DistinctCandidates;
    var a, b, c := Sample("a", 0.97, 3.0), Sample("b", 0.95, 2.0), Sample("c", 0.93, 1.0);
    var objectives := [Success, Latency];
    ThreeIds(a, b, c);
    SampleIsPlain("a", 0.97, 3.0);
    SampleIsPlain("b", 0.95, 2.0);
    SampleIsPlain("c", 0.93, 1.0);
    var record := Recorded([c, b, a], "b");
    ForgottenRecord(record, a);
    SlowSampleHidesFastest(a, b, c);
    FastestSampleWins(b, c);
    OpenReplay(record, objectives, LOOSE, b);
    WithoutStaysDistinct([c, b, a], a);
    BaselineSurvivesDeletion(record.decision.selectedAction, [c, b, a], a);
    OpenReplay(Forget(record, a), objectives, LOOSE, b);
  }

  lemma SampleIsPlain(id: string, success: real, latency: real)
    requires 0.0 <= success <= 1.0 && 0.0 <= latency
    ensures Plain(Sample(id, success, latency), [Success, Latency])
  {
  }

  lemma SlowSampleHidesFastest(a: Prediction, b: Prediction, c: Prediction)
    requires a == Sample("a", 0.97, 3.0) && b == Sample("b", 0.95, 2.0) && c == Sample("c", 0.93, 1.0)
    ensures var x := Eliminate(LOOSE, [Success, Latency], 2, [c, b, a]); x.Ok? && x.value.eligible == [b]
  {
    hide Eliminate, Filter;
    FilterThree(c, b, a, Survivor(LOOSE, Success, 0.97));
    FilterTwo(b, a, Survivor(LOOSE, Latency, 2.0));
    TwoStages(LOOSE, [c, b, a], a, 0.97, [b, a], b, 2.0, [b]);
  }

  lemma FastestSampleWins(b: Prediction, c: Prediction)
    requires b == Sample("b", 0.95, 2.0) && c == Sample("c", 0.93, 1.0)
    ensures var x := Eliminate(LOOSE, [Success, Latency], 2, [c, b]); x.Ok? && x.value.eligible == [c]
  {
    hide Eliminate, Filter;
    FilterTwo(c, b, Survivor(LOOSE, Success, 0.95));
    FilterTwo(c, b, Survivor(LOOSE, Latency, 1.0));
    TwoStages(LOOSE, [c, b], b, 0.95, [c, b], c, 1.0, [c]);
  }

  lemma TwoStages(
      config: Config, all: seq<Prediction>, top: Prediction, success: real, left: seq<Prediction>,
      fastest: Prediction, latency: real, final: seq<Prediction>)
    requires IsBest(all, Success, top, success) && IsBest(left, Latency, fastest, latency) && |left| > 1
    requires Filter(all, Survivor(config, Success, success)) == left
    requires Filter(left, Survivor(config, Latency, latency)) == final
    ensures var x := Eliminate(config, [Success, Latency], 2, all); x.Ok? && x.value.eligible == final
  {
    hide Survivor;
    StageIs(config, Success, Staged(all, []), top, success);
    var x := RunStage(config, Success, Staged(all, [])).value;
    StageIs(config, Latency, x, fastest, latency);
    hide RunStage;
    assert Eliminate(config, [Success, Latency], 0, all) == Ok(Staged(all, []));
    assert Eliminate(config, [Success, Latency], 1, all) == Ok(x);
  }
}
