/**
 * `Trainer.__init__` of trainer.py as a state-changing object: the feature
 * subset records are shared, mutable objects; the trainer sizes its
 * partitions, runs the branch its `model` setting selects over every record,
 * annotates each record in place and lists the records in
 * `Visualize_Results`.
 */
module Orchestrator {
  import opened Outcomes
  import opened Algorithms
  import opened Splitting
  import opened Annotation

  /** The configuration values the trainer reads. */
  datatype Config = Config(model: string, splitSizeTrain: int, datasetSize: nat)

  /** What `Trainer.__init__` can raise. */
  datatype TrainerError =
    | SplitRefused(cause: SplitError)  // the engine refuses the split or the row limit
    | MissingVariables(index: nat)     // KeyError on `features['variables']` of record `index`
    | SummaryFieldsUnset               // AttributeError: the "all" summary reads `self.R2LR` etc. never assigned

  /** A feature-subset record: a dict owned by the caller and shared by reference. */
  class Record {
    var entries: Entries

    constructor (entries: Entries)
      ensures this.entries == entries
    {
      this.entries := entries;
    }
  }

  function Records(rs: seq<Record>): set<Record>
  {
    set r | r in rs
  }

  /** The contents of the records, position by position. */
  ghost function Snapshot(rs: seq<Record>): (es: seq<Entries>)
    reads Records(rs)
    ensures |es| == |rs|
    ensures forall i :: 0 <= i < |rs| ==> es[i] == rs[i].entries
  {
    seq(|rs|, i requires 0 <= i < |rs| reads Records(rs) => rs[i].entries)
  }

  /** What a branch loop changes: the records' contents, the summary fields and the trainer calls made so far. */
  datatype State = State(records: seq<Entries>, summary: map<Algorithm, Triple>, runs: seq<Run>)

  /** The four summary fields the "all" branch prints have all been assigned. */
  predicate SummaryFieldsSet(last: map<Algorithm, Triple>)
  {
    LinearRegression in last && RandomForest in last && DecisionTree in last && GradientBoostedTrees in last
  }

  class Trainer {
    const cfg: Config
    /** The feature-subset records (`self.X`); the same objects the caller holds. */
    const X: seq<Record>
    /** Row counts of `self.train` and `self.test` once the split is done. */
    var sizes: Option<Partition>
    /** `self.Visualize_Results`. */
    var visualizeResults: seq<Record>
    /** `self.R2X, self.maeX, self.rmseX` per algorithm X; absent until first assigned. */
    var lastTriples: map<Algorithm, Triple>
    /** Every training-method call made so far, in order. */
    ghost var runs: seq<Run>

    constructor (cfg: Config, X: seq<Record>)
      ensures this.cfg == cfg && this.X == X
      ensures sizes == None && visualizeResults == [] && lastTriples == map[] && runs == []
    {
      this.cfg := cfg;
      this.X := X;
      sizes := None;
      visualizeResults := [];
      lastTriples := map[];
      runs := [];
    }

    /** The part of the state a branch loop changes. */
    ghost function Observed(): State
      reads this`lastTriples, this`runs, Records(X)
    {
      State(Snapshot(X), lastTriples, runs)
    }

    /** Split the data into train and test partitions (`self.train`, `self.test`). */
    method Split(engine: SplitRequest -> Partition) returns (outcome: Outcome<TrainerError>)
      modifies this`sizes
      ensures match SplitSizes(cfg.datasetSize, cfg.splitSizeTrain, engine)
        case Ok(p) => outcome == Pass && sizes == Some(p)
        case Err(e) => outcome == Fail(SplitRefused(e)) && sizes == old(sizes)
    {
      match SplitSizes(cfg.datasetSize, cfg.splitSizeTrain, engine)
      case Ok(p) =>
        sizes := Some(p);
        outcome := Pass;
      case Err(e) =>
        outcome := Fail(SplitRefused(e));
    }

    /** The model switch and the branch it selects; see `Dispatched`. */
    method Dispatch(train: Trainers) returns (outcome: Outcome<TrainerError>)
      modifies this`visualizeResults, this`lastTriples, this`runs, Records(X)
      ensures Effect(Observed(), visualizeResults, outcome) == Dispatched(X, cfg.model, old(Observed()), train)
    {
      visualizeResults := [];
      var algs := Selected(cfg.model);
      if algs == [] {
        // "nothing was selected"
        return Pass;
      }
      outcome := RunSelected(algs, cfg.model == "all", train);
    }

    /**
     * A selected branch: the loop over the records, the copy of its results
     * into `Visualize_Results`, then, for "all", the summary, which reads the
     * four summary fields.
     */
    method RunSelected(algs: seq<Algorithm>, summarise: bool, train: Trainers) returns (outcome: Outcome<TrainerError>)
      requires visualizeResults == []
      modifies this`visualizeResults, this`lastTriples, this`runs, Records(X)
      ensures var k := FirstMissing(old(Snapshot(X)));
        && Observed() == AfterBranch(X, old(Observed()), AnnotatedAll(old(Snapshot(X)), algs, train), k, algs, train)
        && visualizeResults == (if k == |X| then X else [])
        && outcome == (if k < |X| then Fail(MissingVariables(k))
                       else if summarise && !SummaryFieldsSet(lastTriples) then Fail(SummaryFieldsUnset)
                       else Pass)
    {
      AnnotatedAllEach(Snapshot(X), algs, train);
      var count, failed := RunBranch(algs, train, AnnotatedAll(Snapshot(X), algs, train));
      if failed.Some? {
        return Fail(MissingVariables(failed.value));
      }
      assert X[..count] == X;
      Publish(X[..count]);
      if summarise && !SummaryFieldsSet(lastTriples) {
        outcome := Fail(SummaryFieldsUnset);
      } else {
        outcome := Pass;
      }
    }

    /** Append the branch's results to `Visualize_Results`, one by one. */
    method Publish(results: seq<Record>)
      modifies this`visualizeResults
      ensures visualizeResults == old(visualizeResults) + results
    {
      var j := 0;
      while j < |results|
        invariant 0 <= j <= |results|
        invariant visualizeResults == old(visualizeResults) + results[..j]
      {
        PrefixExtend(results, j);
        visualizeResults := visualizeResults + [results[j]];
        j := j + 1;
      }
    }

    /**
     * The loop of a branch: visit the records in order and collect them. A
     * record without a feature list stops the loop (the KeyError), leaving
     * the earlier records annotated.
     */
    method RunBranch(algs: seq<Algorithm>, train: Trainers, ghost after: seq<Entries>) returns (count: nat, failed: Option<nat>)
      requires AnnotatedEach(Snapshot(X), after, algs, train)
      modifies this`lastTriples, this`runs, Records(X)
      ensures var k := FirstMissing(old(Snapshot(X)));
        && failed == (if k < |X| then Some(k) else None)
        && count == k
        && Observed() == AfterBranch(X, old(Observed()), after, k, algs, train)
    {
      ghost var s0 := Observed();
      ghost var k := FirstMissing(s0.records);
      SnapshotConsistent(X, s0.records, algs, train, after);
      var i := 0;
      while i < |X|
        invariant 0 <= i <= k
        invariant Observed() == AfterBranch(X, s0, after, i, algs, train)
      {
        var found := Visit(i, s0, after, algs, train);
        if !found {
          break;
        }
        i := i + 1;
      }
      count := i;
      failed := if i < |X| then Some(i) else None;
    }

    /**
     * One pass of a branch loop over record `i`: read its feature list (the
     * KeyError when it has none), run the selected trainers, keep their
     * triples in the summary fields and store them in the record.
     */
    method Visit(i: nat, ghost s0: State, ghost after: seq<Entries>, algs: seq<Algorithm>, train: Trainers) returns (found: bool)
      requires i < |X| && |s0.records| == |X| && i <= FirstMissing(s0.records)
      requires AnnotatedEach(s0.records, after, algs, train) && Consistent(X, after)
      requires Observed() == AfterBranch(X, s0, after, i, algs, train)
      modifies this`lastTriples, this`runs, X[i]
      ensures found == (i < FirstMissing(s0.records))
      ensures found ==> Observed() == AfterBranch(X, s0, after, i + 1, algs, train)
      ensures !found ==> Observed() == old(Observed())
    {
      var features := X[i];
      VisitStep(X, s0, after, i, Observed(), features.entries, algs, train);
      found := HasVariables(features.entries);
      if !found {
        return;
      }
      var variables := Variables(features.entries);
      var annotated := Annotate(features.entries, algs, train);
      Train(variables, algs, train);
      Store(i, annotated);
    }

    /** Run the selected trainers on one feature list and keep their triples. */
    method Train(variables: seq<string>, algs: seq<Algorithm>, train: Trainers)
      modifies this`lastTriples, this`runs
      ensures lastTriples == old(lastTriples) + LastTriples(variables, algs, train)
      ensures runs == old(runs) + RunsFor(variables, algs)
    {
      lastTriples := lastTriples + LastTriples(variables, algs, train);
      runs := runs + RunsFor(variables, algs);
    }

    /** Record `i` receives the contents `v`, seen at every position that lists the same record. */
    method Store(i: nat, v: Entries)
      requires i < |X|
      modifies X[i]
      ensures Snapshot(X) == Overwrite(X, old(Snapshot(X)), i, v)
    {
      X[i].entries := v;
    }
  }

  /** What the model switch leaves behind: the changed state, `Visualize_Results` and the outcome. */
  datatype Effect = Effect(state: State, results: seq<Record>, outcome: Outcome<TrainerError>)

  /**
   * The model switch from state `s`: an unknown setting runs nothing and
   * fails nothing; otherwise the selected branch runs over the records up to
   * `k`, the first record lacking a feature list, lists all records only if
   * there is none, and for "all" fails when the summary fields were never
   * assigned.
   */
  ghost function Dispatched(X: seq<Record>, model: string, s: State, train: Trainers): Effect
    requires |s.records| == |X|
  {
    var algs := Selected(model);
    if algs == [] then Effect(s, [], Pass)
    else
      var k := FirstMissing(s.records);
      var r := AfterBranch(X, s, AnnotatedAll(s.records, algs, train), k, algs, train);
      Effect(r, if k == |X| then X else [],
             if k < |X| then Fail(MissingVariables(k))
             else if model == "all" && !SummaryFieldsSet(r.summary) then Fail(SummaryFieldsUnset)
             else Pass)
  }

  /**
   * `Trainer.__init__`: keep the settings and the records, split the data,
   * then run the model switch; a refused split stops it before any record
   * is touched.
   */
  method Init(cfg: Config, X: seq<Record>, engine: SplitRequest -> Partition, train: Trainers)
    returns (t: Trainer, outcome: Outcome<TrainerError>)
    modifies Records(X)
    ensures fresh(t) && t.cfg == cfg && t.X == X
    ensures var s := State(old(Snapshot(X)), map[], []);
      match SplitSizes(cfg.datasetSize, cfg.splitSizeTrain, engine)
      case Err(e) =>
        outcome == Fail(SplitRefused(e)) && t.sizes == None && t.visualizeResults == [] && t.Observed() == s
      case Ok(p) =>
        t.sizes == Some(p) && Effect(t.Observed(), t.visualizeResults, outcome) == Dispatched(X, cfg.model, s, train)
  {
    t := new Trainer(cfg, X);
    outcome := t.Split(engine);
    if outcome.Fail? {
      return;
    }
    outcome := t.Dispatch(train);
  }

  /** Records listed twice hold the same contents. */
  ghost predicate Consistent(X: seq<Record>, es: seq<Entries>)
    requires |es| == |X|
  {
    forall a, b :: 0 <= a < |X| && 0 <= b < |X| && X[a] == X[b] ==> es[a] == es[b]
  }

  /** The contents after record `i` is overwritten with `v`: every position listing that record sees `v`. */
  function Overwrite(X: seq<Record>, es: seq<Entries>, i: nat, v: Entries): (r: seq<Entries>)
    requires |es| == |X| && i < |X|
    ensures |r| == |X|
  {
    seq(|X|, j requires 0 <= j < |X| => if X[j] == X[i] then v else es[j])
  }

  /** A record's contents once a branch has run on it. */
  function Annotated(e: Entries, algs: seq<Algorithm>, train: Trainers): Entries
  {
    if HasVariables(e) then Annotate(e, algs, train) else e
  }

  /** Every record annotated, position by position. */
  function AnnotatedAll(es: seq<Entries>, algs: seq<Algorithm>, train: Trainers): (r: seq<Entries>)
    ensures |r| == |es|
  {
    seq(|es|, j requires 0 <= j < |es| => Annotated(es[j], algs, train))
  }

  /** `after` holds each record of `before` annotated. */
  ghost predicate AnnotatedEach(before: seq<Entries>, after: seq<Entries>, algs: seq<Algorithm>, train: Trainers)
  {
    && |after| == |before|
    && forall j {:trigger Annotated(before[j], algs, train)} :: 0 <= j < |before| ==> after[j] == Annotated(before[j], algs, train)
  }

  lemma AnnotatedAllEach(es: seq<Entries>, algs: seq<Algorithm>, train: Trainers)
    ensures AnnotatedEach(es, AnnotatedAll(es, algs, train), algs, train)
  {
  }

  lemma SnapshotConsistent(X: seq<Record>, es: seq<Entries>, algs: seq<Algorithm>, train: Trainers, after: seq<Entries>)
    requires |es| == |X| && forall j :: 0 <= j < |X| ==> es[j] == X[j].entries
    requires AnnotatedEach(es, after, algs, train)
    ensures Consistent(X, after)
  {
    forall a, b | 0 <= a < |X| && 0 <= b < |X| && X[a] == X[b]
      ensures after[a] == after[b]
    {
      assert after[a] == Annotated(es[a], algs, train);
      assert after[b] == Annotated(es[b], algs, train);
    }
  }

  /**
   * The state after a branch loop has processed records 0..n-1, starting
   * from `s`, where `after` holds each record annotated: record by record,
   * the record takes its annotated contents, the summary fields take its
   * triples and its trainer calls are logged.
   */
  ghost function AfterBranch(X: seq<Record>, s: State, after: seq<Entries>, n: nat, algs: seq<Algorithm>, train: Trainers): (r: State)
    requires |s.records| == |X| && |after| == |X| && n <= FirstMissing(s.records)
    ensures |r.records| == |X|
    decreases n
  {
    if n == 0 then s
    else
      var prev := AfterBranch(X, s, after, n - 1, algs, train);
      var variables := Variables(s.records[n - 1]);
      State(Overwrite(X, prev.records, n - 1, after[n - 1]),
            prev.summary + LastTriples(variables, algs, train),
            prev.runs + RunsFor(variables, algs))
  }

  /**
   * After `n` records, a record holds its annotated contents if the loop has
   * visited it (at any of the positions listing it) and its original
   * contents otherwise.
   */
  lemma {:induction false} AfterBranchRecord(X: seq<Record>, s: State, after: seq<Entries>, n: nat, j: nat,
                                             algs: seq<Algorithm>, train: Trainers)
    requires |s.records| == |X| && |after| == |X| && n <= FirstMissing(s.records) && j < |X|
    requires Consistent(X, after)
    ensures AfterBranch(X, s, after, n, algs, train).records[j] == if X[j] in X[..n] then after[j] else s.records[j]
    decreases n
  {
    if n > 0 {
      AfterBranchRecord(X, s, after, n - 1, j, algs, train);
      PrefixExtend(X, n - 1);
    }
  }

  /**
   * Later records overwrite the summary fields of earlier ones: after `n > 0`
   * records the fields hold the triples of record `n - 1` for the selected
   * algorithms, and whatever they held before for the others.
   */
  lemma {:induction false} AfterBranchSummary(X: seq<Record>, s: State, after: seq<Entries>, n: nat, algs: seq<Algorithm>, train: Trainers)
    requires |s.records| == |X| && |after| == |X| && n <= FirstMissing(s.records)
    ensures AfterBranch(X, s, after, n, algs, train).summary ==
      if n == 0 then s.summary else s.summary + LastTriples(Variables(s.records[n - 1]), algs, train)
    decreases n
  {
    if n > 1 {
      AfterBranchSummary(X, s, after, n - 1, algs, train);
      var v1, v2 := Variables(s.records[n - 2]), Variables(s.records[n - 1]);
      LastTriplesOverride(s.summary, v1, v2, algs, train);
    }
  }

  /** The trainer calls of the first `n` records, record after record, each in the branch's order. */
  lemma {:induction false} AfterBranchRuns(X: seq<Record>, s: State, after: seq<Entries>, n: nat, algs: seq<Algorithm>, train: Trainers)
    requires |s.records| == |X| && |after| == |X| && n <= FirstMissing(s.records)
    ensures AllHaveVariables(s.records[..n])
    ensures AfterBranch(X, s, after, n, algs, train).runs == s.runs + RunsOf(s.records[..n], algs)
    decreases n
  {
    if n > 0 {
      AfterBranchRuns(X, s, after, n - 1, algs, train);
      RunsOfSnoc(s.records, n - 1, algs);
    }
  }

  /**
   * The records after the model switch, with `k` the first record lacking a
   * feature list: when a branch ran, a record listed among the first `k`
   * positions (at whatever position it is seen) has the selected algorithms'
   * metrics added; every other record, and every record when nothing was
   * selected, keeps its contents.
   */
  lemma DispatchRecords(X: seq<Record>, model: string, s: State, train: Trainers, j: nat)
    requires |s.records| == |X| && Consistent(X, s.records) && j < |X|
    ensures var algs := Selected(model);
      var k := FirstMissing(s.records);
      var r := Dispatched(X, model, s, train).state.records;
      && |r| == |X|
      && (algs != [] && X[j] in X[..k] ==> HasVariables(s.records[j]) && r[j] == Annotate(s.records[j], algs, train))
      && (algs == [] || X[j] !in X[..k] ==> r[j] == s.records[j])
  {
    var algs := Selected(model);
    if algs != [] {
      var k := FirstMissing(s.records);
      var after := AnnotatedAll(s.records, algs, train);
      assert Consistent(X, after);
      AfterBranchRecord(X, s, after, k, j, algs, train);
      if X[j] in X[..k] {
        var p :| 0 <= p < k && X[..k][p] == X[j];
        assert s.records[p] == s.records[j];
      }
    }
  }

  /**
   * Once the "all" branch has processed a record, all four summary fields
   * have been assigned, so its summary print can read them.
   */
  lemma AllBranchAssignsSummary(X: seq<Record>, s: State, after: seq<Entries>, n: nat, train: Trainers)
    requires |s.records| == |X| && |after| == |X| && 0 < n <= FirstMissing(s.records)
    ensures SummaryFieldsSet(AfterBranch(X, s, after, n, Selected("all"), train).summary)
  {
    var algs := Selected("all");
    AfterBranchSummary(X, s, after, n, algs, train);
    var last := LastTriples(Variables(s.records[n - 1]), algs, train);
    assert LinearRegression in last && RandomForest in last && DecisionTree in last && GradientBoostedTrees in last;
  }

  /**
   * The outcome of `model == "all"` on a fresh trainer: the KeyError of the
   * first record lacking a feature list, else the AttributeError exactly
   * when there are no records, since the summary fields it prints are only
   * assigned inside the loop.
   */
  lemma AllBranchOutcome(X: seq<Record>, s: State, train: Trainers)
    requires |s.records| == |X| && s.summary == map[]
    ensures var k := FirstMissing(s.records);
      Dispatched(X, "all", s, train).outcome
        == if k < |X| then Fail(MissingVariables(k)) else if |X| == 0 then Fail(SummaryFieldsUnset) else Pass
  {
    var k := FirstMissing(s.records);
    var algs := Selected("all");
    if k == |X| && 0 < |X| {
      AllBranchAssignsSummary(X, s, AnnotatedAll(s.records, algs, train), k, train);
    }
  }

  /** Records listed at two positions show the same contents at both. */
  lemma SnapshotIsConsistent(rs: seq<Record>)
    ensures Consistent(rs, Snapshot(rs))
  {
  }

  lemma PrefixExtend<T>(s: seq<T>, i: nat)
    requires i < |s|
    ensures s[..i + 1] == s[..i] + [s[i]]
  {
  }

  /**
   * The step of the branch loop at record `i`, seen from the state `cur` the
   * loop has reached: the record's current contents `e` carry a feature list
   * exactly when `i` is before the first record lacking one, and then
   * running the trainers on it and storing the annotated contents reaches
   * the next state.
   */
  lemma VisitStep(X: seq<Record>, s0: State, after: seq<Entries>, i: nat, cur: State, e: Entries,
                  algs: seq<Algorithm>, train: Trainers)
    requires i < |X| && |s0.records| == |X| && i <= FirstMissing(s0.records)
    requires AnnotatedEach(s0.records, after, algs, train) && Consistent(X, after)
    requires cur == AfterBranch(X, s0, after, i, algs, train) && e == cur.records[i]
    ensures HasVariables(e) == (i < FirstMissing(s0.records))
    ensures HasVariables(e) ==>
      var variables := Variables(e);
      AfterBranch(X, s0, after, i + 1, algs, train)
        == State(Overwrite(X, cur.records, i, Annotate(e, algs, train)),
                 cur.summary + LastTriples(variables, algs, train),
                 cur.runs + RunsFor(variables, algs))
  {
    AfterBranchRecord(X, s0, after, i, i, algs, train);
    Revisit(X, s0.records, after, i, e, algs, train);
  }

  /**
   * What record `i` holds when the loop reaches it: its original contents, or,
   * when it is listed earlier too, the annotated ones; either way annotating
   * it gives the same contents.
   */
  lemma Revisit(X: seq<Record>, before: seq<Entries>, after: seq<Entries>, i: nat, cur: Entries, algs: seq<Algorithm>, train: Trainers)
    requires i < |X| && |before| == |X| && AnnotatedEach(before, after, algs, train)
    requires cur == if X[i] in X[..i] then after[i] else before[i]
    ensures HasVariables(cur) == HasVariables(before[i])
    ensures HasVariables(cur) ==> Variables(cur) == Variables(before[i]) && Annotate(cur, algs, train) == after[i]
  {
    assert after[i] == Annotated(before[i], algs, train);
    if HasVariables(before[i]) {
      AnnotateIdempotent(before[i], algs, train);
    }
  }
}
