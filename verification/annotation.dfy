/**
 * The value-level part of the orchestrator in `Trainer.__init__`: which
 * algorithms a `model` setting selects, how a feature-subset record is
 * annotated with the metric triples, and the sequence of trainer runs.
 */
module Annotation {
  import opened Algorithms

  /** A value stored in a feature-subset record. */
  datatype Value = Columns(names: seq<string>) | Number(x: real) | Text(s: string)

  /** The contents of one feature-subset record (a Python dict). */
  type Entries = map<string, Value>

  const VariablesKey: string := "variables"

  /** The record names the predictor columns its trainers read. */
  predicate HasVariables(e: Entries)
  {
    VariablesKey in e && e[VariablesKey].Columns?
  }

  function Variables(e: Entries): seq<string>
    requires HasVariables(e)
  {
    e[VariablesKey].names
  }

  ghost predicate NoDuplicates<T>(s: seq<T>)
  {
    forall i, j :: 0 <= i < j < |s| ==> s[i] != s[j]
  }

  /**
   * The string switch on the `model` setting: the algorithms its branch runs
   * for each record, in the order it runs them. Unknown settings select none.
   */
  function Selected(model: string): (algs: seq<Algorithm>)
  {
    if model == "linear_regression" then [LinearRegression]
    else if model == "gradient_boosted_tree_regression" then [GradientBoostedTrees]
    else if model == "random_forest" then [RandomForest]
    else if model == "decision_tree_regression" then [DecisionTree]
    else if model == "all" then [LinearRegression, RandomForest, DecisionTree, GradientBoostedTrees]
    else []
  }

  /**
   * The switch selects distinct algorithms, all four exactly for "all", and
   * none for a setting it does not name.
   */
  lemma SelectedSwitch(model: string)
    ensures NoDuplicates(Selected(model))
    ensures |Selected(model)| == 4 <==> model == "all"
    ensures Selected(model) == [] <==>
      model !in {"linear_regression", "gradient_boosted_tree_regression", "random_forest", "decision_tree_regression", "all"}
  {
  }

  /** Every key any of the algorithms writes. */
  function KeysOf(algs: seq<Algorithm>): set<string>
  {
    set a, m | a in algs && m in AllMetrics :: MetricKey(m, a)
  }

  /** The three writes `features['R2X'] = ...; features['maeX'] = ...; features['rmseX'] = ...`. */
  function Write(e: Entries, a: Algorithm, t: Triple): Entries
  {
    e[MetricKey(R2, a) := Number(t.r2)][MetricKey(Mae, a) := Number(t.mae)][MetricKey(Rmse, a) := Number(t.rmse)]
  }

  /**
   * The record after its branch has run each selected trainer on its
   * variables and written the triple back under that algorithm's keys.
   */
  function Annotate(e: Entries, algs: seq<Algorithm>, train: Trainers): (r: Entries)
    requires HasVariables(e)
    ensures HasVariables(r) && Variables(r) == Variables(e)
  {
    AnnotateKeepsVariables(e, Variables(e), algs, train);
    AnnotateWith(e, Variables(e), algs, train)
  }

  /** Writes the triples of `algs`, in order, for the feature list `variables`. */
  function AnnotateWith(e: Entries, variables: seq<string>, algs: seq<Algorithm>, train: Trainers): Entries
    decreases |algs|
  {
    if algs == [] then e
    else AnnotateWith(Write(e, algs[0], train(algs[0], variables)), variables, algs[1..], train)
  }

  lemma {:induction false} AnnotateKeepsVariables(e: Entries, variables: seq<string>, algs: seq<Algorithm>, train: Trainers)
    requires HasVariables(e)
    ensures var r := AnnotateWith(e, variables, algs, train); HasVariables(r) && Variables(r) == Variables(e)
    decreases |algs|
  {
    if algs != [] {
      var a := algs[0];
      MetricKeyIsNotVariables(R2, a);
      MetricKeyIsNotVariables(Mae, a);
      MetricKeyIsNotVariables(Rmse, a);
      AnnotateKeepsVariables(Write(e, a, train(a, variables)), variables, algs[1..], train);
    }
  }

  lemma KeysOfCons(algs: seq<Algorithm>)
    requires algs != []
    ensures KeysOf(algs) == MetricKeys(algs[0]) + KeysOf(algs[1..])
  {
    forall k | k in KeysOf(algs) ensures k in MetricKeys(algs[0]) + KeysOf(algs[1..]) {
      var a, m :| a in algs && m in AllMetrics && k == MetricKey(m, a);
      if a != algs[0] { assert a in algs[1..]; }
    }
    assert AllMetrics[0] == R2 && AllMetrics[1] == Mae && AllMetrics[2] == Rmse;
  }

  /** A key written by `a` is in `KeysOf(algs)` only if `a` is one of `algs`. */
  lemma KeysOfOnly(algs: seq<Algorithm>, m: Metric, a: Algorithm)
    requires MetricKey(m, a) in KeysOf(algs)
    ensures a in algs
  {
    var b, n :| b in algs && n in AllMetrics && MetricKey(m, a) == MetricKey(n, b);
    MetricKeyInjective(m, a, n, b);
  }

  /** The three writes of one algorithm add its keys with the triple's values and touch nothing else. */
  lemma WriteContents(e: Entries, a: Algorithm, t: Triple)
    ensures Write(e, a, t).Keys == e.Keys + MetricKeys(a)
    ensures forall m :: Write(e, a, t)[MetricKey(m, a)] == Number(Measure(t, m))
    ensures forall k :: k in e && k !in MetricKeys(a) ==> Write(e, a, t)[k] == e[k]
  {
    forall m1, m2 | m1 != m2 ensures MetricKey(m1, a) != MetricKey(m2, a) {
      if MetricKey(m1, a) == MetricKey(m2, a) { MetricKeyInjective(m1, a, m2, a); }
    }
    forall m ensures Write(e, a, t)[MetricKey(m, a)] == Number(Measure(t, m)) {
      match m
      case R2 =>
      case Mae =>
      case Rmse =>
    }
  }

  /** Annotation with a non-empty list is one algorithm's writes followed by the rest. */
  lemma AnnotateStep(e: Entries, algs: seq<Algorithm>, train: Trainers)
    requires HasVariables(e) && algs != []
    ensures var e1 := Write(e, algs[0], train(algs[0], Variables(e)));
      && HasVariables(e1) && Variables(e1) == Variables(e)
      && Annotate(e, algs, train) == Annotate(e1, algs[1..], train)
  {
    MetricKeyIsNotVariables(R2, algs[0]);
    MetricKeyIsNotVariables(Mae, algs[0]);
    MetricKeyIsNotVariables(Rmse, algs[0]);
  }

  /**
   * What annotation does to a record: it gains exactly the metric keys of the
   * selected algorithms, each holding that algorithm's metric for the record's
   * variables, and every other entry (the variables included) is unchanged.
   */
  lemma AnnotateContents(e: Entries, algs: seq<Algorithm>, train: Trainers)
    requires HasVariables(e)
    ensures var r := Annotate(e, algs, train);
      && r.Keys == e.Keys + KeysOf(algs)
      && (forall a, m :: a in algs ==> MetricKey(m, a) in r && r[MetricKey(m, a)] == Number(Measure(train(a, Variables(e)), m)))
      && (forall k :: k in e && k !in KeysOf(algs) ==> k in r && r[k] == e[k])
  {
    var r := Annotate(e, algs, train);
    AnnotateKeys(e, algs, train);
    forall a, m | a in algs
      ensures MetricKey(m, a) in r && r[MetricKey(m, a)] == Number(Measure(train(a, Variables(e)), m))
    {
      AnnotateValue(e, algs, train, a, m);
    }
    forall k | k in e && k !in KeysOf(algs) ensures k in r && r[k] == e[k] {
      AnnotateKeeps(e, algs, train, k);
    }
  }

  lemma {:induction false} AnnotateKeys(e: Entries, algs: seq<Algorithm>, train: Trainers)
    requires HasVariables(e)
    ensures Annotate(e, algs, train).Keys == e.Keys + KeysOf(algs)
    decreases |algs|
  {
    if algs == [] {
      assert KeysOf(algs) == {};
    } else {
      var e1 := Write(e, algs[0], train(algs[0], Variables(e)));
      AnnotateStep(e, algs, train);
      WriteContents(e, algs[0], train(algs[0], Variables(e)));
      AnnotateKeys(e1, algs[1..], train);
      KeysOfCons(algs);
    }
  }

  lemma {:induction false} AnnotateValue(e: Entries, algs: seq<Algorithm>, train: Trainers, a: Algorithm, m: Metric)
    requires HasVariables(e) && a in algs
    ensures MetricKey(m, a) in Annotate(e, algs, train)
    ensures Annotate(e, algs, train)[MetricKey(m, a)] == Number(Measure(train(a, Variables(e)), m))
    decreases |algs|
  {
    var a0, rest := algs[0], algs[1..];
    var e1 := Write(e, a0, train(a0, Variables(e)));
    AnnotateStep(e, algs, train);
    AnnotateKeys(e, algs, train);
    KeysOfCons(algs);
    if a in rest {
      AnnotateValue(e1, rest, train, a, m);
    } else {
      WriteContents(e, a0, train(a0, Variables(e)));
      if MetricKey(m, a) in KeysOf(rest) { KeysOfOnly(rest, m, a); }
      AnnotateKeeps(e1, rest, train, MetricKey(m, a));
    }
  }

  lemma {:induction false} AnnotateKeeps(e: Entries, algs: seq<Algorithm>, train: Trainers, k: string)
    requires HasVariables(e) && k in e && k !in KeysOf(algs)
    ensures k in Annotate(e, algs, train) && Annotate(e, algs, train)[k] == e[k]
    decreases |algs|
  {
    if algs != [] {
      var e1 := Write(e, algs[0], train(algs[0], Variables(e)));
      AnnotateStep(e, algs, train);
      KeysOfCons(algs);
      WriteContents(e, algs[0], train(algs[0], Variables(e)));
      AnnotateKeeps(e1, algs[1..], train, k);
    }
  }

  /** Annotating twice is annotating once: a record listed twice ends up the same. */
  lemma AnnotateIdempotent(e: Entries, algs: seq<Algorithm>, train: Trainers)
    requires HasVariables(e)
    ensures Annotate(Annotate(e, algs, train), algs, train) == Annotate(e, algs, train)
  {
    var r := Annotate(e, algs, train);
    var rr := Annotate(r, algs, train);
    AnnotateContents(e, algs, train);
    AnnotateContents(r, algs, train);
    forall k | k in rr ensures rr[k] == r[k] {
      if k in KeysOf(algs) {
        var a, m :| a in algs && m in AllMetrics && k == MetricKey(m, a);
      }
    }
  }

  lemma KeysOfExcludes(algs: seq<Algorithm>, a: Algorithm)
    requires a !in algs
    ensures MetricKeys(a) !! KeysOf(algs)
  {
    forall k | k in MetricKeys(a) && k in KeysOf(algs) ensures false {
      var m :| m in AllMetrics && k == MetricKey(m, a);
      KeysOfOnly(algs, m, a);
    }
  }

  /** The algorithms are distinct, so their key sets do not overlap: 3 keys each. */
  lemma {:induction false} KeysOfSize(algs: seq<Algorithm>)
    requires NoDuplicates(algs)
    ensures |KeysOf(algs)| == 3 * |algs|
    decreases |algs|
  {
    if algs == [] {
      assert KeysOf(algs) == {};
    } else {
      var a0, rest := algs[0], algs[1..];
      assert NoDuplicates(rest) by {
        forall i, j | 0 <= i < j < |rest| ensures rest[i] != rest[j] {
          assert rest[i] == algs[i + 1] && rest[j] == algs[j + 1];
        }
      }
      KeysOfCons(algs);
      KeysOfSize(rest);
      MetricKeysDisjoint(a0, a0);
      assert a0 !in rest;
      KeysOfExcludes(rest, a0);
    }
  }

  /**
   * A record that carries no metric key yet gains exactly three new keys per
   * selected algorithm: 3 for a single-algorithm setting, 12 for "all".
   */
  lemma AnnotationAddsKeys(e: Entries, model: string, train: Trainers)
    requires HasVariables(e) && e.Keys !! KeysOf(Selected(model))
    ensures |Annotate(e, Selected(model), train).Keys - e.Keys| == 3 * |Selected(model)|
    ensures model == "all" ==> |Annotate(e, Selected(model), train).Keys - e.Keys| == 12
  {
    var algs := Selected(model);
    SelectedSwitch(model);
    AnnotateContents(e, algs, train);
    KeysOfSize(algs);
    assert Annotate(e, algs, train).Keys - e.Keys == KeysOf(algs);
  }

  /** One call of a training method: which algorithm, on which feature list. */
  datatype Run = Run(algorithm: Algorithm, variables: seq<string>)

  /** The trainer calls one record's branch makes, in order. */
  function RunsFor(variables: seq<string>, algs: seq<Algorithm>): (runs: seq<Run>)
    ensures |runs| == |algs|
  {
    seq(|algs|, j requires 0 <= j < |algs| => Run(algs[j], variables))
  }

  ghost predicate AllHaveVariables(es: seq<Entries>)
  {
    forall i :: 0 <= i < |es| ==> HasVariables(es[i])
  }

  /** The trainer calls of a branch over the records, record by record. */
  function RunsOf(es: seq<Entries>, algs: seq<Algorithm>): seq<Run>
    requires AllHaveVariables(es)
  {
    if es == [] then [] else RunsOf(es[..|es| - 1], algs) + RunsFor(Variables(es[|es| - 1]), algs)
  }

  lemma RunsOfSnoc(es: seq<Entries>, i: nat, algs: seq<Algorithm>)
    requires i < |es| && AllHaveVariables(es[..i + 1])
    ensures AllHaveVariables(es[..i])
    ensures RunsOf(es[..i + 1], algs) == RunsOf(es[..i], algs) + RunsFor(Variables(es[i]), algs)
  {
    assert es[..i + 1][..i] == es[..i];
  }

  /** A branch over `|es|` records makes `|algs|` trainer calls for each. */
  lemma {:induction false} RunsOfLength(es: seq<Entries>, algs: seq<Algorithm>)
    requires AllHaveVariables(es)
    ensures |RunsOf(es, algs)| == |es| * |algs|
    decreases |es|
  {
    if es != [] {
      var front := es[..|es| - 1];
      assert AllHaveVariables(front);
      RunsOfLength(front, algs);
      assert |es| * |algs| == |front| * |algs| + |algs|;
    }
  }

  lemma MulMonotone(a: nat, b: nat, c: nat)
    requires a <= b
    ensures a * c <= b * c
  {
  }

  /**
   * Records are processed one after the other and, for each, the trainers run
   * in the branch's order: run number i * |algs| + j is algorithm j on record i.
   */
  lemma {:induction false} RunsOfOrder(es: seq<Entries>, algs: seq<Algorithm>, i: nat, j: nat)
    requires AllHaveVariables(es) && i < |es| && j < |algs|
    ensures |RunsOf(es, algs)| == |es| * |algs|
    ensures i * |algs| + j < |RunsOf(es, algs)|
    ensures RunsOf(es, algs)[i * |algs| + j] == Run(algs[j], Variables(es[i]))
    decreases |es|
  {
    var n := |es| - 1;
    var front := es[..n];
    assert AllHaveVariables(front);
    RunsOfLength(es, algs);
    RunsOfLength(front, algs);
    var prefix := RunsOf(front, algs);
    var last := RunsFor(Variables(es[n]), algs);
    assert RunsOf(es, algs) == prefix + last;
    MulMonotone(i + 1, |es|, |algs|);
    if i < n {
      RunsOfOrder(front, algs, i, j);
      MulMonotone(i + 1, n, |algs|);
      assert (prefix + last)[i * |algs| + j] == prefix[i * |algs| + j];
    } else {
      assert i * |algs| + j == |prefix| + j;
      assert (prefix + last)[|prefix| + j] == last[j];
    }
  }

  /** Index of the first record without a feature list (the one a branch raises on), or |es|. */
  function FirstMissing(es: seq<Entries>): (k: nat)
    ensures k <= |es|
    ensures forall i :: 0 <= i < k ==> HasVariables(es[i])
    ensures k < |es| ==> !HasVariables(es[k])
  {
    if es == [] then 0
    else if !HasVariables(es[0]) then 0
    else 1 + FirstMissing(es[1..])
  }

  /** Later records overwrite the summary fields of earlier ones. */
  lemma LastTriplesOverride(m: map<Algorithm, Triple>, v1: seq<string>, v2: seq<string>, algs: seq<Algorithm>, train: Trainers)
    ensures (m + LastTriples(v1, algs, train)) + LastTriples(v2, algs, train) == m + LastTriples(v2, algs, train)
  {
  }

  /** The fields `self.R2X, self.maeX, self.rmseX` hold the triple of the last record processed. */
  function LastTriples(variables: seq<string>, algs: seq<Algorithm>, train: Trainers): (last: map<Algorithm, Triple>)
    ensures last.Keys == set a | a in algs
    ensures forall a :: a in algs ==> last[a] == train(a, variables)
  {
    map a | a in algs :: train(a, variables)
  }
}
