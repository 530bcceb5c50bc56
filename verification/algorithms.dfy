/**
 * The four regression algorithms the trainer knows, the metric triple each
 * training run produces, and the record keys under which a triple is stored
 * (`R2LR`, `maeRF`, `rmseGBR`, ...).
 */
module Algorithms {

  datatype Algorithm = LinearRegression | RandomForest | DecisionTree | GradientBoostedTrees

  /** The three metrics returned by `Trainer.metrics`, in its return order. */
  datatype Metric = R2 | Mae | Rmse

  const AllMetrics: seq<Metric> := [R2, Mae, Rmse]

  /**
   * The (R2, mae, rmse) triple a trainer returns. The values come from Spark's
   * RegressionEvaluator and are never computed with here, so `real` only
   * stands for an opaque number.
   */
  datatype Triple = Triple(r2: real, mae: real, rmse: real)

  /**
   * One run of `<algorithm>_train(features)`: Spark builds the algorithm's
   * pipeline over the record's `variables`, cross-validates it on the train
   * partition and scores it on the test partition. Opaque to this model.
   */
  type Trainers = (Algorithm, seq<string>) -> Triple

  function Measure(t: Triple, m: Metric): real
  {
    match m
    case R2 => t.r2
    case Mae => t.mae
    case Rmse => t.rmse
  }

  /** The key suffix the orchestrator uses for each algorithm. */
  function Suffix(a: Algorithm): string
  {
    match a
    case LinearRegression => "LR"
    case RandomForest => "RF"
    case DecisionTree => "DT"
    case GradientBoostedTrees => "GBR"
  }

  function MetricName(m: Metric): string
  {
    match m
    case R2 => "R2"
    case Mae => "mae"
    case Rmse => "rmse"
  }

  /** The record key a metric of an algorithm is written under. */
  function MetricKey(m: Metric, a: Algorithm): string
  {
    MetricName(m) + Suffix(a)
  }

  /** The three keys one algorithm writes into a record. */
  function MetricKeys(a: Algorithm): set<string>
  {
    {MetricKey(R2, a), MetricKey(Mae, a), MetricKey(Rmse, a)}
  }

  /** Different (metric, algorithm) pairs are written under different keys. */
  lemma MetricKeyInjective(m1: Metric, a1: Algorithm, m2: Metric, a2: Algorithm)
    requires MetricKey(m1, a1) == MetricKey(m2, a2)
    ensures m1 == m2 && a1 == a2
  {
    var k := MetricKey(m1, a1);
    assert k[0] == MetricName(m1)[0] == MetricName(m2)[0];
    var n := |MetricName(m1)|;
    assert k[n..] == Suffix(a1) && k[n..] == Suffix(a2);
    assert Suffix(a1)[0] == Suffix(a2)[0];
  }

  /** No metric key can overwrite the feature list of a record. */
  lemma MetricKeyIsNotVariables(m: Metric, a: Algorithm)
    ensures MetricKey(m, a) != "variables"
  {
    assert MetricKey(m, a)[0] != "variables"[0];
  }

  /** Each algorithm adds exactly three keys, and no two algorithms share one. */
  lemma MetricKeysDisjoint(a: Algorithm, b: Algorithm)
    ensures |MetricKeys(a)| == 3
    ensures a != b ==> MetricKeys(a) !! MetricKeys(b)
  {
    forall m1, m2 | MetricKey(m1, a) == MetricKey(m2, a) ensures m1 == m2 {
      MetricKeyInjective(m1, a, m2, a);
    }
    forall m1, m2 | MetricKey(m1, a) == MetricKey(m2, b) ensures a == b {
      MetricKeyInjective(m1, a, m2, b);
    }
  }
}
