/**
 * How the trainer sizes its train and test partitions (trainer.py, the
 * start of `Trainer.__init__`). The engine's random split is a parameter:
 * given a split request it yields the row counts of the two partitions.
 */
module Splitting {
  import opened Outcomes

  /** Row counts of the train and test partitions. */
  datatype Partition = Partition(train: nat, test: nat)

  /** A call of `DataFrame.randomSplit(weights, seed)`. */
  datatype SplitRequest = SplitRequest(weights: seq<real>, seed: Option<int>)

  /** Where the engine refuses a request the trainer makes. */
  datatype SplitError =
    | NegativeWeight  // randomSplit refuses a negative weight
    | NegativeLimit   // limit refuses a negative row count

  /** The hard-coded split used when a dataset size is configured. */
  const FixedWeights: seq<real> := [0.5, 0.1]
  const FixedSeed: int := 1234

  /** The unseeded split by the configured train percentage. */
  function RatioRequest(split: int): SplitRequest
  {
    SplitRequest([split as real / 100.0, (100 - split) as real / 100.0], None)
  }

  function FixedRequest(): SplitRequest
  {
    SplitRequest(FixedWeights, Some(FixedSeed))
  }

  /** Python's `int(a / b)`: the quotient truncated toward zero. */
  function TruncDiv(a: int, b: int): (q: int)
    requires b > 0
    ensures a >= 0 ==> 0 <= q * b <= a < q * b + b
    ensures a < 0 ==> q * b - b < a <= q * b <= 0
  {
    if a >= 0 then
      DivBounds(a, b);
      a / b
    else
      DivBounds(-a, b);
      -((-a) / b)
  }

  /** Euclidean division of a non-negative dividend brackets it between multiples of b. */
  lemma DivBounds(a: int, b: int)
    requires a >= 0 && b > 0
    ensures 0 <= (a / b) * b <= a < (a / b) * b + b
  {
    var q, r := a / b, a % b;
    assert a == b * q + r && 0 <= r < b;
    assert q >= 0;
  }

  /** Row cap of the train partition: `int(dataset_size * split / 100)`. */
  function TrainCap(datasetSize: nat, split: int): int
  {
    TruncDiv(datasetSize * split, 100)
  }

  /** Row cap of the test partition: `int(dataset_size * (100 - split) / 100)`. */
  function TestCap(datasetSize: nat, split: int): int
  {
    TruncDiv(datasetSize * (100 - split), 100)
  }

  /** `DataFrame.limit(n)` on a partition of `rows` rows: cap, never pad. */
  function Limit(rows: nat, n: int): (r: Result<nat, SplitError>)
    ensures r.Ok? <==> n >= 0
    ensures r.Ok? ==> r.value <= rows && r.value <= n && (r.value == rows || r.value == n)
  {
    if n < 0 then Err(NegativeLimit) else if rows <= n then Ok(rows) else Ok(n)
  }

  /** `DataFrame.randomSplit`: refuses negative weights, otherwise asks the engine. */
  function RandomSplit(engine: SplitRequest -> Partition, req: SplitRequest): (r: Result<Partition, SplitError>)
    ensures r.Ok? <==> forall i :: 0 <= i < |req.weights| ==> req.weights[i] >= 0.0
    ensures r.Ok? ==> r.value == engine(req)
  {
    if exists i :: 0 <= i < |req.weights| && req.weights[i] < 0.0 then Err(NegativeWeight)
    else Ok(engine(req))
  }

  /**
   * The partitions the trainer ends up with. A dataset size of 0 means an
   * uncapped split by the configured percentage; otherwise the fixed seeded
   * 0.5/0.1 split is taken and each side is limited to its cap.
   */
  function SplitSizes(datasetSize: nat, split: int, engine: SplitRequest -> Partition): Result<Partition, SplitError>
  {
    if datasetSize == 0 then
      RandomSplit(engine, RatioRequest(split))
    else
      match RandomSplit(engine, FixedRequest())
      case Err(e) => Err(e)
      case Ok(p) =>
        match Limit(p.train, TrainCap(datasetSize, split))
        case Err(e) => Err(e)
        case Ok(train) =>
          match Limit(p.test, TestCap(datasetSize, split))
          case Err(e) => Err(e)
          case Ok(test) => Ok(Partition(train, test))
  }

  /** With no dataset size the engine's ratio split is used as it is, uncapped. */
  lemma UncappedWithoutDatasetSize(split: int, engine: SplitRequest -> Partition)
    ensures 0 <= split <= 100 ==> SplitSizes(0, split, engine) == Ok(engine(RatioRequest(split)))
    ensures !(0 <= split <= 100) ==> SplitSizes(0, split, engine) == Err(NegativeWeight)
  {
    var w := RatioRequest(split).weights;
    if split < 0 {
      assert w[0] < 0.0;
    } else if split > 100 {
      assert w[1] < 0.0;
    }
  }

  /**
   * With a dataset size and a percentage in range, each partition holds the
   * smaller of what the seeded split produced and the exact integer floor of
   * its share of the dataset size: the cap is reached only when there are
   * enough rows, and missing rows are never padded.
   */
  lemma CappedSplit(datasetSize: nat, split: int, engine: SplitRequest -> Partition)
    requires datasetSize > 0 && 0 <= split <= 100
    ensures var avail := engine(FixedRequest());
      var trainCap := datasetSize * split / 100;
      var testCap := datasetSize * (100 - split) / 100;
      && SplitSizes(datasetSize, split, engine).Ok?
      && var p := SplitSizes(datasetSize, split, engine).value;
      && p.train == (if avail.train <= trainCap then avail.train else trainCap)
      && p.test == (if avail.test <= testCap then avail.test else testCap)
  {
    assert FixedRequest().weights[0] >= 0.0 && FixedRequest().weights[1] >= 0.0;
    MulNonNegative(datasetSize, split);
    MulNonNegative(datasetSize, 100 - split);
  }

  lemma MulNonNegative(x: int, y: int)
    requires x >= 0 && y >= 0
    ensures x * y >= 0
  {
  }

  /**
   * For a percentage in range the two caps together never exceed the dataset
   * size, and fall short of it by at most one row.
   */
  lemma CapsWithinDatasetSize(datasetSize: nat, split: int)
    requires 0 <= split <= 100
    ensures 0 <= TrainCap(datasetSize, split) && 0 <= TestCap(datasetSize, split)
    ensures datasetSize - 1 <= TrainCap(datasetSize, split) + TestCap(datasetSize, split) <= datasetSize
  {
    var a := datasetSize * split;
    var b := datasetSize * (100 - split);
    MulNonNegative(datasetSize, split);
    MulNonNegative(datasetSize, 100 - split);
    SharesAddUp(datasetSize, split);
    var q1, q2 := TrainCap(datasetSize, split), TestCap(datasetSize, split);
    assert 0 <= q1 * 100 <= a < q1 * 100 + 100;
    assert 0 <= q2 * 100 <= b < q2 * 100 + 100;
  }

  /** The two shares of the dataset size add up to all of it. */
  lemma SharesAddUp(datasetSize: nat, split: int)
    ensures datasetSize * split + datasetSize * (100 - split) == 100 * datasetSize
  {
  }

  /**
   * The trainer fails exactly when the engine is asked for a negative weight
   * (no dataset size, percentage outside 0..100) or a negative row count
   * (a dataset size whose share on either side truncates below zero).
   */
  lemma SplitFailsIff(datasetSize: nat, split: int, engine: SplitRequest -> Partition)
    ensures SplitSizes(datasetSize, split, engine).Err? <==>
      if datasetSize == 0 then split < 0 || 100 < split
      else datasetSize * split <= -100 || datasetSize * (100 - split) <= -100
  {
    if datasetSize == 0 {
      UncappedWithoutDatasetSize(split, engine);
    } else {
      assert FixedRequest().weights[0] >= 0.0 && FixedRequest().weights[1] >= 0.0;
      TruncDivNegative(datasetSize * split, 100);
      TruncDivNegative(datasetSize * (100 - split), 100);
    }
  }

  /** A truncated quotient is negative exactly when the dividend reaches -b. */
  lemma TruncDivNegative(a: int, b: int)
    requires b > 0
    ensures TruncDiv(a, b) < 0 <==> a <= -b
  {
    var q := TruncDiv(a, b);
    if a < 0 && q == 0 {
      assert -b < a;
    }
  }
}
