/**
 * What each `<algorithm>_train` method of trainer.py builds before handing it
 * to Spark: the pipeline stages, the hyperparameter grid, the evaluator and
 * the fold count of its CrossValidator. Fitting and scoring are not modelled.
 */
module Pipelines {
  import opened Algorithms

  /** The label column every regressor and evaluator uses. */
  const LabelColumn := "ArrDelay"
  const NumFolds: nat := 3

  /** Hyperparameters of the regressors that the trainer sets or tunes. */
  datatype Param = RegParam | FitIntercept | ElasticNetParam | MaxDepth | MaxBins | NumTrees | MaxIter

  datatype ParamValue = RealValue(r: real) | BoolValue(b: bool) | IntValue(i: int)

  /** One `ParamGridBuilder.addGrid(param, values)` call. */
  datatype GridAxis = GridAxis(param: Param, values: seq<ParamValue>)

  /** One hyperparameter combination, as `ParamGridBuilder.build` returns it. */
  type ParamMap = map<Param, ParamValue>

  /** The regressor stage; fixed (untuned) settings are carried here. */
  datatype Regressor =
    | LinearRegressor
    | DecisionTreeRegressor
    | RandomForestRegressor
    | GBTRegressor(maxIter: nat)

  datatype Stage =
    | Bucketizer     // the three categorical stages are built outside the trainer
    | VarIndexer
    | OneHotEncoder
    | VectorAssembler(inputCols: seq<string>, outputCol: string)
    | MinMaxScaler(inputCol: string, outputCol: string)
    | RegressorStage(regressor: Regressor, featuresCol: string, labelCol: string)

  datatype Evaluator = RegressionEvaluator(labelCol: string, predictionCol: string, metric: Metric)

  /** The CrossValidator each training method fits on the train partition. */
  datatype CrossValidator = CrossValidator(stages: seq<Stage>, grid: seq<GridAxis>, evaluator: Evaluator, numFolds: nat)

  /** Stages 1-5, shared by every algorithm. */
  function Preprocessing(variables: seq<string>): seq<Stage>
  {
    [Bucketizer, VarIndexer, OneHotEncoder, VectorAssembler(variables, "features"), MinMaxScaler("features", "scaled")]
  }

  function RegressorFor(a: Algorithm): Regressor
  {
    match a
    case LinearRegression => LinearRegressor
    case DecisionTree => DecisionTreeRegressor
    case RandomForest => RandomForestRegressor
    case GradientBoostedTrees => GBTRegressor(10)
  }

  function Ints(xs: seq<int>): seq<ParamValue>
  {
    seq(|xs|, i requires 0 <= i < |xs| => IntValue(xs[i]))
  }

  function GridFor(a: Algorithm): seq<GridAxis>
  {
    match a
    case LinearRegression =>
      [ GridAxis(RegParam, [RealValue(0.1), RealValue(0.01)]),
        GridAxis(FitIntercept, [BoolValue(false), BoolValue(true)]),
        GridAxis(ElasticNetParam, [RealValue(0.0), RealValue(1.0)]) ]
    case DecisionTree =>
      [ GridAxis(MaxDepth, Ints([2, 5, 10])),
        GridAxis(MaxBins, Ints([5, 10, 30])) ]
    case GradientBoostedTrees =>
      [ GridAxis(MaxDepth, Ints([2, 5, 10])),
        GridAxis(MaxBins, Ints([5, 10, 30])) ]
    case RandomForest =>
      [ GridAxis(MaxDepth, Ints([2, 5, 10])),
        GridAxis(MaxBins, Ints([5, 10, 30])),
        GridAxis(NumTrees, Ints([5, 20, 50])) ]
  }

  /** The cross-validated pipeline an algorithm's training method builds for a feature list. */
  function Setup(a: Algorithm, variables: seq<string>): CrossValidator
  {
    CrossValidator(
      Preprocessing(variables) + [RegressorStage(RegressorFor(a), "scaled", LabelColumn)],
      GridFor(a),
      RegressionEvaluator(LabelColumn, "prediction", Rmse),
      NumFolds)
  }

  /*
   * ParamGridBuilder.build: the cross product of the axes, as
   * `itertools.product` enumerates it (the first axis varies slowest).
   * The builder keys its axes by parameter, so this matches it only for
   * axes with distinct parameters, which every grid here has
   * (`GridsHaveDistinctParams`).
   */

  function BuildGrid(axes: seq<GridAxis>): seq<ParamMap>
  {
    if axes == [] then [map[]] else Extend(axes[0], BuildGrid(axes[1..]))
  }

  /** Every combination in `rest`, preceded by each value of `axis` in turn. */
  function Extend(axis: GridAxis, rest: seq<ParamMap>): seq<ParamMap>
    decreases |axis.values|
  {
    if axis.values == [] then []
    else
      seq(|rest|, j requires 0 <= j < |rest| => rest[j][axis.param := axis.values[0]])
      + Extend(GridAxis(axis.param, axis.values[1..]), rest)
  }

  /** Number of combinations an exhaustive search over the axes tries. */
  function GridSize(axes: seq<GridAxis>): nat
  {
    if axes == [] then 1 else |axes[0].values| * GridSize(axes[1..])
  }

  function Params(axes: seq<GridAxis>): set<Param>
  {
    set i | 0 <= i < |axes| :: axes[i].param
  }

  ghost predicate DistinctParams(axes: seq<GridAxis>)
  {
    forall i, j :: 0 <= i < j < |axes| ==> axes[i].param != axes[j].param
  }

  /** A combination that sets exactly the grid's parameters, each to one of its values. */
  ghost predicate InGrid(m: ParamMap, axes: seq<GridAxis>)
  {
    && m.Keys == Params(axes)
    && forall i :: 0 <= i < |axes| ==> m[axes[i].param] in axes[i].values
  }

  lemma {:induction false} ExtendLength(axis: GridAxis, rest: seq<ParamMap>)
    ensures |Extend(axis, rest)| == |axis.values| * |rest|
    decreases |axis.values|
  {
    if axis.values != [] {
      var tail := GridAxis(axis.param, axis.values[1..]);
      ExtendLength(tail, rest);
      assert |axis.values| * |rest| == |rest| + (|axis.values| - 1) * |rest|;
    }
  }

  /** The grid holds one entry per combination: the product of the axis lengths. */
  lemma {:induction false} BuildGridLength(axes: seq<GridAxis>)
    ensures |BuildGrid(axes)| == GridSize(axes)
  {
    if axes != [] {
      BuildGridLength(axes[1..]);
      ExtendLength(axes[0], BuildGrid(axes[1..]));
    }
  }

  lemma {:induction false} ExtendContains(axis: GridAxis, rest: seq<ParamMap>, v: ParamValue, m: ParamMap)
    requires v in axis.values && m in rest
    ensures m[axis.param := v] in Extend(axis, rest)
    decreases |axis.values|
  {
    if v != axis.values[0] {
      ExtendContains(GridAxis(axis.param, axis.values[1..]), rest, v, m);
    } else {
      var j :| 0 <= j < |rest| && rest[j] == m;
      var front := seq(|rest|, j requires 0 <= j < |rest| => rest[j][axis.param := axis.values[0]]);
      assert front[j] == m[axis.param := v];
    }
  }

  lemma {:induction false} ExtendFrom(axis: GridAxis, rest: seq<ParamMap>, m: ParamMap)
    requires m in Extend(axis, rest)
    ensures exists v, m0 :: v in axis.values && m0 in rest && m == m0[axis.param := v]
    decreases |axis.values|
  {
    var tail := GridAxis(axis.param, axis.values[1..]);
    var front := seq(|rest|, j requires 0 <= j < |rest| => rest[j][axis.param := axis.values[0]]);
    if m in front {
      var j :| 0 <= j < |front| && front[j] == m;
      assert axis.values[0] in axis.values && rest[j] in rest;
    } else {
      ExtendFrom(tail, rest, m);
      var v, m0 :| v in tail.values && m0 in rest && m == m0[axis.param := v];
      assert v in axis.values;
    }
  }

  /** Splitting off the first axis of a grid whose parameters are distinct. */
  lemma ParamsOfCons(axes: seq<GridAxis>)
    requires axes != [] && DistinctParams(axes)
    ensures DistinctParams(axes[1..])
    ensures Params(axes) == {axes[0].param} + Params(axes[1..])
    ensures axes[0].param !in Params(axes[1..])
  {
    var p, tail := axes[0].param, axes[1..];
    forall q | q in Params(axes) ensures q in {p} + Params(tail) {
      var i :| 0 <= i < |axes| && axes[i].param == q;
      if i > 0 { assert tail[i - 1].param == q; }
    }
    forall q | q in Params(tail) ensures q in Params(axes) && q != p {
      var i :| 0 <= i < |tail| && tail[i].param == q;
      assert axes[i + 1].param == q;
    }
  }

  lemma {:induction false} GridSound(axes: seq<GridAxis>, m: ParamMap)
    requires DistinctParams(axes) && m in BuildGrid(axes)
    ensures InGrid(m, axes)
  {
    if axes == [] {
      assert Params(axes) == {};
    } else {
      var p, tail := axes[0].param, axes[1..];
      ParamsOfCons(axes);
      ExtendFrom(axes[0], BuildGrid(tail), m);
      var v, m0 :| v in axes[0].values && m0 in BuildGrid(tail) && m == m0[p := v];
      GridSound(tail, m0);
      forall i | 0 <= i < |axes| ensures m[axes[i].param] in axes[i].values {
        if i > 0 { assert axes[i] == tail[i - 1]; }
      }
    }
  }

  /** A combination of the grid, less the first axis's parameter, is a combination of the other axes. */
  lemma InGridTail(axes: seq<GridAxis>, m: ParamMap)
    requires axes != [] && DistinctParams(axes) && InGrid(m, axes)
    ensures var p := axes[0].param;
      && DistinctParams(axes[1..])
      && InGrid(m - {p}, axes[1..])
      && m[p] in axes[0].values
      && m == (m - {p})[p := m[p]]
  {
    var p, tail := axes[0].param, axes[1..];
    ParamsOfCons(axes);
    var m0 := m - {p};
    assert m0.Keys == Params(tail);
    forall i | 0 <= i < |tail| ensures m0[tail[i].param] in tail[i].values {
      assert tail[i] == axes[i + 1];
      assert tail[i].param in Params(tail);
    }
  }

  lemma {:induction false} GridComplete(axes: seq<GridAxis>, m: ParamMap)
    requires DistinctParams(axes) && InGrid(m, axes)
    ensures m in BuildGrid(axes)
  {
    if axes == [] {
      assert Params(axes) == {};
      assert m == map[];
    } else {
      var p := axes[0].param;
      InGridTail(axes, m);
      GridComplete(axes[1..], m - {p});
      ExtendContains(axes[0], BuildGrid(axes[1..]), m[p], m - {p});
    }
  }

  /**
   * The search is exhaustive and exact: a combination is tried if and only if
   * it sets every parameter of the grid, and nothing else, to one of the
   * values listed for it.
   */
  lemma GridMembership(axes: seq<GridAxis>, m: ParamMap)
    requires DistinctParams(axes)
    ensures m in BuildGrid(axes) <==> InGrid(m, axes)
  {
    if m in BuildGrid(axes) { GridSound(axes, m); }
    if InGrid(m, axes) { GridComplete(axes, m); }
  }

  /**
   * Every algorithm's pipeline is the same five preprocessing stages followed
   * by its own regressor; the assembler reads the record's variables, the
   * scaler reads the assembler's output and the regressor the scaler's; all
   * use three folds and an RMSE evaluator on the label column.
   */
  lemma SharedPreprocessing(a: Algorithm, b: Algorithm, variables: seq<string>)
    ensures var cv := Setup(a, variables);
      && |cv.stages| == 6
      && cv.stages[..5] == Setup(b, variables).stages[..5]
      && cv.stages[3].inputCols == variables
      && cv.stages[4].inputCol == cv.stages[3].outputCol
      && cv.stages[5].featuresCol == cv.stages[4].outputCol
      && cv.stages[5].regressor == RegressorFor(a)
      && cv.stages[5].labelCol == cv.evaluator.labelCol == LabelColumn
      && cv.evaluator.metric == Rmse
      && cv.numFolds == 3
  {
  }

  /** Linear regression tries 2 x 2 x 2 = 8 combinations. */
  lemma LinearRegressionGridSize()
    ensures |BuildGrid(GridFor(LinearRegression))| == 8
  {
    BuildGridLength(GridFor(LinearRegression));
  }

  /** The decision tree tries 3 x 3 = 9 combinations. */
  lemma DecisionTreeGridSize()
    ensures |BuildGrid(GridFor(DecisionTree))| == 9
  {
    BuildGridLength(GridFor(DecisionTree));
  }

  /** Gradient-boosted trees try 3 x 3 = 9 combinations; `maxIter` is fixed at 10, not tuned. */
  lemma GradientBoostedTreesGridSize()
    ensures |BuildGrid(GridFor(GradientBoostedTrees))| == 9
    ensures RegressorFor(GradientBoostedTrees).maxIter == 10 && MaxIter !in Params(GridFor(GradientBoostedTrees))
  {
    BuildGridLength(GridFor(GradientBoostedTrees));
  }

  /** The random forest tries 3 x 3 x 3 = 27 combinations. */
  lemma RandomForestGridSize()
    ensures |BuildGrid(GridFor(RandomForest))| == 27
  {
    BuildGridLength(GridFor(RandomForest));
  }

  /** Every grid names each parameter once, so `GridMembership` applies to all four. */
  lemma GridsHaveDistinctParams(a: Algorithm)
    ensures DistinctParams(GridFor(a))
  {
  }
}
