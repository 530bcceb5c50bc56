# Trainer orchestration of Airbus_Big_Data, in Dafny

This project models the core of `trainer.py`: the constructor `Trainer.__init__`, which
sizes the train and test partitions and then runs the model switch. The switch picks
the regression algorithms named by the `model` setting and, for each feature-subset
record in `self.X`:

- runs the selected training methods;
- writes the returned (R2, mae, rmse) triple into the record under that algorithm's
  keys (`R2LR`, `maeRF`, `rmseGBR`, ...);
- collects the record.

The collected records are then copied into `Visualize_Results`. The model also covers
the pipeline and hyperparameter grid that each training method hands to its
cross-validator.

Modules:

- `Outcomes`: `Option`, `Result` and `Outcome` (pass, or fail with an error).
- `Algorithms`: the four algorithms, the three metrics and the key under which each
  (metric, algorithm) pair is stored. The training methods form one opaque function
  `Trainers` from an algorithm and a record's feature list to a metric triple.
- `Splitting`: the split sizing of trainer.py:36-45 as pure functions. The random
  split engine is a function parameter returning two row counts. `limit` keeps the
  smaller of the available rows and the cap, with Python's truncating `int()` written
  out as `TruncDiv`.
- `Pipelines`: the stage sequence, grid axes, evaluator and fold count of each
  algorithm, as data. `ParamGridBuilder.build` is modelled as a cross product.
- `Annotation`: the value-level logic of the switch:
  - which algorithms a setting selects, and in which order;
  - how a record's contents change when annotated;
  - the sequence of trainer calls.
- `Orchestrator`: the stateful part.
  - `Record` is a class holding a dict (`map<string, Value>`). Records are shared by
    reference between `self.X` and `Visualize_Results`, and the same record may be
    listed twice in `self.X`.
  - `Trainer` is a class with the fields the constructor assigns: `sizes`,
    `visualizeResults` and the summary fields `lastTriples`. A ghost field logs the
    trainer calls.
  - `Init` is `Trainer.__init__` itself.

The four per-algorithm branches and the "all" branch of the switch share one loop,
which runs `Selected(model)` for each record. `Dispatched` is the ghost specification
of the switch. `Trainer.Dispatch` and `Init` are proved to produce exactly its records,
summary fields, trainer-call log, `Visualize_Results` and outcome.

Error outcomes follow what the Python code raises:

- a record without a `variables` feature list stops the loop with a KeyError. Records
  before it stay annotated and `Visualize_Results` stays empty;
- the "all" summary print reads `self.R2LR` and the other summary fields. These are
  never assigned when `self.X` is empty, so that case raises an AttributeError;
- the split is refused when Spark is handed a negative weight or row count. Without a
  dataset size this happens exactly for a percentage outside 0..100. With a dataset
  size it happens exactly when `ds * split` or `ds * (100 - split)` is at most -100,
  because only a cap truncated below zero is refused. For example, ds = 50 and
  split = 101 give caps 50 and 0, and nothing is refused.

The code validates nothing before these errors; in particular it raises no
configuration error for a split percentage outside (0, 100). The model follows the
code, and an unknown `model` setting passes silently.

## Model

| member | source | states |
|---|---|---|
| Algorithms.MetricKeyInjective | trainer.py:63-65 | two (metric, algorithm) pairs share a key only if they are equal, so no write overwrites another algorithm's metric |
| Algorithms.MetricKeyIsNotVariables | trainer.py:63-65 | no metric key is `variables`, so annotation never overwrites the feature list |
| Algorithms.MetricKeysDisjoint | trainer.py:130-144 | each algorithm writes exactly three keys, disjoint from every other algorithm's |
| Splitting.TruncDiv | trainer.py:44-45 | Python's `int()` of a quotient truncates toward zero: bounds on both signs of the dividend |
| Splitting.TruncDivNegative | trainer.py:44-45 | a truncated cap is negative exactly when its dividend is at most -100 |
| Splitting.Limit | trainer.py:44-45 | `limit(n)` fails exactly for a negative n; otherwise it yields min(rows, n), so it never pads |
| Splitting.UncappedWithoutDatasetSize | trainer.py:36-38 | with `dataset_size == 0` the sizes are the engine's split by the configured ratio, uncapped; the split fails for a percentage outside 0..100 |
| Splitting.CappedSplit | trainer.py:39-45 | with a dataset size, train = min(available train, floor(ds*split/100)) and test = min(available test, floor(ds*(100-split)/100)) from the seeded 0.5/0.1 split |
| Splitting.CapsWithinDatasetSize | trainer.py:44-45 | for a percentage in 0..100 both caps are non-negative, and together they lie between ds-1 and ds |
| Splitting.SplitFailsIff | trainer.py:36-45 | the split fails exactly when a weight or a row cap is negative, characterised in terms of ds and split |
| Pipelines.BuildGridLength | trainer.py:212-216 | the grid built from the axes has one combination per element of their cross product |
| Pipelines.GridSound | trainer.py:212-216 | every built combination sets each grid parameter, and only those, to one of its listed values |
| Pipelines.GridComplete | trainer.py:212-216 | every such assignment of listed values appears in the built grid |
| Pipelines.GridMembership | trainer.py:212-216 | membership in the built grid is equivalent to being such an assignment |
| Pipelines.SharedPreprocessing | trainer.py:202-221 | every algorithm's pipeline is the same five preprocessing stages (assembler over the record's variables) followed by its regressor, wired features -> scaled, with an RMSE evaluator on ArrDelay and 3 folds |
| Pipelines.LinearRegressionGridSize | trainer.py:212-216 | the linear regression grid has 8 combinations |
| Pipelines.DecisionTreeGridSize | trainer.py:251-257 | the decision tree grid has 9 combinations |
| Pipelines.GradientBoostedTreesGridSize | trainer.py:287-297 | the GBT grid has 9 combinations; maxIter is fixed at 10 and is not a grid axis |
| Pipelines.RandomForestGridSize | trainer.py:332-339 | the random forest grid has 27 combinations |
| Pipelines.GridsHaveDistinctParams | trainer.py:332-339 | no grid lists the same parameter twice, so membership is characterised as above |
| Annotation.SelectedSwitch | trainer.py:55-162 | the switch selects distinct algorithms, all four exactly for "all", and none exactly for a setting outside the five names |
| Annotation.Annotate | trainer.py:60-65 | annotating a record keeps its feature list |
| Annotation.AnnotateContents | trainer.py:124-146 | the annotated record's keys are the old keys plus the selected algorithms' metric keys; each metric key holds that algorithm's trainer result on the record's variables; every other key keeps its value |
| Annotation.AnnotateIdempotent | trainer.py:60-66 | annotating twice equals annotating once, so a record listed twice in X ends the same |
| Annotation.KeysOfSize | trainer.py:130-144 | distinct algorithms write 3 distinct keys each |
| Annotation.AnnotationAddsKeys | trainer.py:55-146 | a record without metric keys gains exactly 3 keys per selected algorithm, 12 for "all" |
| Annotation.RunsOfLength | trainer.py:124-128 | a branch over n records makes n times (number of selected algorithms) trainer calls |
| Annotation.RunsOfOrder | trainer.py:124-128 | the trainer call at position i*|algs|+j runs algorithm j on record i's variables: records in X order, algorithms LR, RF, DT, GBR within a record |
| Annotation.FirstMissing | trainer.py:60-61 | the first record lacking a feature list: every earlier record has one |
| Orchestrator.Record.constructor | trainer.py:60 | a record holds the given dict |
| Orchestrator.Trainer.constructor | trainer.py:47-53 | a new trainer has no split, an empty `Visualize_Results`, no summary field assigned and no trainer call made |
| Orchestrator.Trainer.Split | trainer.py:36-45 | the partition sizes become the split sizing's result, or the split error is returned and nothing changes |
| Orchestrator.Trainer.Dispatch | trainer.py:53-162 | the records, summary fields, trainer-call log, `Visualize_Results` and outcome are exactly those of `Dispatched` |
| Orchestrator.Trainer.RunSelected | trainer.py:55-160 | a selected branch annotates up to the first record lacking variables, publishes X only if there is none, and fails the summary print when its fields are unassigned |
| Orchestrator.Trainer.Publish | trainer.py:68-69 | `Visualize_Results` becomes its old value followed by the results, in order |
| Orchestrator.Trainer.RunBranch | trainer.py:60-66 | the loop stops at the first record lacking variables, reporting it, and leaves the state `AfterBranch` at that index |
| Orchestrator.Trainer.Visit | trainer.py:60-66 | one iteration either raises on a record without variables and changes nothing, or advances the state by exactly one record |
| Orchestrator.Trainer.Train | trainer.py:125-128 | the summary fields are overwritten with the record's triples and the calls are logged in branch order |
| Orchestrator.Trainer.Store | trainer.py:63-65 | writing the record updates every position of X that lists the same object |
| Orchestrator.Init | trainer.py:36-162 | a refused split returns before any record is touched; otherwise the split sizes are kept and the switch's effect is `Dispatched` from the caller's records |
| Orchestrator.AfterBranchRecord | trainer.py:60-66 | after n records, a record holds its annotated contents if it is listed among the first n positions, and its original contents otherwise |
| Orchestrator.AfterBranchSummary | trainer.py:61 | after n > 0 records, the summary fields hold the last processed record's triples for the selected algorithms |
| Orchestrator.AfterBranchRuns | trainer.py:60-61 | the trainer calls after n records are those of `RunsOf` on the first n records, in order |
| Orchestrator.DispatchRecords | trainer.py:55-162 | after the switch, each record listed before the first failure is annotated with the selected metrics; every other record, and every record for an unknown model, keeps its contents |
| Orchestrator.AllBranchAssignsSummary | trainer.py:124-160 | once "all" has processed a record, all four summary fields are assigned |
| Orchestrator.AllBranchOutcome | trainer.py:120-160 | on a fresh trainer, "all" fails with the first missing feature list, else fails in the summary print exactly when X is empty, else passes |
| Orchestrator.SnapshotIsConsistent | trainer.py:60 | a record listed at two positions shows the same contents at both |
| Orchestrator.VisitStep | trainer.py:60-66 | the record at the loop index has variables exactly when it precedes the first failure; if so, the next state overwrites it with its annotation and adds its triples and calls |

## Left out

- Spark itself is not modelled: `randomSplit`, `limit` on real rows, `CrossValidator.fit`,
  `transform` and the evaluators. Partition sizes come from an engine parameter, and
  metric triples come from the opaque `Trainers` function of algorithm and feature list.
- `metrics` (trainer.py:164-193) produces floating-point values, including the unused
  `Accuracy` column. Only its (R2, mae, rmse) triple shape is kept.
- The caps are computed with exact integer truncation. Python computes
  `int(ds * (split / 100))` in floating point, which can land one below the exact
  floor (100 * 0.29 gives 28). IEEE rounding is not modelled.
- The seeded split and the ratio split are kept only as the requests handed to the
  engine (weights and seed). Their randomness is the engine's.
- All `print` output is left out, as are the `spark`/`sc` handles and the
  preprocessing stage objects taken from `cleaned_data`.
- Orchestrator.Trainer.RunBranch: the per-branch `results_*` list is represented by its
  length. The list is always the prefix of X visited so far, and `Publish` copies that
  prefix.
- Annotation.HasVariables: a `variables` value that is not a list of column names is
  treated like a missing key. Python would fail inside Spark rather than with a
  KeyError.
- Annotation.RunsFor: its contract states only the number of calls. The order of the
  calls is stated by `RunsOfOrder` over whole branches.
- Orchestrator.Config: `dataset_size` is a natural number. A negative size is not
  modelled.
- Exceptions raised inside a training method (a failed fit) are not modelled; the
  trainers are total functions.
