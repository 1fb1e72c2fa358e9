# ocrtest: hyperparameter-search bookkeeping, dataset building and image listing in Dafny

This project models the parts of the ocrtest tool chain that keep the books around
training, not the training itself.

- **`OptimizeClassifier`** covers parameters_optimization/optimize_classifier.py. It has two parts.
  - The `Evaluator` objective function:
    - it zips a swarm position with the searched parameter names and merges in the fixed defaults;
    - it rejects candidates that break a per-parameter restriction, returning the multiplicative penalty `-|3.0 · Π failing values|`;
    - it records every accepted candidate in an append-only history;
    - it tracks the best result with a strictly-greater rule;
    - it caches one refitted classifier.
  - The selection rules of `MetaOptimizer`:
    - strategy dispatch by name, with the iteration override;
    - the split of the grid into searched and fixed parameters for particle-swarm search, with the swarm's `[0, 1]` boundaries and budget;
    - the score report sorted by descending mean;
    - the support-weighted evaluation record.
- **`CreateDataset`** covers create_dataset.py. It models three steps:
  - cutting the negative windows of an image to `int(len(positive) · multiplier)` after a shuffle;
  - one deferred task per image file, with the positive-window file-name template;
  - the `DatasetCreator` lists, which are extended in place, including the labelled feature rows (`window + [1]` / `window + [0]`).
- **`FileHelper`** covers misc/file_helper.py. It models the `:`-separated, case-insensitive extension filter of `read_images_in_dir` and the root guard and removal order of `remove_files_in_dir`.
- **Support modules:**
  - `PyStr` models the Python built-ins the code calls: `int()` truncation, `s[:k]`, ASCII `lower`, `endswith` and `split`. It also defines `join`, which the code never calls, to state the round trip of `split`.
  - `PosixPath` models `os.path.split`, `splitext` and `join`, POSIX flavour.
  - `Seqs` provides order-preserving filtering with a subsequence witness.
  - `Results` provides `Option` and `Result`.

Everything the source hands to other libraries is an input:
- cross-validation scores are a function `crossValScores` from candidate to non-empty score vector;
- the shuffle is an input permutation;
- the directory listing, `isfile` and `os.walk` are input values;
- the per-class metrics of the test set are an input record.

Classes stand where the source updates objects in place:
- `Evaluator` and `MetaOptimizer`;
- `DatasetCreator`, whose dataset lists are `RowList` objects shared by reference.

Each method's `ensures` ties the new state to specification functions. The lemmas beside them prove what those functions promise.

## Model

| member | source | states |
|---|---|---|
| OptimizeClassifier.AssignKeys | parameters_optimization/optimize_classifier.py:42-43 | the zipped dictionary has exactly the searched names as keys |
| OptimizeClassifier.AssignValues | parameters_optimization/optimize_classifier.py:42-43 | every entry of the zipped dictionary is a searched name mapped to the coordinate at one of its positions |
| OptimizeClassifier.MakeCandidate | parameters_optimization/optimize_classifier.py:39-48 | the candidate's keys are the searched names together with the default names |
| OptimizeClassifier.AssignAt | parameters_optimization/optimize_classifier.py:42-43 | a searched name that is not repeated later maps to the coordinate at its own position |
| OptimizeClassifier.CandidateValues | parameters_optimization/optimize_classifier.py:42-48 | a default wins over a searched coordinate of the same name; otherwise the name carries its coordinate |
| OptimizeClassifier.Penalty | parameters_optimization/optimize_classifier.py:41-52 | the fitness of a rejected candidate is never positive |
| OptimizeClassifier.FailedPowerWithoutViolation | parameters_optimization/optimize_classifier.py:41-47 | with no rejected coordinate, `failed_power` keeps its initial value 3.0 |
| OptimizeClassifier.FailedPowerZeroIff | parameters_optimization/optimize_classifier.py:41-47 | the accumulated `failed_power` is zero iff some rejected coordinate is zero |
| OptimizeClassifier.PenaltyZeroIff | parameters_optimization/optimize_classifier.py:50-52 | the penalty is zero iff some rejected coordinate is zero, so it is strictly negative otherwise |
| OptimizeClassifier.SingleViolationPenalty | parameters_optimization/optimize_classifier.py:41-52 | one rejected coordinate `v` gives the penalty `-abs(3.0 * v)` |
| OptimizeClassifier.FailedPowerPrefix | parameters_optimization/optimize_classifier.py:42-47 | `failed_power` after `n` names depends only on the first `n` names and coordinates |
| OptimizeClassifier.ExtraViolationPenalty | parameters_optimization/optimize_classifier.py:44-52 | one more rejected coordinate `v` multiplies the penalty by `abs(v)` |
| OptimizeClassifier.ScanStep | parameters_optimization/optimize_classifier.py:42-47 | how the dictionary, the rejection flag and `failed_power` change for one more name |
| OptimizeClassifier.ScanPosition | parameters_optimization/optimize_classifier.py:39-47 | the loop builds the zipped dictionary, sets the flag iff some consulted restriction fails, and leaves `failed_power` equal to 3.0 times every rejected coordinate, in order, sign included; its negated absolute value is the penalty |
| OptimizeClassifier.BestIndex | parameters_optimization/optimize_classifier.py:58-60 | the strictly-greater update rule always designates a record of the history |
| OptimizeClassifier.SumUnitBounds | parameters_optimization/optimize_classifier.py:54-61 | fold scores in [0, 1] sum to between zero and the number of folds |
| OptimizeClassifier.Mean | parameters_optimization/optimize_classifier.py:54-61 | `scores.mean()` of F1 fold scores, all in [0, 1], lies in [0, 1] |
| OptimizeClassifier.BestIndexIsFirstMaximum | parameters_optimization/optimize_classifier.py:58-60 | the tracked best holds the maximum mean, and every earlier record has a strictly smaller mean (ties keep the first) |
| OptimizeClassifier.FirstMaximumIsUnique | parameters_optimization/optimize_classifier.py:58-60 | any record with the first-maximum property is the tracked best |
| OptimizeClassifier.BestIndexAppend | parameters_optimization/optimize_classifier.py:57-60 | appending a record moves the best to it exactly when its mean is strictly greater |
| OptimizeClassifier.TracksBestAppend | parameters_optimization/optimize_classifier.py:57-60 | appending and replacing only on a strictly greater mean keeps `best_score_`/`best_params_` equal to the first maximum |
| OptimizeClassifier.TracksBestIsMaximum | parameters_optimization/optimize_classifier.py:58-60 | a tracked best score bounds every recorded mean |
| OptimizeClassifier.Evaluator.constructor | parameters_optimization/optimize_classifier.py:23-36 | empty history, no best score, parameters or classifier, no factory calls |
| OptimizeClassifier.Evaluator.Evaluate | parameters_optimization/optimize_classifier.py:38-61 | a rejected position returns the penalty and changes nothing (no factory call, no record, best unchanged); an accepted one returns the mean of its scores and appends exactly one record `(p, mean, scores)` after the untouched earlier ones; the best-tracking invariant is kept |
| OptimizeClassifier.Evaluator.RecordScore | parameters_optimization/optimize_classifier.py:53-61 | one factory call and one appended record; best score and parameters replaced iff unset or strictly smaller |
| OptimizeClassifier.Evaluator.GetBestClassifier | parameters_optimization/optimize_classifier.py:63-72 | returns the cached classifier unchanged if there is one; None if no candidate was accepted; otherwise builds and fits once from the best parameters and caches it |
| OptimizeClassifier.StrategyByName | parameters_optimization/optimize_classifier.py:111-116 | a known name selects the strategy of that name; the lookup fails iff no strategy has the name |
| OptimizeClassifier.GridNames | parameters_optimization/optimize_classifier.py:143 | the names of the grid items, in item order |
| OptimizeClassifier.FixedUpToKeys | parameters_optimization/optimize_classifier.py:142-147 | the fixed dictionary built from the first n entries holds exactly the names with a single variant among them |
| OptimizeClassifier.FixedUpToValues | parameters_optimization/optimize_classifier.py:142-147 | with distinct names, each fixed name is mapped to its only variant |
| OptimizeClassifier.SearchedUpToOrder | parameters_optimization/optimize_classifier.py:141-145 | the searched names appear in grid order (index witness) |
| OptimizeClassifier.SearchedUpToMembers | parameters_optimization/optimize_classifier.py:141-145 | a name is searched iff it has more than one variant |
| OptimizeClassifier.GridSplitHolds | parameters_optimization/optimize_classifier.py:141-147 | the split puts multi-variant names in the searched list in grid order, single-variant names in the fixed dictionary with their variant, and drops empty ones |
| OptimizeClassifier.SplitGridParameters | parameters_optimization/optimize_classifier.py:141-147 | the loop produces that split |
| OptimizeClassifier.MakeSwarmSetup | parameters_optimization/optimize_classifier.py:150-152 | a zero start and one `(0, 1)` boundary per searched name, swarm size 5, budget equal to `iterations` |
| OptimizeClassifier.SortedCons | parameters_optimization/optimize_classifier.py:167 | prepending a record with the largest mean keeps the report descending |
| OptimizeClassifier.InsertByMean | parameters_optimization/optimize_classifier.py:167 | insertion keeps the report descending by mean and adds exactly the one record |
| OptimizeClassifier.ScoreReport | parameters_optimization/optimize_classifier.py:167 | the report is a permutation of the history, sorted by non-increasing mean |
| OptimizeClassifier.WeightedAverage | parameters_optimization/optimize_classifier.py:183-185 | `np.average` with support weights fails exactly when the supports sum to zero |
| OptimizeClassifier.WeightedSumUnitBounds | parameters_optimization/optimize_classifier.py:183-185 | values in [0, 1] give a support-weighted sum between zero and the total support |
| OptimizeClassifier.WeightedSumOfOnes | parameters_optimization/optimize_classifier.py:183-185 | values all 1.0 give a weighted sum equal to the total support |
| OptimizeClassifier.WeightedAverageInUnitRange | parameters_optimization/optimize_classifier.py:183-185 | with some support, the weighted average of values in [0, 1] succeeds and lies in [0, 1] |
| OptimizeClassifier.WeightedAverageOfOnes | parameters_optimization/optimize_classifier.py:183-185 | with some support, the weighted average of values all 1.0 is exactly 1.0 |
| OptimizeClassifier.BuildEvaluation | parameters_optimization/optimize_classifier.py:181-200 | the record fails iff the supports sum to zero (checked first) or fewer than two labels occur (the per-label arrays are positional over the labels present, so `p[1]` raises); otherwise the entries at positions 1 and 0 are the positive and negative class, and the run's name, method, best parameters and accuracy are carried over; the weighted F1, precision and recall are the support-weighted averages of the per-class F1, precision and recall respectively |
| OptimizeClassifier.EvaluationWeightedInUnitRange | parameters_optimization/optimize_classifier.py:181-200 | per-class metrics in [0, 1] give weighted precision, recall and F1 in [0, 1] |
| OptimizeClassifier.PerfectPredictionEvaluation | parameters_optimization/optimize_classifier.py:181-200 | all per-label metrics 1.0 for two labels with positive total support give weighted metrics of exactly 1.0 |
| OptimizeClassifier.MetaOptimizer.constructor | parameters_optimization/optimize_classifier.py:77-82 | the iteration budget starts at the default, with no strategy and no evaluation |
| OptimizeClassifier.MetaOptimizer.InitializeOptimizer | parameters_optimization/optimize_classifier.py:101-116 | stores the settings; overrides `iterations` only when one is given; selects a strategy iff the name is known |
| OptimizeClassifier.MetaOptimizer.PsoSearch | parameters_optimization/optimize_classifier.py:137-152 | fails iff PyBrain is missing; otherwise a fresh, empty evaluator over the split grid with the given restrictions, and the swarm setup for the searched names and budget |
| OptimizeClassifier.MetaOptimizer.TestClassifier | parameters_optimization/optimize_classifier.py:175-205 | builds the evaluation record from the run's method and keeps it on success; every other setting (method, model file, jobs, iterations, scores file, strategy) is unchanged |
| CreateDataset.ProcessNCutSingleImage | create_dataset.py:11-20 | filename and positives unchanged; the kept negatives are a prefix of the shuffled list, hence a sub-multiset of the negatives; their count is `min(len(negative), int(len(positive) * multiplier))` for a non-negative cut, or Python's slice length for a negative one |
| CreateDataset.IntegerMultiplierAmount | create_dataset.py:16 | with an integer multiplier, `int(len(positive) * multiplier)` is exactly the integer product |
| CreateDataset.TemplateNameIsPlain | create_dataset.py:37-39 | the template's own file name is non-empty and holds no '/' |
| CreateDataset.TemplatePath | create_dataset.py:36-39 | joining a non-empty folder and the template name gives the folder, a '/' unless the folder ends in one, and the name, whose basename is the name |
| CreateDataset.PositiveTemplate | create_dataset.py:36-41 | None iff no folder is given (None or empty); otherwise exactly the folder, then a '/' unless the folder already ends in one, then the image's stem, `_%d` and its extension, which is also the basename of the result |
| CreateDataset.PrepareParallelTasks | create_dataset.py:33-45 | exactly one deferred task per file, in file order, each carrying the file name, tag position and multiplier unchanged and the file's template |
| CreateDataset.WithLabelRows | create_dataset.py:62-67 | each labelled row is its window followed by the label |
| CreateDataset.ResultRowsLayout | create_dataset.py:58-67 | one image contributes its positives labelled 1, then its negatives labelled 0 |
| CreateDataset.LabelledRowsCount | create_dataset.py:58-67 | the rows are exactly as many as the positive and negative windows |
| CreateDataset.LabelledRowsEndInLabel | create_dataset.py:62-67 | every row ends in 0 or 1 |
| CreateDataset.CountLabelAppend | create_dataset.py:62-67 | label counts add up over concatenated row lists |
| CreateDataset.CountWithLabel | create_dataset.py:62-67 | rows labelled with one label count for it and not for the other |
| CreateDataset.PositiveRowCount | create_dataset.py:58-67 | the rows labelled 1 are exactly as many as the positive windows |
| CreateDataset.RowList.constructor | create_dataset.py:26-27 | a new dataset list is empty |
| CreateDataset.DatasetCreator.constructor | create_dataset.py:24-31 | two distinct empty datasets and four empty lists |
| CreateDataset.DatasetCreator.PrepareImageProcessing | create_dataset.py:47-55 | the filename lists are extended by the given files; the task lists grow by one task per file at their ends, with the earlier entries unchanged |
| CreateDataset.DatasetCreator.AppendLabelled | create_dataset.py:62-67 | appends every window followed by the label, in order |
| CreateDataset.DatasetCreator.ProcessResult | create_dataset.py:57-67 | the dataset becomes its old rows followed by the labelled rows of every result, in result order |
| CreateDataset.DatasetCreator.ProcessPrepared | create_dataset.py:69-74 | given one result per queued task, in task order, each carrying its task's file name (what `Parallel` returns): train results go to the train dataset and test results to the test dataset, each appended after the old rows |
| PyStr.Trunc | create_dataset.py:16 | `int()` of a float truncates toward zero |
| PyStr.PyPrefix | create_dataset.py:18 | `s[:k]` keeps `min(k, len)` elements for `k >= 0`, drops the last `-k` otherwise, and is a prefix of `s` |
| PyStr.Lower | misc/file_helper.py:24 | lower-casing keeps the length and maps each letter A-Z to a-z |
| PyStr.Split | misc/file_helper.py:24 | `split` gives at least one piece, none holding the separator |
| PyStr.EndsWith | misc/file_helper.py:27 | `s.endswith(t)` holds iff `s` is something followed by `t`; a string that ends in `t` also ends in every shorter suffix of `t` |
| PyStr.EndsWithAny | misc/file_helper.py:27 | `endswith` with a tuple holds iff some member of the tuple is a suffix; never for the empty tuple |
| PyStr.JoinSplit | misc/file_helper.py:24 | joining the pieces gives back the string |
| PyStr.SplitJoin | misc/file_helper.py:24 | splitting a join of separator-free pieces gives back the pieces |
| PosixPath.LastIndexOf | create_dataset.py:37 | the last position of a character, or -1 when absent |
| PosixPath.LastIndexOfAtLeast | create_dataset.py:37 | the last position is at or after any position of the character |
| PosixPath.Basename | create_dataset.py:37 | the tail after the last '/': a suffix of the path, without '/' |
| PosixPath.SplitExt | create_dataset.py:38 | stem + extension is the name; the extension starts at the last dot unless only dots precede it |
| PosixPath.SplitExtPlain | create_dataset.py:38 | neither part of a split name holds a '/' |
| PosixPath.Join | create_dataset.py:39 | `os.path.join(a, b)` is `b` itself when `b` is absolute; otherwise it is `a` and `b` with at most one separator added |
| PosixPath.JoinRelative | create_dataset.py:39 | for a relative `b`, the join is `a`, then a '/' unless `a` is empty or already ends in one, then `b` |
| PosixPath.JoinEndsWithName | create_dataset.py:39 | `os.path.join(a, b)` always ends in `b` |
| PosixPath.JoinKeepsDirectory | create_dataset.py:39 | joining a non-empty directory and a relative name starts with the directory |
| PosixPath.JoinBasename | create_dataset.py:39 | the basename of a directory joined with a plain name is that name |
| FileHelper.ParsePattern | misc/file_helper.py:24 | at least one extension, none holding ':', and joining them with ':' gives the lower-cased pattern |
| FileHelper.LowerKeepsColonOut | misc/file_helper.py:24 | lower-casing introduces no ':' |
| FileHelper.LowerAppend | misc/file_helper.py:24 | lower-casing distributes over concatenation |
| FileHelper.LowerJoin | misc/file_helper.py:24 | lower-casing each piece and joining is lower-casing the join |
| FileHelper.LowerOfLowerCase | misc/file_helper.py:24 | lower-casing leaves a string without capitals unchanged |
| FileHelper.ParseJoinedPattern | misc/file_helper.py:24 | parsing a pattern written from lower-case extensions gives back those extensions |
| FileHelper.DefaultPatternIsJoin | misc/file_helper.py:23 | the default pattern is the four extensions joined by ':' |
| FileHelper.DefaultPatternExtensions | misc/file_helper.py:23-24 | the default pattern parses to `.png`, `.jpg`, `.jpeg`, `.gif` |
| FileHelper.EndsWithOneOfFour | misc/file_helper.py:27 | ending in one of four suffixes is ending in the first, second, third or fourth |
| FileHelper.DefaultPatternAnyCase | misc/file_helper.py:23-27 | with the default pattern a name passes the extension test iff its lower-cased form ends in one of the four extensions, so any letter case is accepted |
| FileHelper.ReadImagesInDir | misc/file_helper.py:22-30 | the result is the filter of the listing; a name is in it iff it is listed, is a regular file and its lower-cased form ends in one of the extensions; the result is a subsequence of the listing with names unchanged |
| FileHelper.Accepts | misc/file_helper.py:27 | a listed name passes iff it names a regular file under the directory and its lower-cased form ends in one of the extensions, which is no longer than the name |
| Seqs.Filter | misc/file_helper.py:26-28 | the kept elements are exactly the elements of the input that pass the test, and there are no more of them than inputs |
| Seqs.KeptIndices | misc/file_helper.py:26-28 | each kept element sits at a strictly increasing position of the input |
| Seqs.FilterIsSubsequence | misc/file_helper.py:26-28 | filtering keeps the order of the input: the result is a subsequence of it |
| FileHelper.PathRemovalsAt | misc/file_helper.py:17-20 | one removal per name, under the walk root |
| FileHelper.EntryRemovalsLayout | misc/file_helper.py:17-20 | within one walk entry, all files are removed before all sub-directory trees |
| FileHelper.WalkRemovalsCount | misc/file_helper.py:16-20 | one removal per file and per directory the walk reports |
| FileHelper.RemoveAll | misc/file_helper.py:17-20 | the inner loop yields the removals of its names, in order |
| FileHelper.RemoveFilesInDir | misc/file_helper.py:12-20 | nothing is removed for `/` or `\`; otherwise the removals of every walk entry, in walk order |

## Left out

- Training, prediction and scoring are inputs, not models: `cross_val_score`, the classifier factory, `fit`, `predict`, `precision_recall_fscore_support`, `accuracy_score` and `classification_report`. Scores are the function `crossValScores`; a fitted classifier is identified by its parameters; per-class metrics are an input record.
- `grid_search` and `randomized_search` only call sklearn's `GridSearchCV`/`RandomizedSearchCV`. The search itself is not part of this model; dispatch selects the strategy by name.
- The particle-swarm optimizer, `ParallelParticleSwarmOptimizer`, comes from a file that is not part of this model, and PyBrain's `Particle` is an external library. Therefore:
  - the random starting positions drawn with `.rvs()` are not modelled;
  - the neighbourhood set-up and `learn()` are not modelled;
  - MetaOptimizer.PsoSearch stops at the evaluator and swarm configuration it hands over.
- `run`, `process_arguments` and `log_optimized_info`'s printing and CSV writing are I/O around the modelled operations.
- Also I/O, and left out: `loadDataset`, `joblib.dump`, `saveCSV`, `saveTrainTestImageFilenames`, logging and `print`.
- `process_single_image` is not part of this model. Its positive and negative windows are inputs of `ProcessNCutSingleImage`.
- `random.shuffle` is an input permutation (`shuffled`, with the same multiset as the negatives).
- `create_or_clear_dir` is not modelled. It only combines `os.path.exists`/`makedirs` with `remove_files_in_dir`.
- `prepareImageProcessing` creates the template folder with `os.makedirs`; that step is I/O and not modelled.
- `remove_files_in_dir` is modelled as the list of removals it performs. The directory walk is an input, so nothing is deleted.
- `read_images_in_dir` takes the listing and `isfile` as inputs.
- Concurrency is not modelled. joblib `Parallel`/`delayed` run sequentially here, and a task is the argument tuple of its deferred call.
- OptimizeClassifier.ScoreReport: orders by mean only and always returns a report. Python sorts whole tuples `(mean, std, params, scores)`, so its order among equal means (by standard deviation, then by dictionary comparison) is not modelled, and neither is its failure: when two records agree in mean, standard deviation and parameters, the comparison reaches the `scores` arrays, whose `==` is an array with no truth value (for more than one fold), and `log_optimized_info` raises `ValueError`. The `Evaluator` produces such a pair whenever the same position is accepted twice, since the scores are a function of the candidate. The standard deviation column is left out.
- Scores, penalties and averages are `real`, not binary floating point. Rounding, NaN and overflow of the multiplicative penalty are not modelled.
- PyStr.Lower: ASCII letters only. Python's `str.lower` also folds non-ASCII letters.
- PosixPath.Basename: POSIX separators only. On Windows `os.path` also splits at `\`.
- A restriction table that is None is modelled as the empty map. The source's `if self.parameters_restrictions and name in ...` treats both alike.
- `self.classifier = self.classifierFactory()` in the `MetaOptimizer` constructor, and the argument parsing it triggers, are not modelled.
- The labels of the feature rows are the reals 1.0 and 0.0. The source appends the integers 1 and 0 to the window lists.
- The penalty of a rejected candidate is not always strictly negative, nor does it grow with the number of violations:
  - OptimizeClassifier.PenaltyZeroIff: the penalty is 0 when a failing coordinate is 0;
  - OptimizeClassifier.ExtraViolationPenalty: one more violation with `|v| < 1` shrinks its magnitude, and one with `|v| == 1` leaves it unchanged.
- `best_score_` is updated by a plain compare-and-assign; the model is sequential.
- CreateDataset.ProcessNCutSingleImage: the product `len(positive) * negativeMultiplicator` is exact real arithmetic. Python computes it in binary floating point, which can fall just below a whole number before `int()` truncates it (100 × 0.29 gives 28.999999999999996, so Python keeps 28 negatives where the model keeps 29). For an integer multiplier, such as the default 3, both agree (CreateDataset.IntegerMultiplierAmount).
- `getBestClassifier` never invalidates its cache: a later, better evaluation does not replace an already built classifier. The model keeps this: `Evaluate` leaves `bestClassifier` unchanged.
