/**
 * The dataset builder of create_dataset.py: cutting the negative windows of
 * one image down to a multiple of its positive windows, queueing one task per
 * image file, and turning the windows into labelled feature rows.
 *
 * A window is a feature vector; a row is a window followed by its label,
 * 1.0 for a window around the hashtag and 0.0 for any other window.
 */
module CreateDataset {
  import opened Results
  import PyStr
  import PosixPath

  type Window = seq<real>
  type Row = seq<real>

  /** What `process_n_cut_single_image` returns: the file name and its two window lists. */
  datatype CutResult = CutResult(filename: string, positive: seq<Window>, negative: seq<Window>)

  /** The hashtag rectangle of an image folder (`X1xY1xX2xY2`). */
  datatype TagPosition = TagPosition(x1: int, y1: int, x2: int, y2: int)

  /**
   * `process_n_cut_single_image`: `positive` and `negative` are what the image
   * processing produced for `filename`, `shuffled` is the order `random.shuffle`
   * left `negative` in. At most `int(len(positive) * multiplier)` negatives are kept
   * (Python slice semantics when that number is negative).
   */
  function ProcessNCutSingleImage(filename: string, positive: seq<Window>, negative: seq<Window>,
                                  shuffled: seq<Window>, multiplier: real): (r: CutResult)
    requires multiset(shuffled) == multiset(negative)
    ensures r.filename == filename && r.positive == positive
    ensures |r.negative| <= |shuffled| && r.negative == shuffled[..|r.negative|]
    ensures multiset(r.negative) <= multiset(negative)
    ensures var k := PyStr.Trunc(|positive| as real * multiplier);
      0 <= k ==> |r.negative| == if k < |negative| then k else |negative|
    ensures var k := PyStr.Trunc(|positive| as real * multiplier);
      k < 0 ==> |r.negative| == if |negative| + k < 0 then 0 else |negative| + k
  {
    assert |shuffled| == |negative| by {
      assert |multiset(shuffled)| == |multiset(negative)|;
    }
    var amount := PyStr.Trunc(|positive| as real * multiplier);
    var kept := if amount < |shuffled| then PyStr.PyPrefix(shuffled, amount) else shuffled;
    assert shuffled == kept + shuffled[|kept|..];
    CutResult(filename, positive, kept)
  }

  /**
   * With an integer multiplier, such as the default 3, the product is exact:
   * the cut keeps at most `len(positive) * multiplier` negatives.
   */
  lemma IntegerMultiplierAmount(positives: nat, multiplier: nat)
    ensures PyStr.Trunc(positives as real * multiplier as real) == positives * multiplier
  {
    RealProduct(positives, multiplier);
  }

  lemma {:induction false} RealProduct(a: nat, b: nat)
    ensures a as real * b as real == (a * b) as real
    decreases b
  {
    if b > 0 {
      RealProduct(a, b - 1);
      assert a * b == a * (b - 1) + a;
      assert a as real * b as real == a as real * (b - 1) as real + a as real;
    }
  }

  /** The arguments of one deferred `process_n_cut_single_image` call. */
  datatype Task = Task(filename: string, tagPosition: TagPosition, negativeMultiplicator: real,
                       positiveTemplate: Option<string>)

  /** The template's own name: the file's stem, `_%d`, and its extension. */
  function TemplateName(filename: string): string
  {
    var parts := PosixPath.SplitExt(PosixPath.Basename(filename));
    parts.0 + "_%d" + parts.1
  }

  /**
   * The file-name template for the saved positive windows of `filename`: None
   * when no folder is given (None or the empty string), else
   * `folder/<name>_%d<extension>`: the folder, a '/' unless the folder already
   * ends in one, and the template's own name.
   */
  function PositiveTemplate(folder: Option<string>, filename: string): (r: Option<string>)
    ensures r.None? <==> folder.None? || folder.value == ""
    ensures r.Some? ==>
      var separator := if folder.value[|folder.value| - 1] == '/' then "" else "/";
      r.value == folder.value + separator + TemplateName(filename)
    ensures r.Some? ==> PosixPath.Basename(r.value) == TemplateName(filename)
  {
    if folder.None? || folder.value == "" then None
    else
      TemplatePath(folder.value, filename);
      Some(PosixPath.Join(folder.value, TemplateName(filename)))
  }

  /** Joining a non-empty folder and the template's name. */
  lemma TemplatePath(folder: string, filename: string)
    requires folder != ""
    ensures var path := PosixPath.Join(folder, TemplateName(filename));
      path == folder + (if folder[|folder| - 1] == '/' then "" else "/") + TemplateName(filename) &&
      PosixPath.Basename(path) == TemplateName(filename)
  {
    var name := TemplateName(filename);
    TemplateNameIsPlain(filename);
    PosixPath.JoinBasename(folder, name);
  }

  /** The template's own name is non-empty, relative and free of '/'. */
  lemma TemplateNameIsPlain(filename: string)
    ensures var name := TemplateName(filename);
      name != "" && name[0] != '/' && '/' !in name
  {
    var parts := PosixPath.SplitExt(PosixPath.Basename(filename));
    PosixPath.SplitExtPlain(PosixPath.Basename(filename));
    var name := parts.0 + "_%d" + parts.1;
    assert name[|parts.0|] == '_';
  }

  /** `delayed(process_n_cut_single_image)(...)` for one file: its arguments, with the file's template. */
  function TaskFor(filename: string, tagPosition: TagPosition, negativeMultiplicator: real,
                   folder: Option<string>): (t: Task)
    ensures t.filename == filename && t.tagPosition == tagPosition
    ensures t.negativeMultiplicator == negativeMultiplicator
  {
    Task(filename, tagPosition, negativeMultiplicator, PositiveTemplate(folder, filename))
  }

  /** `_prepareParallelTasks`: one task per file, in the order of `files`. */
  method PrepareParallelTasks(files: seq<string>, tagPosition: TagPosition, negativeMultiplicator: real,
                              folder: Option<string>) returns (tasks: seq<Task>)
    ensures |tasks| == |files|
    ensures forall i :: 0 <= i < |files| ==>
      tasks[i] == TaskFor(files[i], tagPosition, negativeMultiplicator, folder)
  {
    tasks := [];
    for i := 0 to |files|
      invariant |tasks| == i
      invariant forall k :: 0 <= k < i ==>
        tasks[k] == TaskFor(files[k], tagPosition, negativeMultiplicator, folder)
    {
      tasks := tasks + [TaskFor(files[i], tagPosition, negativeMultiplicator, folder)];
    }
  }

  /** The first `n` windows of `ws`, each followed by the label `target`. */
  function WithLabel(ws: seq<Window>, target: real, n: nat): seq<Row>
    requires n <= |ws|
  {
    if n == 0 then [] else WithLabel(ws, target, n - 1) + [ws[n - 1] + [target]]
  }

  lemma {:induction false} WithLabelRows(ws: seq<Window>, target: real, n: nat)
    requires n <= |ws|
    ensures |WithLabel(ws, target, n)| == n
    ensures forall k :: 0 <= k < n ==> WithLabel(ws, target, n)[k] == ws[k] + [target]
    decreases n
  {
    if n > 0 {
      WithLabelRows(ws, target, n - 1);
    }
  }

  /** The rows one image contributes: its positives labelled 1, then its negatives labelled 0. */
  function ResultRows(r: CutResult): seq<Row>
  {
    WithLabel(r.positive, 1.0, |r.positive|) + WithLabel(r.negative, 0.0, |r.negative|)
  }

  lemma ResultRowsLayout(r: CutResult)
    ensures |ResultRows(r)| == |r.positive| + |r.negative|
    ensures forall k :: 0 <= k < |r.positive| ==> ResultRows(r)[k] == r.positive[k] + [1.0]
    ensures forall k :: |r.positive| <= k < |ResultRows(r)| ==>
      ResultRows(r)[k] == r.negative[k - |r.positive|] + [0.0]
  {
    WithLabelRows(r.positive, 1.0, |r.positive|);
    WithLabelRows(r.negative, 0.0, |r.negative|);
  }

  /** The rows of the first `n` results, in order. */
  function LabelledRows(features: seq<CutResult>, n: nat): seq<Row>
    requires n <= |features|
  {
    if n == 0 then [] else LabelledRows(features, n - 1) + ResultRows(features[n - 1])
  }

  /** Positive and negative windows over the first `n` results. */
  function WindowCount(features: seq<CutResult>, n: nat): nat
    requires n <= |features|
  {
    if n == 0 then 0
    else WindowCount(features, n - 1) + |features[n - 1].positive| + |features[n - 1].negative|
  }

  function PositiveCount(features: seq<CutResult>, n: nat): nat
    requires n <= |features|
  {
    if n == 0 then 0 else PositiveCount(features, n - 1) + |features[n - 1].positive|
  }

  /** The labelled rows are exactly as many as the windows. */
  lemma {:induction false} LabelledRowsCount(features: seq<CutResult>, n: nat)
    requires n <= |features|
    ensures |LabelledRows(features, n)| == WindowCount(features, n)
    decreases n
  {
    if n > 0 {
      LabelledRowsCount(features, n - 1);
      ResultRowsLayout(features[n - 1]);
    }
  }

  predicate EndsInLabel(row: Row)
  {
    |row| > 0 && (row[|row| - 1] == 0.0 || row[|row| - 1] == 1.0)
  }

  /** Every labelled row ends in 0 or 1. */
  lemma {:induction false} LabelledRowsEndInLabel(features: seq<CutResult>, n: nat)
    requires n <= |features|
    ensures forall k :: 0 <= k < |LabelledRows(features, n)| ==> EndsInLabel(LabelledRows(features, n)[k])
    decreases n
  {
    if n > 0 {
      LabelledRowsEndInLabel(features, n - 1);
      ResultRowsLayout(features[n - 1]);
      var prev := LabelledRows(features, n - 1);
      var last := ResultRows(features[n - 1]);
      assert LabelledRows(features, n) == prev + last;
      forall k | 0 <= k < |prev + last|
        ensures EndsInLabel((prev + last)[k])
      {
        if k < |prev| {
          assert (prev + last)[k] == prev[k];
        } else {
          assert (prev + last)[k] == last[k - |prev|];
        }
      }
    }
  }

  /** The number of rows whose last element is `target`. */
  function CountLabel(rows: seq<Row>, target: real): nat
  {
    if rows == [] then 0
    else
      var last := rows[|rows| - 1];
      CountLabel(rows[..|rows| - 1], target) + if |last| > 0 && last[|last| - 1] == target then 1 else 0
  }

  lemma {:induction false} CountLabelAppend(a: seq<Row>, b: seq<Row>, target: real)
    ensures CountLabel(a + b, target) == CountLabel(a, target) + CountLabel(b, target)
    decreases |b|
  {
    if b != [] {
      assert (a + b)[..|a + b| - 1] == a + b[..|b| - 1];
      CountLabelAppend(a, b[..|b| - 1], target);
    } else {
      assert a + b == a;
    }
  }

  lemma {:induction false} CountWithLabel(ws: seq<Window>, target: real, otherTarget: real, n: nat)
    requires n <= |ws| && otherTarget != target
    ensures CountLabel(WithLabel(ws, target, n), target) == n
    ensures CountLabel(WithLabel(ws, target, n), otherTarget) == 0
    decreases n
  {
    if n > 0 {
      CountWithLabel(ws, target, otherTarget, n - 1);
      var prev := WithLabel(ws, target, n - 1);
      var row := ws[n - 1] + [target];
      assert (prev + [row])[..|prev + [row]| - 1] == prev;
    }
  }

  /** The rows labelled 1 are exactly as many as the positive windows. */
  lemma {:induction false} PositiveRowCount(features: seq<CutResult>, n: nat)
    requires n <= |features|
    ensures CountLabel(LabelledRows(features, n), 1.0) == PositiveCount(features, n)
    decreases n
  {
    if n > 0 {
      PositiveRowCount(features, n - 1);
      var r := features[n - 1];
      CountWithLabel(r.positive, 1.0, 0.0, |r.positive|);
      CountWithLabel(r.negative, 0.0, 1.0, |r.negative|);
      CountLabelAppend(WithLabel(r.positive, 1.0, |r.positive|), WithLabel(r.negative, 0.0, |r.negative|), 1.0);
      CountLabelAppend(LabelledRows(features, n - 1), ResultRows(r), 1.0);
    }
  }

  /** A list of rows shared by reference, as the Python dataset lists are. */
  class RowList {
    var rows: seq<Row>

    constructor ()
      ensures rows == []
    {
      rows := [];
    }
  }

  class DatasetCreator {
    const trainDataset: RowList
    const testDataset: RowList
    var trainFilenames: seq<string>
    var testFilenames: seq<string>
    var trainParallelTasks: seq<Task>
    var testParallelTasks: seq<Task>

    /** The train and test datasets are two different lists. */
    ghost predicate Valid()
      reads this
    {
      trainDataset != testDataset
    }

    constructor ()
      ensures Valid() && fresh(trainDataset) && fresh(testDataset)
      ensures trainDataset.rows == [] && testDataset.rows == []
      ensures trainFilenames == [] && testFilenames == []
      ensures trainParallelTasks == [] && testParallelTasks == []
    {
      trainDataset := new RowList();
      testDataset := new RowList();
      trainFilenames, testFilenames := [], [];
      trainParallelTasks, testParallelTasks := [], [];
    }

    /** `prepareImageProcessing`: extends the four lists at their ends. */
    method PrepareImageProcessing(trainFiles: seq<string>, testFiles: seq<string>, tagPosition: TagPosition,
                                  negativeMultiplicator: real, folder: Option<string>)
      modifies this
      ensures trainFilenames == old(trainFilenames) + trainFiles
      ensures testFilenames == old(testFilenames) + testFiles
      ensures |trainParallelTasks| == |old(trainParallelTasks)| + |trainFiles|
      ensures trainParallelTasks[..|old(trainParallelTasks)|] == old(trainParallelTasks)
      ensures forall i :: 0 <= i < |trainFiles| ==>
        trainParallelTasks[|old(trainParallelTasks)| + i] == TaskFor(trainFiles[i], tagPosition, negativeMultiplicator, folder)
      ensures |testParallelTasks| == |old(testParallelTasks)| + |testFiles|
      ensures testParallelTasks[..|old(testParallelTasks)|] == old(testParallelTasks)
      ensures forall i :: 0 <= i < |testFiles| ==>
        testParallelTasks[|old(testParallelTasks)| + i] == TaskFor(testFiles[i], tagPosition, negativeMultiplicator, folder)
    {
      trainFilenames := trainFilenames + trainFiles;
      testFilenames := testFilenames + testFiles;
      var trainTasks := PrepareParallelTasks(trainFiles, tagPosition, negativeMultiplicator, folder);
      trainParallelTasks := trainParallelTasks + trainTasks;
      var testTasks := PrepareParallelTasks(testFiles, tagPosition, negativeMultiplicator, folder);
      testParallelTasks := testParallelTasks + testTasks;
    }

    /** One inner loop of `_processResult`: appends every window of `ws` followed by `target`. */
    method AppendLabelled(ws: seq<Window>, target: real, dataset: RowList)
      modifies dataset
      ensures dataset.rows == old(dataset.rows) + WithLabel(ws, target, |ws|)
    {
      for j := 0 to |ws|
        invariant dataset.rows == old(dataset.rows) + WithLabel(ws, target, j)
      {
        dataset.rows := dataset.rows + [ws[j] + [target]];
      }
    }

    /** `_processResult`: appends the labelled rows of every result, in order, to `dataset`. */
    method ProcessResult(features: seq<CutResult>, dataset: RowList)
      modifies dataset
      ensures dataset.rows == old(dataset.rows) + LabelledRows(features, |features|)
    {
      for i := 0 to |features|
        invariant dataset.rows == old(dataset.rows) + LabelledRows(features, i)
      {
        AppendLabelled(features[i].positive, 1.0, dataset);
        AppendLabelled(features[i].negative, 0.0, dataset);
      }
    }

    /**
     * `processPrepared`: `trainFeatures` and `testFeatures` are the results of
     * running the two task lists; their rows go to the two datasets.
     */
    method ProcessPrepared(trainFeatures: seq<CutResult>, testFeatures: seq<CutResult>)
      requires Valid()
      requires |trainFeatures| == |trainParallelTasks|
      requires forall i :: 0 <= i < |trainFeatures| ==> trainFeatures[i].filename == trainParallelTasks[i].filename
      requires |testFeatures| == |testParallelTasks|
      requires forall i :: 0 <= i < |testFeatures| ==> testFeatures[i].filename == testParallelTasks[i].filename
      modifies trainDataset, testDataset
      ensures trainDataset.rows == old(trainDataset.rows) + LabelledRows(trainFeatures, |trainFeatures|)
      ensures testDataset.rows == old(testDataset.rows) + LabelledRows(testFeatures, |testFeatures|)
    {
      ProcessResult(trainFeatures, trainDataset);
      ProcessResult(testFeatures, testDataset);
    }
  }
}
