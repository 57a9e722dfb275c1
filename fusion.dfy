/** The fusion block of the main script of main.py: every source task (one
    trained network) contributes the embeddings of the target training batch
    and of the test batch. The statistics of a task come from its training
    embeddings and labels; its scores for either batch are added into the
    running_probs matrix of that batch, and its raw embeddings fill one
    84-column block of the concatenated feature matrix of that batch. */
module Fusion {
  import opened Linear
  import opened Tensors
  import opened Statistics
  import opened Scoring
  import Correlation

  /** The width of one network's embedding (the penultimate layer). */
  const FeatureWidth: nat := 84

  /** The embeddings one source network produces for the target training
      batch and for the test batch. */
  datatype Task = Task(train: Matrix, test: Matrix)

  datatype Split = Train | Test

  function Inputs(t: Task, split: Split): Matrix {
    match split
    case Train => t.train
    case Test => t.test
  }

  /** A task's training embeddings form a batch of |labels| rows of
      FeatureWidth columns, and every label names one of the classes. */
  predicate TrainedTask(t: Task, labels: seq<int>, classes: nat) {
    |labels| > 0 && ValidLabels(labels, |labels|, classes) && IsMatrix(t.train, |labels|, FeatureWidth)
  }

  /** A task's embeddings of the split have rows rows of FeatureWidth
      columns. */
  predicate FitsTask(t: Task, split: Split, rows: nat) {
    rows > 0 && IsMatrix(Inputs(t, split), rows, FeatureWidth)
  }

  predicate Trained(tasks: seq<Task>, labels: seq<int>, classes: nat) {
    forall i :: 0 <= i < |tasks| ==> TrainedTask(tasks[i], labels, classes)
  }

  predicate Fits(tasks: seq<Task>, split: Split, rows: nat) {
    forall i :: 0 <= i < |tasks| ==> FitsTask(tasks[i], split, rows)
  }

  /** The scores one task adds to running_probs of the split: the statistics
      of its training batch applied to its embeddings of the split. */
  function TaskScores(t: Task, split: Split, labels: seq<int>, classes: nat, sqrt: real -> real, rows: nat): (m: Matrix)
    requires TrainedTask(t, labels, classes) && FitsTask(t, split, rows)
    ensures IsMatrix(m, rows, classes)
  {
    var s := MaxCorr(t.train, labels, classes, sqrt);
    Scores(Inputs(t, split), s.sigma, s.g)
  }

  /** The entry a task appends to avg_sigma: the mean of its sigma. */
  function SigmaMean(t: Task, labels: seq<int>, classes: nat, sqrt: real -> real): real
    requires TrainedTask(t, labels, classes)
  {
    Mean(MaxCorr(t.train, labels, classes, sqrt).sigma)
  }

  /** The scores of every task for the split, in task order. */
  function TaskScoreList(tasks: seq<Task>, split: Split, labels: seq<int>, classes: nat, sqrt: real -> real, rows: nat): (ms: seq<Matrix>)
    requires Trained(tasks, labels, classes) && Fits(tasks, split, rows)
    ensures |ms| == |tasks| && forall i :: 0 <= i < |tasks| ==> IsMatrix(ms[i], rows, classes)
  {
    seq(|tasks|, i requires 0 <= i < |tasks| => TaskScores(tasks[i], split, labels, classes, sqrt, rows))
  }

  /** running_probs of the split after the given tasks: the zero matrix plus
      the scores of every task, added in task order. */
  function Fused(tasks: seq<Task>, split: Split, labels: seq<int>, classes: nat, sqrt: real -> real, rows: nat): (m: Matrix)
    requires Trained(tasks, labels, classes) && Fits(tasks, split, rows)
    ensures IsMatrix(m, rows, classes)
  {
    MatrixSum(TaskScoreList(tasks, split, labels, classes, sqrt, rows), rows, classes)
  }

  /** Row n of the concatenated features: the rows n of every task's
      embeddings of the split, one after the other. */
  function ConcatenatedRow(tasks: seq<Task>, split: Split, rows: nat, n: nat): (r: Vector)
    requires Fits(tasks, split, rows) && n < rows
    ensures |r| == FeatureWidth * |tasks|
    decreases |tasks|
  {
    if |tasks| == 0 then []
    else ConcatenatedRow(tasks[..|tasks| - 1], split, rows, n) + Inputs(tasks[|tasks| - 1], split)[n]
  }

  /** all_feats of the split. */
  function Concatenated(tasks: seq<Task>, split: Split, rows: nat): (m: Matrix)
    requires Fits(tasks, split, rows)
    ensures IsMatrix(m, rows, FeatureWidth * |tasks|)
  {
    seq(rows, n requires 0 <= n < rows => ConcatenatedRow(tasks, split, rows, n))
  }

  // ---------------------------------------------------------------------------
  // What the fusion satisfies

  /** The score list of two groups of tasks is the two lists one after the
      other. */
  lemma TaskScoreListAppend(a: seq<Task>, b: seq<Task>, split: Split, labels: seq<int>, classes: nat, sqrt: real -> real, rows: nat)
    requires Trained(a + b, labels, classes) && Fits(a + b, split, rows)
    ensures Trained(a, labels, classes) && Fits(a, split, rows)
    ensures Trained(b, labels, classes) && Fits(b, split, rows)
    ensures TaskScoreList(a + b, split, labels, classes, sqrt, rows)
         == TaskScoreList(a, split, labels, classes, sqrt, rows) + TaskScoreList(b, split, labels, classes, sqrt, rows)
  {
    assert forall i :: 0 <= i < |a| ==> a[i] == (a + b)[i];
    assert forall i :: 0 <= i < |b| ==> b[i] == (a + b)[|a| + i];
  }

  /** running_probs of two groups of tasks run one after the other is the sum
      of their running_probs. */
  lemma FusedAppend(a: seq<Task>, b: seq<Task>, split: Split, labels: seq<int>, classes: nat, sqrt: real -> real, rows: nat)
    requires Trained(a + b, labels, classes) && Fits(a + b, split, rows)
    ensures Trained(a, labels, classes) && Fits(a, split, rows)
    ensures Trained(b, labels, classes) && Fits(b, split, rows)
    ensures Fused(a + b, split, labels, classes, sqrt, rows)
         == Add(Fused(a, split, labels, classes, sqrt, rows), Fused(b, split, labels, classes, sqrt, rows))
  {
    TaskScoreListAppend(a, b, split, labels, classes, sqrt, rows);
    MatrixSumAppend(TaskScoreList(a, split, labels, classes, sqrt, rows), TaskScoreList(b, split, labels, classes, sqrt, rows), rows, classes);
  }

  /** Task order does not matter. */
  lemma FusedSwap(a: seq<Task>, b: seq<Task>, split: Split, labels: seq<int>, classes: nat, sqrt: real -> real, rows: nat)
    requires Trained(a + b, labels, classes) && Fits(a + b, split, rows)
    ensures Trained(b + a, labels, classes) && Fits(b + a, split, rows)
    ensures Fused(a + b, split, labels, classes, sqrt, rows) == Fused(b + a, split, labels, classes, sqrt, rows)
  {
    FusedAppend(a, b, split, labels, classes, sqrt, rows);
    assert forall i :: 0 <= i < |b + a| ==> (b + a)[i] == if i < |b| then b[i] else a[i - |b|];
    FusedAppend(b, a, split, labels, classes, sqrt, rows);
    AddCommutative(Fused(a, split, labels, classes, sqrt, rows), Fused(b, split, labels, classes, sqrt, rows), rows, classes);
  }

  /** Running every task twice doubles running_probs. */
  lemma FusedTwice(tasks: seq<Task>, split: Split, labels: seq<int>, classes: nat, sqrt: real -> real, rows: nat)
    requires Trained(tasks, labels, classes) && Fits(tasks, split, rows)
    ensures Trained(tasks + tasks, labels, classes) && Fits(tasks + tasks, split, rows)
    ensures Fused(tasks + tasks, split, labels, classes, sqrt, rows) == ScaleMatrix(2.0, Fused(tasks, split, labels, classes, sqrt, rows))
  {
    assert forall i :: 0 <= i < |tasks + tasks| ==> (tasks + tasks)[i] == if i < |tasks| then tasks[i] else tasks[i - |tasks|];
    FusedAppend(tasks, tasks, split, labels, classes, sqrt, rows);
    AddSelf(Fused(tasks, split, labels, classes, sqrt, rows), rows, classes);
  }

  /** Entry n, c of running_probs is the sum over all tasks of their score
      for example n and class c. */
  lemma FusedEntry(tasks: seq<Task>, split: Split, labels: seq<int>, classes: nat, sqrt: real -> real, rows: nat, n: nat, c: nat)
    requires Trained(tasks, labels, classes) && Fits(tasks, split, rows) && n < rows && c < classes
    ensures Fused(tasks, split, labels, classes, sqrt, rows)[n][c]
         == Sum(Entries(TaskScoreList(tasks, split, labels, classes, sqrt, rows), rows, classes, n, c))
    ensures forall i :: 0 <= i < |tasks| ==>
              Entries(TaskScoreList(tasks, split, labels, classes, sqrt, rows), rows, classes, n, c)[i]
              == TaskScores(tasks[i], split, labels, classes, sqrt, rows)[n][c]
  {
    MatrixSumEntry(TaskScoreList(tasks, split, labels, classes, sqrt, rows), rows, classes, n, c);
  }

  /** Block i of the concatenated features is task i's embedding: column
      FeatureWidth * i + j of row n is entry n, j of task i's embedding. */
  lemma {:induction false} ConcatenatedBlock(tasks: seq<Task>, split: Split, rows: nat, n: nat, i: nat, j: nat)
    requires Fits(tasks, split, rows) && n < rows && i < |tasks| && j < FeatureWidth
    ensures ConcatenatedRow(tasks, split, rows, n)[FeatureWidth * i + j] == Inputs(tasks[i], split)[n][j]
    decreases |tasks|
  {
    var k := |tasks|;
    if i < k - 1 {
      ConcatenatedBlock(tasks[..k - 1], split, rows, n, i, j);
    }
  }

  // ---------------------------------------------------------------------------
  // The imperative version

  /** running_probs += the scores of one task, with its statistics
      computed by compute_max_corr on its training batch and applied by
      weighted_network_output to its embeddings of the split. */
  method AddTaskScores(probs: array2<real>, t: Task, split: Split, st: Stats, labels: seq<int>, classes: nat, sqrt: real -> real)
    requires TrainedTask(t, labels, classes) && FitsTask(t, split, probs.Length0)
    requires probs.Length1 == classes && st == MaxCorr(t.train, labels, classes, sqrt)
    modifies probs
    ensures Rows(probs) == Add(old(Rows(probs)), TaskScores(t, split, labels, classes, sqrt, probs.Length0))
  {
    var out := WeightedNetworkOutput(Inputs(t, split), st.sigma, st.g);
    AddInPlace(probs, out);
  }

  /** running_probs after the first i + 1 tasks is running_probs after the
      first i plus the scores of task i. */
  lemma FusedStep(tasks: seq<Task>, i: nat, split: Split, labels: seq<int>, classes: nat, sqrt: real -> real, rows: nat)
    requires Trained(tasks, labels, classes) && Fits(tasks, split, rows) && i < |tasks|
    ensures Trained(tasks[..i], labels, classes) && Fits(tasks[..i], split, rows)
    ensures Trained(tasks[..i + 1], labels, classes) && Fits(tasks[..i + 1], split, rows)
    ensures Fused(tasks[..i + 1], split, labels, classes, sqrt, rows)
         == Add(Fused(tasks[..i], split, labels, classes, sqrt, rows), TaskScores(tasks[i], split, labels, classes, sqrt, rows))
  {
    var ms := TaskScoreList(tasks[..i + 1], split, labels, classes, sqrt, rows);
    assert ms[..i] == TaskScoreList(tasks[..i], split, labels, classes, sqrt, rows);
  }

  /** The state of the scoring loop after the first i tasks: running_probs of
      both batches and avg_sigma hold what those tasks contribute. */
  ghost predicate Accumulated(train: array2<real>, test: array2<real>, tasks: seq<Task>, i: nat, avgSigma: seq<real>,
                              labels: seq<int>, classes: nat, sqrt: real -> real)
    reads train, test
  {
    i <= |tasks| && train.Length1 == classes && test.Length1 == classes
    && Trained(tasks, labels, classes) && Fits(tasks, Train, train.Length0) && Fits(tasks, Test, test.Length0)
    && Trained(tasks[..i], labels, classes) && Fits(tasks[..i], Train, train.Length0) && Fits(tasks[..i], Test, test.Length0)
    && Rows(train) == Fused(tasks[..i], Train, labels, classes, sqrt, train.Length0)
    && Rows(test) == Fused(tasks[..i], Test, labels, classes, sqrt, test.Length0)
    && |avgSigma| == i
    && forall i' :: 0 <= i' < i ==> avgSigma[i'] == SigmaMean(tasks[i'], labels, classes, sqrt)
  }

  /** One pass of the scoring loop: compute_max_corr on the training batch
      of task i, then its scores added into both running_probs. Returns the
      mean of that task's sigma. */
  method AddTask(train: array2<real>, test: array2<real>, tasks: seq<Task>, i: nat, ghost avgSigma: seq<real>,
                 labels: seq<int>, classes: nat, sqrt: real -> real)
      returns (meanSigma: real)
    requires train != test && i < |tasks|
    requires Accumulated(train, test, tasks, i, avgSigma, labels, classes, sqrt)
    modifies train, test
    ensures Accumulated(train, test, tasks, i + 1, avgSigma + [meanSigma], labels, classes, sqrt)
  {
    var t := tasks[i];
    var st := Correlation.ComputeMaxCorr(t.train, labels, classes, sqrt);
    meanSigma := Mean(st.sigma);
    assert meanSigma == SigmaMean(t, labels, classes, sqrt);
    forall i' | 0 <= i' < i + 1 ensures (avgSigma + [meanSigma])[i'] == SigmaMean(tasks[i'], labels, classes, sqrt) {
      if i' < i {
        assert (avgSigma + [meanSigma])[i'] == avgSigma[i'];
      }
    }
    FusedStep(tasks, i, Train, labels, classes, sqrt, train.Length0);
    FusedStep(tasks, i, Test, labels, classes, sqrt, test.Length0);
    AddTaskScores(train, t, Train, st, labels, classes, sqrt);
    AddTaskScores(test, t, Test, st, labels, classes, sqrt);
  }

  /** The scoring loop of the main block: for every task, compute_max_corr
      on the training batch, the mean of sigma appended to avg_sigma, and the
      task's scores added into running_probs_train and running_probs_test. */
  method RunningProbs(tasks: seq<Task>, labels: seq<int>, classes: nat, sqrt: real -> real, testRows: nat)
      returns (probsTrain: Matrix, probsTest: Matrix, avgSigma: seq<real>)
    requires |labels| > 0 && Trained(tasks, labels, classes) && Fits(tasks, Train, |labels|) && Fits(tasks, Test, testRows)
    ensures probsTrain == Fused(tasks, Train, labels, classes, sqrt, |labels|)
    ensures probsTest == Fused(tasks, Test, labels, classes, sqrt, testRows)
    ensures |avgSigma| == |tasks|
    ensures forall i :: 0 <= i < |tasks| ==> avgSigma[i] == SigmaMean(tasks[i], labels, classes, sqrt)
  {
    var train := FromMatrix(Zeros(|labels|, classes), |labels|, classes);
    var test := FromMatrix(Zeros(testRows, classes), testRows, classes);
    avgSigma := [];
    var i := 0;
    while i < |tasks|
      invariant train != test && train.Length0 == |labels| && test.Length0 == testRows
      invariant Accumulated(train, test, tasks, i, avgSigma, labels, classes, sqrt)
      decreases |tasks| - i
    {
      var m := AddTask(train, test, tasks, i, avgSigma, labels, classes, sqrt);
      avgSigma := avgSigma + [m];
      i := i + 1;
    }
    assert tasks[..|tasks|] == tasks;
    probsTrain, probsTest := Rows(train), Rows(test);
  }

  /** all_feats[:, i*84:(i+1)*84] = the embedding of task i, for every task
      in turn. */
  method ConcatenateFeatures(tasks: seq<Task>, split: Split, rows: nat) returns (feats: Matrix)
    requires Fits(tasks, split, rows)
    ensures feats == Concatenated(tasks, split, rows)
  {
    var a := FromMatrix(Zeros(rows, FeatureWidth * |tasks|), rows, FeatureWidth * |tasks|);
    var i := 0;
    while i < |tasks|
      invariant 0 <= i <= |tasks|
      invariant a.Length0 == rows && a.Length1 == FeatureWidth * |tasks|
      invariant forall n, j :: 0 <= n < rows && 0 <= j < a.Length1 ==>
                  a[n, j] == if j < FeatureWidth * i then Inputs(tasks[j / FeatureWidth], split)[n][j % FeatureWidth] else 0.0
    {
      AssignColumns(a, FeatureWidth * i, Inputs(tasks[i], split), FeatureWidth);
      i := i + 1;
    }
    feats := Rows(a);
    forall n | 0 <= n < rows ensures feats[n] == Concatenated(tasks, split, rows)[n] {
      forall j | 0 <= j < FeatureWidth * |tasks| ensures feats[n][j] == ConcatenatedRow(tasks, split, rows, n)[j] {
        ConcatenatedBlock(tasks, split, rows, n, j / FeatureWidth, j % FeatureWidth);
      }
    }
  }
}
