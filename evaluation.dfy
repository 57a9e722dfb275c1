/** The end of the main block of main.py: the predicted class of every
    example is the index of the largest entry of its row of running_probs,
    and the accuracy is the fraction of test examples whose prediction equals
    their label. */
module Evaluation {
  import opened Linear
  import opened Statistics
  import opened Fusion

  /** The index torch.max(row, 1) returns for one row: the position of its
      largest entry, the first such position when several entries tie. */
  function ArgMax(v: Vector): (k: nat)
    requires |v| > 0
    ensures k < |v|
    ensures forall j :: 0 <= j < |v| ==> v[j] <= v[k]
    ensures forall j :: 0 <= j < k ==> v[j] < v[k]
  {
    if |v| == 1 then 0
    else
      var k := ArgMax(v[..|v| - 1]);
      if v[|v| - 1] > v[k] then |v| - 1 else k
  }

  /** The predicted class of every row of a score matrix. */
  function Predictions(probs: Matrix, classes: nat): (p: seq<nat>)
    requires classes > 0 && IsMatrix(probs, |probs|, classes)
    ensures |p| == |probs|
    ensures forall n :: 0 <= n < |probs| ==> p[n] < classes && forall c :: 0 <= c < classes ==> probs[n][c] <= probs[n][p[n]]
  {
    seq(|probs|, n requires 0 <= n < |probs| => ArgMax(probs[n]))
  }

  /** (predicted == labels).sum(): the number of positions where the
      prediction equals the label. */
  function Matches(predicted: seq<nat>, labels: seq<int>): (m: nat)
    requires |predicted| == |labels|
    ensures m <= |labels|
    ensures m == |labels| <==> forall i :: 0 <= i < |labels| ==> predicted[i] == labels[i]
    ensures m == 0 <==> forall i :: 0 <= i < |labels| ==> predicted[i] != labels[i]
  {
    if |labels| == 0 then 0
    else
      var k := |labels| - 1;
      Matches(predicted[..k], labels[..k]) + (if predicted[k] == labels[k] then 1 else 0)
  }

  /** The fraction of the examples whose prediction equals the label: it lies
      in [0, 1], is 1 exactly when every prediction is right and 0 exactly
      when every prediction is wrong. */
  function Accuracy(predicted: seq<nat>, labels: seq<int>): (acc: real)
    requires |predicted| == |labels| > 0
    ensures 0.0 <= acc <= 1.0
    ensures acc == 1.0 <==> forall i :: 0 <= i < |labels| ==> predicted[i] == labels[i]
    ensures acc == 0.0 <==> forall i :: 0 <= i < |labels| ==> predicted[i] != labels[i]
  {
    var m, n := Matches(predicted, labels) as real, |labels| as real;
    FractionBounds(m, n);
    m / n
  }

  /** A count m out of n > 0 gives a fraction in [0, 1] that is 1 exactly for
      m == n and 0 exactly for m == 0. */
  lemma FractionBounds(m: real, n: real)
    requires 0.0 <= m <= n && n > 0.0
    ensures 0.0 <= m / n <= 1.0
    ensures m / n == 1.0 <==> m == n
    ensures m / n == 0.0 <==> m == 0.0
  {
    var q := m / n;
    assert q * n == m;
    assert n - m == (1.0 - q) * n;
  }

  // ---------------------------------------------------------------------------
  // Scaling the scores by a positive factor changes no prediction

  /** Multiplying by a positive factor keeps the order of two reals. */
  lemma ScaledOrder(s: real, x: real, y: real)
    requires s > 0.0
    ensures s * x > s * y <==> x > y
  {
    assert s * x - s * y == s * (x - y);
    if x > y {
      assert s * (x - y) > 0.0;
    } else {
      assert s * (y - x) >= 0.0;
    }
  }

  /** Two rows whose entries compare the same way have their largest entry
      at the same place. */
  lemma {:induction false} ArgMaxSameOrder(v: Vector, w: Vector)
    requires |v| == |w| > 0
    requires forall i, j :: 0 <= i < |v| && 0 <= j < |v| ==> (v[i] > v[j] <==> w[i] > w[j])
    ensures ArgMax(v) == ArgMax(w)
  {
    var n := |v|;
    if n > 1 {
      ArgMaxSameOrder(v[..n - 1], w[..n - 1]);
    }
  }

  /** The largest entry of a row is at the same place after the row is
      multiplied by a positive factor. */
  lemma ArgMaxScaled(v: Vector, s: real)
    requires |v| > 0 && s > 0.0
    ensures ArgMax(Scale(s, v)) == ArgMax(v)
  {
    var w := Scale(s, v);
    forall i, j | 0 <= i < |v| && 0 <= j < |v| ensures v[i] > v[j] <==> w[i] > w[j] {
      ScaledPair(v, s, i, j);
    }
    ArgMaxSameOrder(v, w);
  }

  /** One pair of entries of a row compares the same way after scaling. */
  lemma ScaledPair(v: Vector, s: real, i: nat, j: nat)
    requires s > 0.0 && i < |v| && j < |v|
    ensures v[i] > v[j] <==> Scale(s, v)[i] > Scale(s, v)[j]
  {
    var x, y := v[i], v[j];
    assert Scale(s, v)[i] == s * x && Scale(s, v)[j] == s * y;
    ScaledOrder(s, x, y);
  }

  /** The predictions of a score matrix multiplied by a positive factor are
      the predictions of the matrix. */
  lemma PredictionsScaled(probs: Matrix, s: real, classes: nat)
    requires classes > 0 && IsMatrix(probs, |probs|, classes) && s > 0.0
    ensures Predictions(ScaleMatrix(s, probs), classes) == Predictions(probs, classes)
  {
    forall n | 0 <= n < |probs|
      ensures Predictions(ScaleMatrix(s, probs), classes)[n] == Predictions(probs, classes)[n]
    {
      ArgMaxScaled(probs[n], s);
    }
  }

  /** Running every task twice changes neither the predictions nor the
      accuracy. */
  lemma TasksTwiceKeepAccuracy(tasks: seq<Task>, labels: seq<int>, classes: nat, sqrt: real -> real, testLabels: seq<int>)
    requires classes > 0 && |testLabels| > 0
    requires Trained(tasks, labels, classes) && Fits(tasks, Test, |testLabels|)
    ensures Trained(tasks + tasks, labels, classes) && Fits(tasks + tasks, Test, |testLabels|)
    ensures Predictions(Fused(tasks + tasks, Test, labels, classes, sqrt, |testLabels|), classes)
         == Predictions(Fused(tasks, Test, labels, classes, sqrt, |testLabels|), classes)
    ensures Accuracy(Predictions(Fused(tasks + tasks, Test, labels, classes, sqrt, |testLabels|), classes), testLabels)
         == Accuracy(Predictions(Fused(tasks, Test, labels, classes, sqrt, |testLabels|), classes), testLabels)
  {
    FusedTwice(tasks, Test, labels, classes, sqrt, |testLabels|);
    PredictionsScaled(Fused(tasks, Test, labels, classes, sqrt, |testLabels|), 2.0, classes);
  }

  // ---------------------------------------------------------------------------
  // The main block

  /** The max-corr classifier of the main block: running_probs of both batches
      over all tasks, the predictions of both, and the accuracy on the test
      batch. */
  method MaxCorrAccuracy(tasks: seq<Task>, labels: seq<int>, testLabels: seq<int>, classes: nat, sqrt: real -> real)
      returns (accTest: real, predictedTrain: seq<nat>, predictedTest: seq<nat>)
    requires |labels| > 0 && |testLabels| > 0 && classes > 0
    requires Trained(tasks, labels, classes) && Fits(tasks, Train, |labels|) && Fits(tasks, Test, |testLabels|)
    ensures predictedTrain == Predictions(Fused(tasks, Train, labels, classes, sqrt, |labels|), classes)
    ensures predictedTest == Predictions(Fused(tasks, Test, labels, classes, sqrt, |testLabels|), classes)
    ensures accTest == Accuracy(predictedTest, testLabels)
    ensures 0.0 <= accTest <= 1.0
  {
    var probsTrain, probsTest, avgSigma := RunningProbs(tasks, labels, classes, sqrt, |testLabels|);
    predictedTrain := Predictions(probsTrain, classes);
    predictedTest := Predictions(probsTest, classes);
    accTest := Accuracy(predictedTest, testLabels);
  }
}
