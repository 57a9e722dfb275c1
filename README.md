# Maximal-correlation transfer classifier: a Dafny model

`main.py` classifies the examples of a target dataset using networks trained on
source tasks. For each task network it computes the maximal-correlation
statistics of the target training batch:

- the feature weights `sigma` (one per embedding feature);
- the class-conditional expectations `g` (one row per class).

Each task then scores every example of a batch by the weighted inner product
of its centred embedding with every row of `g`. The scores of all tasks are
summed into `running_probs`. The predicted class is the arg-max of a row, and
the accuracy is the fraction of correct test predictions.

This project models that core over the real numbers:

- `Linear`: vectors and matrices as sequences of reals, with sums, dot
  products, scaling, matrix addition and sums of matrices, and their algebra.
- `Tensors`: the in-place tensor operations the source uses (broadcast
  subtraction, division and multiplication, `+=`, column-slice assignment,
  `torch.mm` with a transposed operand). They are methods on `array2`. The
  matrix `+=` is stated against `Linear.Add`, the sums and dot products
  against `Linear.Sum` and `Linear.Dot`, and the broadcast operations,
  `torch.mm` and the slice assignment entry by entry against the old
  contents.
- `Statistics` and `StatisticsLemmas`: `get_means`, `get_std_devs` and
  `compute_max_corr` as specification functions, and what is proved about
  them. Every statistic of feature `d` depends on column `d` of the embedding
  alone, so the functions are defined column by column and then assembled.
- `Correlation`: `get_means`, `get_std_devs` and `compute_max_corr` as the
  source writes them. These are loops over the examples that update tensors
  in place, proved equal to the specification functions.
- `Scoring`: `weighted_network_output` (a method proved equal to the function
  `Scores`) and `compute_square_difference`, with their invariances.
- `Fusion`: the loop over tasks that builds `running_probs_train`,
  `running_probs_test` and `avg_sigma`, and the feature concatenation
  `all_feats_*`.
- `Evaluation`: `torch.max(running_probs, 1)`, the accuracy, and the whole
  max-corr branch of the main block.
- `Config`: the number of classes for each dataset mode.

The network is not modelled. Each task supplies its embeddings of the
training and test batches (`Fusion.Task`), and `net(x)` is replaced by that
matrix. `torch.sqrt` is a parameter `sqrt: real -> real`. Where a property
depends on it, the property assumes `Statistics.IsRoot`: the root of a
non-negative number is non-negative, and it is zero exactly at zero.

Properties proved include the following:

- The sign normalisation at `main.py:58-60` never changes anything. Before
  it, `sigma[d]` already equals `sum_c g[c][d]^2`, which is never negative
  (`StatisticsLemmas.SignNormalizeIsIdentity`).
- Negating one feature column of the embeddings keeps `sigma`, negates that
  column of `g` (it does not leave `g` unchanged), and keeps every score.
- Adding a constant vector to every embedding changes neither the
  statistics nor the scores.
- The fused scores are the sum of the per-task scores. So task order
  does not matter, and running every task twice doubles `running_probs`
  without changing any prediction.

## Model

| member | source | states |
|---|---|---|
| Config.NumClasses | main.py:8-15 | "cifar" gives 2 classes, "dogs" and "tiny_imagenet" give 5, and every other mode fails with "Invalid dataset type" (both directions) |
| Correlation.ColumnMeans | main.py:77-79 | entry j of the result is the batch mean of column j |
| Correlation.GetMeans | main.py:77-79 | the result is the vector of column means `Statistics.Means(e)` |
| Correlation.CenterInPlace | main.py:48 | every column of the tensor becomes that column minus its batch mean |
| Correlation.DiagonalOfGram | main.py:84 | entry j is the sum of squares of column j, the j-th diagonal entry of `outputs^T outputs` |
| Correlation.ReplaceZerosByOne | main.py:85 | every 0 entry becomes 1 and every other entry is kept |
| Correlation.GetStdDevs | main.py:81-87 | the result is `Statistics.Norms(e, sqrt)`: for each column, the root of the centred sum of squares, with no division by N, and 1 where that root is 0 |
| Correlation.NormalizedOutputs | main.py:47-49 | every column of the result is the centred column divided by its guarded norm |
| Correlation.AddRowToClass | main.py:52 | row `labels[n]` of `g_y` gains row n of the outputs; every other row is unchanged |
| Correlation.AddClassTerm | main.py:51-52 | one loop step turns the totals over the first n examples into the totals over the first n+1 |
| Correlation.RunningTotalsStart | main.py:50 | the totals over no example are the zero matrix `torch.zeros((num_classes, D))` |
| Correlation.ZeroArray | main.py:50 | an all-zero tensor is the zero matrix |
| Correlation.ClassLoop | main.py:51-52 | the loop over all examples leaves the class totals of every column in `g_y` |
| Correlation.ClassSums | main.py:50-52 | entry (c, d) is the sum of column d over the examples of class c |
| Correlation.AddWeightedRow | main.py:56 | `sigma` gains row n of the outputs times row `labels[n]` of `g_y`, entry by entry |
| Correlation.AddCorrelationTerm | main.py:55-56 | one loop step extends the running correlation sums from n to n+1 examples |
| Correlation.RunningDotsStart | main.py:54 | the running sums over no example are zero |
| Correlation.CorrelationLoop | main.py:55-56 | the loop leaves `sigma[d]` equal to the dot product of column d with the gathered class means |
| Correlation.CorrelationSums | main.py:54-56 | `sigma[d]` equals the sum over n of `outputs[n][d] * g_y[labels[n]][d]` |
| Correlation.ClassMeansOf | main.py:50-53 | column d of the result is the class totals of column d divided by N, the class means |
| Correlation.RawSigmas | main.py:54-57 | `sigma[d]` is the raw correlation of column d, divided by N |
| Correlation.SignNormalizeInPlace | main.py:59-60 | every column of g and its `sigma` become `SignNormalize` of the old values |
| Correlation.ComputeMaxCorr | main.py:45-61 | the returned `(sigma, g_y)` is exactly `Statistics.MaxCorr(e, labels, classes, sqrt)` |
| Statistics.SignNormalize | main.py:59-60 | the new sigma is `abs(sigma)` and at least 0; `sigma * g[c]` is preserved; sigma 0 gives a zero column of g; positive sigma keeps g |
| StatisticsLemmas.CenteredSumsToZero | main.py:48 | a centred column sums to 0 |
| StatisticsLemmas.GuardedNormMeaning | main.py:84-85 | the guarded norm is never 0; the root is 0 exactly when the centred column is all zero; the result is then 1, and otherwise it is the root |
| StatisticsLemmas.NormsMeaning | main.py:81-87 | for every column of a batch: the std is positive, and it is 1 with a zero root exactly when the centred column is zero |
| StatisticsLemmas.ClassTotalsExtend | main.py:51-52 | one more example adds its value to the total of its own class only |
| StatisticsLemmas.GatherByClass | main.py:55-56 | the sum over examples of `z[n] * w[labels[n]]` equals the sum over classes of `w[c]` times the class total |
| StatisticsLemmas.TotalsAreScaledMeans | main.py:53 | the class totals are N times the class means |
| StatisticsLemmas.RawSigmaIsSumOfSquares | main.py:50-57 | before normalisation, sigma of a column equals the sum of its squared class means, so it is at least 0 |
| StatisticsLemmas.SignNormalizeIsIdentity | main.py:58-60 | the column statistics are `(g . g, g)` with g the class means, so the sign step changes nothing |
| StatisticsLemmas.AbsentClass | main.py:50-53 | a class carried by no example gets class mean 0 in every column |
| StatisticsLemmas.ConstantColumn | main.py:47-61 | a constant column centres and normalises to zeros and gets sigma 0 and an all-zero g |
| StatisticsLemmas.MeanShift | main.py:48 | adding t to every entry of a column adds t to its mean |
| StatisticsLemmas.CenteredShift | main.py:48 | adding t to every entry of a column leaves it centred the same |
| StatisticsLemmas.ColumnTranslationInvariant | main.py:45-61 | the statistics of a column shifted by a constant are those of the column |
| StatisticsLemmas.MeanNegate | main.py:48 | the mean of a negated column is the negated mean |
| StatisticsLemmas.CenteredNegate | main.py:48 | a negated column centres to the negated centred column |
| StatisticsLemmas.GuardedNormNegate | main.py:84-85 | a negated column has the same guarded norm |
| StatisticsLemmas.NormalizedNegate | main.py:47-49 | a negated column normalises to the negated normalised column |
| StatisticsLemmas.ClassTotalsNegate | main.py:50-52 | negating a column negates every class total |
| StatisticsLemmas.ClassMeansNegate | main.py:50-53 | negating a column negates every class mean |
| StatisticsLemmas.ColumnNegation | main.py:45-61 | a negated column keeps its sigma and gets the negated column of g |
| StatisticsLemmas.ColumnOfG | main.py:50-53 | column d of the batch g is the g of column d on its own |
| StatisticsLemmas.MaxCorrSigmaIsSumOfSquares | main.py:54-60 | `sigma[d] == sum_c g[c][d]^2`, at least 0, and 0 exactly when column d of g is all zero |
| StatisticsLemmas.MaxCorrAbsentClass | main.py:50-53 | a class that no example carries gets an all-zero row of g |
| StatisticsLemmas.MaxCorrConstantColumn | main.py:45-61 | a feature that is constant over the batch has std 1, normalises to zeros, and gets sigma 0 and an all-zero column of g |
| StatisticsLemmas.MaxCorrTranslationInvariant | main.py:45-61 | adding one vector to every embedding changes neither sigma nor g |
| StatisticsLemmas.MaxCorrNegateColumn | main.py:45-61 | negating feature d0 keeps sigma, negates column d0 of g and keeps the other columns |
| StatisticsLemmas.MaxCorrKeepsWeight | main.py:59-60 | `sigma[d] * g[c][d]` is the same after sign normalisation as before it |
| StatisticsLemmas.MaxCorrKeepsWeights | main.py:59-60 | the same for every class and feature at once |
| Scoring.CenteredScaledRows | main.py:68-70 | a tensor holding `centred * sigma` entry by entry has every row equal to the Hadamard product of the centred row with sigma |
| Scoring.CenteredScaled | main.py:65-70 | the outputs are centred and multiplied column-wise by sigma |
| Scoring.ProductIsScores | main.py:72 | `torch.mm(outputs, g^T)` of the scaled outputs is the score matrix |
| Scoring.WeightedNetworkOutput | main.py:63-75 | the result is `Scores(e, sigma, g)`: entry (n, c) is the sum over d of `(e[n][d] - mean[d]) * sigma[d] * g[c][d]` |
| Scoring.ScoresAreWeightedDifferences | main.py:89-94 | score (n, c) equals `compute_square_difference` with the batch means and the class rows weighted by sigma |
| Scoring.SquareDifferenceShift | main.py:89-94 | shifting the embeddings and the means by the same vector leaves `compute_square_difference` unchanged |
| Scoring.ScoresDependOnWeights | main.py:70-72 | two `(sigma, g)` with the same products `sigma[d] * g[c][d]` give the same scores |
| Scoring.SignNormalizationKeepsScores | main.py:59-60 | the scores with the sign-normalised statistics are the scores with the raw ones |
| Scoring.ScoresTranslationInvariant | main.py:68 | adding one vector to every embedding leaves the scores unchanged |
| Scoring.ScoreRowFlip | main.py:70-72 | negating feature d0 of a row and of every class row of g keeps the score row |
| Scoring.MeansNegated | main.py:68 | negating feature d0 negates mean d0 and keeps the other means |
| Scoring.CenteredRowNegated | main.py:68 | negating feature d0 negates entry d0 of every centred row |
| Scoring.ScoresNegationInvariant | main.py:63-75 | negating feature d0 in both the training and the scored embeddings leaves every score unchanged |
| Tensors.FromMatrix | main.py:47 | the new tensor holds the given matrix |
| Tensors.SubtractFromRows | main.py:68 | broadcast `-=`: every entry loses the entry of the vector in its column |
| Tensors.DivideRows | main.py:49 | broadcast `/=`: every entry is divided by the entry of the vector in its column |
| Tensors.MultiplyRows | main.py:70 | broadcast `*=`: every entry is multiplied by the entry of the vector in its column |
| Tensors.AddInPlace | main.py:202 | `+=` of a matrix: the new tensor is the old tensor plus the matrix |
| Tensors.AssignColumns | main.py:212 | slice assignment: columns offset to offset + w hold the matrix and all other entries are kept |
| Tensors.DivideAll | main.py:53 | every entry is divided by the scalar |
| Tensors.ColumnSum | main.py:79 | the result is the sum of column j |
| Tensors.ColumnDot | main.py:84 | the result is the dot product of column j of a and column k of b |
| Tensors.RowDot | main.py:72 | the result is the dot product of row i of a and row k of b |
| Tensors.ProductRow | main.py:72 | row i of the product is filled with the dot products of row i with every row of b; other rows are kept |
| Tensors.MultiplyTransposed | main.py:72 | `torch.mm(a, b^T)`: entry (i, k) is the dot product of row i of a with row k of b |
| Tensors.DivideVector | main.py:57 | every entry is divided by the scalar |
| Tensors.MultiplyVector | main.py:59-60 | every entry is multiplied by the matching entry of w |
| Fusion.TaskScoreListAppend | main.py:193-205 | the score list of `a + b` is that of a followed by that of b |
| Fusion.FusedStep | main.py:202 | the scores fused over the first i+1 tasks are those over the first i plus the scores of task i |
| Fusion.FusedAppend | main.py:193-205 | fusing `a + b` is the sum of fusing a and fusing b |
| Fusion.FusedSwap | main.py:193-205 | the fused scores do not depend on the order of the two task lists |
| Fusion.FusedTwice | main.py:193-205 | listing every task twice doubles `running_probs` |
| Fusion.FusedEntry | main.py:191-205 | entry (n, c) of `running_probs` is the sum over tasks of that task's score (n, c) |
| Fusion.AddTaskScores | main.py:202 | `running_probs +=` adds that task's `weighted_network_output` |
| Fusion.AddTask | main.py:193-205 | one iteration of the loop over tasks extends both running sums by task i and appends its mean sigma |
| Fusion.RunningProbs | main.py:188-205 | `running_probs_train` and `running_probs_test` are the fused scores of all tasks; `avg_sigma[i]` is the mean of task i's sigma |
| Fusion.ConcatenatedBlock | main.py:212 | entry `84*i + j` of a concatenated row is feature j of task i's embedding |
| Fusion.ConcatenateFeatures | main.py:206-215 | `all_feats` is the row-wise concatenation of every task's embeddings, block i in columns `84*i` to `84*(i+1)` |
| Evaluation.ArgMax | main.py:220-221 | the index is in range, its entry is maximal, and every earlier entry is strictly smaller: the first maximal index, which is what the `torch.max` documentation says it returns for ties |
| Evaluation.Predictions | main.py:220-221 | every prediction is a valid class whose score is maximal in its row |
| Evaluation.Matches | main.py:225 | the count is at most N; it is N exactly when every prediction is right and 0 exactly when every one is wrong |
| Evaluation.Accuracy | main.py:225 | the accuracy is in [0, 1]; it is 1 exactly when all predictions are right and 0 exactly when all are wrong |
| Evaluation.ArgMaxSameOrder | main.py:220 | two rows whose entries compare alike have the same arg-max |
| Evaluation.ArgMaxScaled | main.py:220 | scaling a row by a positive factor keeps its arg-max |
| Evaluation.PredictionsScaled | main.py:220-221 | scaling the scores by a positive factor keeps every prediction |
| Evaluation.TasksTwiceKeepAccuracy | main.py:193-225 | running every task twice changes neither the test predictions nor the accuracy |
| Evaluation.MaxCorrAccuracy | main.py:188-225 | the predictions are the arg-max of the fused scores, and the accuracy is their match rate on the test labels, in [0, 1] |

## Left out

- `seed_everything`, `lookup_classes`, `classify_svm` and `classify_logistic`,
  dataset loading, network construction, training and checkpoint loading,
  and all `print` calls are not modelled. They are randomness, I/O, or
  calls into `nets`, `datasets` and scikit-learn.
- `num_source_samps` and `num_target_samps` are not modelled. They only
  size the dataset loaders.
- The networks are not modelled. Each task supplies its embeddings of the
  training and test batches, and every call `net(x)` on the same batch is
  taken to return the same matrix.
- Aliasing between the network's output and its input is not modelled.
  `outputs -=` and `outputs /=` at `main.py:48-49` and `main.py:68` update
  the tensor `net` returned. The model takes that tensor to be a new one, so
  these updates never reach `inputs`. A network that returned its input
  tensor itself would have `compute_max_corr` change the batch that
  `main.py:202` later scores. Such a network is an identity feature
  extractor.
- Floating point is not modelled: arithmetic is exact over the reals, and
  NaN does not arise. The batches must be non-empty (`Statistics.IsBatch`),
  because the mean of an empty batch is NaN in torch.
- `torch.sqrt` is an uninterpreted parameter. Properties that need it to
  behave like a root assume `Statistics.IsRoot`.
- The labels must lie in `[0, num_classes)` (`Statistics.ValidLabels`), as
  the datasets produce them. Negative labels are excluded, although
  `g_y[labels[idx]]` at `main.py:52` and `main.py:56` would accept a label
  in `[-num_classes, 0)` and index from the end.
- Each data loader is assumed to yield the whole dataset as one batch. That
  is why `len(loader.dataset)` and the batch size agree.
- Each loader is assumed to yield its batch in the same order on every pass
  (`main.py:194`, `203`, `209`, `213` and `223`). One `labels` sequence is
  shared by every task, and the test labels at `main.py:225` are compared
  row by row with predictions made on an earlier pass.
- The score matrices must have at least one class (`classes > 0`), so that
  `torch.max` has a column.
- `Fusion.RunningProbs` requires every task's embeddings to be 84 wide. That
  width is the fixed second dimension of the `sigma` and `g` storage
  tensors.
- The storage tensors `sigma[i,:]` and `g[:,:,i]` are not modelled. A value
  written there and read back is the value computed, so the model passes it
  on directly.
- The training-batch loops of the main block rebind `labels_train` and
  `labels_test`, and the final loop recomputes `acc_test` once per batch.
  With one batch, these reduce to the single values modelled.
- `compute_square_difference` takes `stds` but never reads it, so the model
  has no such parameter. Its docstring speaks of a squared difference, but
  the code computes a dot product, and the model follows the code.
- `torch.diag(torch.mm(outputs.T, outputs))` is modelled as the diagonal
  alone, by `Correlation.DiagonalOfGram`. The off-diagonal entries are
  computed and then discarded.
- `Correlation.SignNormalizeInPlace` follows the code's `torch.sign`,
  including sign 0 for a zero sigma. `StatisticsLemmas.SignNormalizeIsIdentity`
  shows that this step never changes the result.
