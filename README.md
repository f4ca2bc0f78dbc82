# GraphTERN batched K-Means and result scanner, in Dafny

This project models two parts of GraphTERN.

- **`BatchKMeans`** (graphtern/kmeans.py) runs many independent K-Means
  problems at once, one per batch slice of a rank 2, 3 or 4 tensor. It has
  these parts:
  - the similarity `euc_sim`;
  - labelling each point with its nearest centroid;
  - moving centroids to the means of their clusters;
  - the movement error and the inertia;
  - k-means++ and random seeding;
  - the restart loop of `fit`, which keeps the restart with the lowest inertia;
  - `predict`.
- **`parse_evaluation_results`** (get_minimum_result.py) splits a training log
  into lines. It keeps the smallest `Refined_FDE` value and the `Refined_ADE`
  value of the line where that minimum first appeared, and it skips `Epoch:`
  lines.

The project has four files.

- `wrappers.dfy` holds `Option`.
- `vectors.dfy` holds exact real vector arithmetic: dot products, squared
  distances, and the arg-max/arg-min reductions that `max(dim=-1)` and
  `argmin` perform.
- `kmeans.dfy` holds module `KMeans`.
  - Its spec functions describe one clustering iteration, the inner loop, the
    seeding and the restarts.
  - The class `BatchKMeans` holds the configuration and the `centroids`
    buffer. Its methods implement the source's loops, and each method's
    contract ties it to those functions.
- `minimum_result.dfy` holds module `MinimumResult`.
  - It models the regular expressions by what they match.
  - The scan is a spec function over the lines.
  - `ParseEvaluationResults` is the loop itself, proved equal to that function.

More on how the kernel is represented:

- **Tensors.** A tensor is the sequence of its batch slices. A slice is a
  sequence of n points, and a point is a sequence of d reals. The source lays
  data out as (…, d, n); the model uses the point-major layout, which holds
  the same entries. The tensor rank is passed beside the data, because
  `kmeanspp` and random initialisation branch on it.
- **Randomness.** It enters as `Draw` values: the seed index of
  `np.random.randint`, and the index list of `np.random.choice`. `Fit` takes
  one draw per restart.
- **Errors.** Each exception the source can raise becomes a `KMeansError`
  value:
  - `UnsupportedRank`: the `NotImplementedError` of `kmeanspp`;
  - `IndexOutOfRange`: an index past the end of an axis;
  - `SampleTooLarge`: `np.random.choice` without replacement;
  - `EmptyCluster`: the mean of an empty cluster;
  - `NoClusters`: reducing over zero clusters;
  - `NoIteration`: with `max_iter == 0` there is no inertia to compare;
  - `NotFitted` and `ShapeMismatch`: for `predict`.

  When a log line improves the FDE minimum but has no ADE match, the scanner
  returns `MissingAde`.

## Model

| member | source | states |
|---|---|---|
| Vectors.PolarIdentity | graphtern/kmeans.py:38-43 | 2·aᵀb − ‖a‖² − ‖b‖² equals −‖a − b‖², the identity `euc_sim` relies on |
| Vectors.SqDistZeroIff | graphtern/kmeans.py:28-31 | the squared distance of two vectors is zero exactly when they are equal |
| Vectors.ArgMax | graphtern/kmeans.py:82 | the index `max(dim=-1)` returns is in range and its element is at least every other element |
| Vectors.ArgMin | graphtern/kmeans.py:54 | the index `argmin` returns is in range and its element is at most every other element |
| Vectors.MaxOf | graphtern/kmeans.py:53 | the value half of `max(dim=-1)` is an element of the row and at least every element |
| Vectors.MaxOfIsAtArgMax | graphtern/kmeans.py:53 | the value `max` returns is the element at the index it returns |
| KMeans.EucSimIsNegSqDist | graphtern/kmeans.py:38-43 | `euc_sim` has one entry per sample and centroid of each slice, and each entry is minus their squared distance |
| KMeans.EucSim | graphtern/kmeans.py:38-43 | definition of `euc_sim`, one similarity per slice, sample and centroid; its meaning is proved in EucSimIsNegSqDist |
| KMeans.GetLabels | graphtern/kmeans.py:80-83 | every point gets a label naming a centroid that no other centroid is strictly closer to, and its max similarity is minus the squared distance to that centroid |
| KMeans.NearestIsMinimal | graphtern/kmeans.py:80-83 | the squared distance to a nearest centroid is the smallest distance to any centroid |
| KMeans.MaxSimsAreNegNearest | graphtern/kmeans.py:80-83 | every max similarity is minus the point's smallest squared distance to a centroid |
| KMeans.MaxSimsAreRowMaxima | graphtern/kmeans.py:82 | the max similarities get_labels returns are the row maxima of `euc_sim`, the values half of `max(dim=-1)` |
| KMeans.MemberCountIsSize | graphtern/kmeans.py:86-88 | the mask count of a cluster is the number of points labelled with it |
| KMeans.MaskedSumIsMemberSum | graphtern/kmeans.py:86-88 | the mask-weighted sum of a coordinate is the sum of that coordinate over the cluster's members |
| KMeans.ComputeCentroids | graphtern/kmeans.py:85-93 | when it succeeds, the result has one slice per input slice and k centroids of dimension d in each |
| KMeans.ComputeCentroidsIsMean | graphtern/kmeans.py:85-93 | it fails exactly when some cluster of some slice has no member; otherwise every centroid is the mean of its own members |
| KMeans.CalculateError | graphtern/kmeans.py:28-31 | the movement error is never negative |
| KMeans.CalculateErrorZeroIff | graphtern/kmeans.py:28-31 | the movement error is zero exactly when the two centroid tensors are equal |
| KMeans.CalculateInertia | graphtern/kmeans.py:34-35 | definition of `(-a).mean()` over all points of all slices; its meaning is proved in InertiaIsMeanNearestSqDist |
| KMeans.InertiaIsMeanNearestSqDist | graphtern/kmeans.py:34-35 | the inertia of the max similarities is the mean, over all points, of the squared distance to the nearest centroid, and it is not negative |
| KMeans.InertiaOfNegated | graphtern/kmeans.py:34-35 | the mean of the negated values is the sum of the distances over their count, and it is not negative |
| KMeans.Iteration | graphtern/kmeans.py:107-111 | one iteration fails only with EmptyCluster; otherwise the new centroids keep the shape of the old ones |
| KMeans.IterationSettles | graphtern/kmeans.py:107-111 | one iteration fails exactly when the new labels leave a cluster empty; otherwise every label is in range and names a nearest old centroid, every centroid is the mean of its members and the inertia is not negative |
| KMeans.Lloyd | graphtern/kmeans.py:105-113 | the inner loop never does more than max_iter iterations and keeps the errors of earlier iterations; every error but the last exceeds tol, and it stops before max_iter only on an error of at most tol |
| KMeans.LloydSettles | graphtern/kmeans.py:105-113 | the centroids, labels and inertia a successful inner loop ends with are settled: each centroid is the mean of its members and the inertia is not negative |
| KMeans.BestSimIsMax | graphtern/kmeans.py:52-53 | a point's best similarity to the seeds chosen so far is attained by one of them and is at least its similarity to each |
| KMeans.BestSimIsNegNearest | graphtern/kmeans.py:52-53 | that best similarity is minus the squared distance to the nearest chosen seed |
| KMeans.FarthestIsFarthest | graphtern/kmeans.py:52-54 | the next seed is a sample whose distance to its nearest chosen seed is at least every other sample's |
| KMeans.SeedSlice | graphtern/kmeans.py:45-69 | the first i seeds of a slice are i points of dimension d |
| KMeans.SeedSliceStep | graphtern/kmeans.py:50-68 | i + 1 seeds are the first i seeds followed by the sample farthest from them |
| KMeans.SeedIsFarthest | graphtern/kmeans.py:50-68 | adding a seed keeps the earlier seeds and adds a sample of the slice that is at least as far from them as any other sample |
| KMeans.SeedsAreSamples | graphtern/kmeans.py:49-64 | the first seed is the sample at the drawn index, and every seed is a sample of its own slice |
| KMeans.Seeds | graphtern/kmeans.py:45-69 | the seeding gives k centroids of dimension d in every slice |
| KMeans.SeedColumn | graphtern/kmeans.py:47-68 | writing the next seed into column i of the zero-padded centroids gives the first i + 1 seeds followed by zeros |
| KMeans.FirstSeeds | graphtern/kmeans.py:46-49 | the zero tensor, with column 0 set to the sample at the seed index, holds the first seed of every slice padded with zeros |
| KMeans.PlaceSeed | graphtern/kmeans.py:51-68 | one pass of the seeding loop turns the first i seeds into the first i + 1 seeds in every slice |
| KMeans.SeededAll | graphtern/kmeans.py:50-69 | once all k columns are written, the tensor is the full k-means++ seeding |
| KMeans.DistinctIndicesFit | graphtern/kmeans.py:74 | k indices drawn from n without replacement need k ≤ n |
| KMeans.RandomInit | graphtern/kmeans.py:73-75 | random initialisation gives k centroids of dimension d per slice, and centroid c of slice s is the slice's sample at the c-th drawn index |
| KMeans.RandomInitAsWritten | graphtern/kmeans.py:75 | definition of `data[:, :, random_index]` as written for ranks 2 to 4; what it does is proved in the RandomInitAsWritten lemmas |
| KMeans.RandomInitAsWrittenRank2Fails | graphtern/kmeans.py:75 | as written, indexing a third axis of a rank-2 tensor always fails, while the intended gather yields a (d, k) slice |
| KMeans.RandomInitAsWrittenRank4Example | graphtern/kmeans.py:75 | on one concrete rank-4 tensor, the code as written fails while the intended gather gives the two sampled points |
| KMeans.RandomInitAsWrittenRank4Shape | graphtern/kmeans.py:75 | as written, on rank 4 any result has n columns of k coordinates, not k centroids of dimension d |
| KMeans.RandomInitAsWrittenRank3Agrees | graphtern/kmeans.py:75 | on rank 3 the code as written is the intended gather |
| KMeans.InitialCentroids | graphtern/kmeans.py:71-78 | when initialisation succeeds, it gives k centroids of dimension d per slice, each a sample of its own slice |
| KMeans.RandomInitFailsOnlyWhenForced | graphtern/kmeans.py:73-75 | random initialisation fails exactly when no k distinct indices below n exist |
| KMeans.Initial | graphtern/kmeans.py:103-104 | a restart starts from the caller's centroids or from a fresh initialisation, with the initial centroid shape |
| KMeans.Restart | graphtern/kmeans.py:103-113 | definition of one restart: the initialisation error, then NoIteration, then NoClusters, then the inner loop; its meaning is proved in RestartSettles |
| KMeans.Outcomes | graphtern/kmeans.py:102-120 | there is one restart outcome per draw |
| KMeans.Collect | graphtern/kmeans.py:102-120 | when every restart succeeds, the runs are exactly the restarts' results, in order |
| KMeans.CollectIsFirstError | graphtern/kmeans.py:102-120 | a failed fit reports the error of the first restart that fails, and every restart before it succeeded |
| KMeans.CollectStep | graphtern/kmeans.py:102-120 | one more restart appends its run, or stops at the first error |
| KMeans.CollectStopsAtError | graphtern/kmeans.py:102-120 | once a restart has failed, later restarts do not change the outcome |
| KMeans.RestartSettles | graphtern/kmeans.py:103-113 | a successful restart ends with settled centroids: each is the mean of its members |
| KMeans.BestIndex | graphtern/kmeans.py:99-101 | no restart is kept exactly when every inertia is at least 1e32; otherwise the kept one is below 1e32, has the smallest inertia, and is strictly below every earlier one |
| KMeans.Chosen | graphtern/kmeans.py:115-119 | definition of the run `fit` keeps; its properties are proved in ChosenIsBest and ChosenStep |
| KMeans.ChosenIsBest | graphtern/kmeans.py:115-119 | the kept run is one of the runs, has inertia below 1e32 and no more than any run's; none is kept exactly when every inertia is at least 1e32 |
| KMeans.ChosenStep | graphtern/kmeans.py:115-119 | a new restart replaces the kept run exactly when its inertia is strictly below best_inertia |
| KMeans.KeptRunSettles | graphtern/kmeans.py:102-123 | the run a successful fit keeps has settled centroids and the smallest inertia of all restarts |
| KMeans.BatchKMeans.constructor | graphtern/kmeans.py:7-14 | the constructor stores the configuration with its defaults (1 restart, 100 iterations, tol 1e-4, kmeans++) and leaves the centroids buffer empty |
| KMeans.BatchKMeans.KMeansPP | graphtern/kmeans.py:45-69 | the column-by-column seeding loop returns the k-means++ seeding, or the error for zero clusters or an unsupported rank |
| KMeans.BatchKMeans.InitializeCentroids | graphtern/kmeans.py:71-78 | the method returns the initialisation of the configured mode |
| KMeans.BatchKMeans.Redo | graphtern/kmeans.py:103-113 | one restart returns the result of the inner loop from its initial centroids, or the error that stops it |
| KMeans.BatchKMeans.Iterate | graphtern/kmeans.py:105-113 | the iteration loop with its early break returns the inner-loop run |
| KMeans.BatchKMeans.Fit | graphtern/kmeans.py:95-123 | fit returns the first restart error and leaves the buffer unchanged; otherwise it returns the kept run's labels (None if no run was kept) and stores that run's centroids in the buffer |
| KMeans.BatchKMeans.Predict | graphtern/kmeans.py:125-127 | predict fails exactly when nothing was fitted or the query does not match the centroids; otherwise the labels have the query's shape, and every query point gets the label of a nearest fitted centroid |
| MinimumResult.SplitLines | get_minimum_result.py:16 | splitting yields at least one line, and no line contains a newline |
| MinimumResult.JoinSplit | get_minimum_result.py:16 | joining the split lines with newlines gives back the text |
| MinimumResult.SplitJoin | get_minimum_result.py:16 | splitting the newline-join of newline-free lines gives back the lines |
| MinimumResult.SplitOneLine | get_minimum_result.py:16 | a text without a newline is one line |
| MinimumResult.SplitWithNewline | get_minimum_result.py:16 | a line followed by a newline comes before the lines of the rest |
| MinimumResult.DigitsEnd | get_minimum_result.py:7-8 | the digit run starting at i is maximal: every character in it is a digit and the next one is not |
| MinimumResult.NumberAtMatches | get_minimum_result.py:7-8 | `\d+\.\d+` matches at i exactly when the number reader succeeds; on success it reads maximal digit runs on each side of the point |
| MinimumResult.HitFrom | get_minimum_result.py:7-8 | definition of the regex search for a key and a number, position by position from the left; its properties are proved in HitIsLeftmost |
| MinimumResult.HitIsLeftmost | get_minimum_result.py:7-8 | the search finds nothing exactly when the key and a number occur at no position; otherwise it stops at the leftmost such position |
| MinimumResult.HitNoneIff | get_minimum_result.py:7-8 | the search finds nothing exactly when no position matches |
| MinimumResult.HitSomeLeftmost | get_minimum_result.py:7-8 | what the search finds is a match, and no earlier position matches |
| MinimumResult.HitFromStep | get_minimum_result.py:7-8 | the search stops at a matching position and otherwise moves one character on |
| MinimumResult.Search | get_minimum_result.py:20-21 | definition of `pattern.search(line).group(1)` for the two metrics; NoPointNoMatch and HitIsLeftmost state what it finds |
| MinimumResult.NoPointNoMatch | get_minimum_result.py:7-8 | a line without a decimal point has no `Refined_*` value |
| MinimumResult.EpochIsLeftmost | get_minimum_result.py:6 | the epoch search finds nothing exactly when no `Epoch: ` is followed by text; otherwise it returns the text after the leftmost one |
| MinimumResult.EpochMatch | get_minimum_result.py:19 | definition of `epoch_pattern.search(line)`; its properties are proved in EpochIsLeftmost |
| MinimumResult.Value | get_minimum_result.py:26 | `float` of a matched `w.f`: the whole part plus the fraction digits over 10^m; ValueBounds places it in [w, w + 1) |
| MinimumResult.NaturalBelowPow10 | get_minimum_result.py:26 | an m-digit decimal numeral is below 10^m |
| MinimumResult.ValueBounds | get_minimum_result.py:26 | the value `float` reads from `w.f` lies in [w, w + 1) |
| MinimumResult.MatchLines | get_minimum_result.py:18-21 | there is one match record per line |
| MinimumResult.MatchLine | get_minimum_result.py:19-21 | definition of the three searches on one line, numbers converted by Value; its properties are proved in the lemmas on HitFrom and EpochFrom |
| MinimumResult.Step | get_minimum_result.py:23-31 | definition of one loop pass; EpochLineIgnored, NoImprovementKeepsState and StepLowersMinimum state what it does |
| MinimumResult.ScanLines | get_minimum_result.py:18-31 | definition of the loop over all lines; its meaning is proved in ScanSummarises and ScanFailsIff |
| MinimumResult.Evaluate | get_minimum_result.py:11-33 | definition of what `parse_evaluation_results` returns; ParseEvaluationResults is proved equal to it and NoFdeLines states its empty case |
| MinimumResult.ScanSummarises | get_minimum_result.py:11-33 | after a successful scan, the FDE result is infinity exactly when no line takes the FDE branch, and then the ADE result is None; otherwise the FDE result is the smallest FDE value and the ADE result is the ADE value of the first line that has it |
| MinimumResult.ScanFailsIff | get_minimum_result.py:29-31 | the scan fails exactly when some line sets a new FDE record but has no ADE match |
| MinimumResult.NoFdeLinesScan | get_minimum_result.py:11-13 | when no line takes the FDE branch, the scan keeps infinity and None |
| MinimumResult.NoFdeLines | get_minimum_result.py:11-33 | a log with no FDE line yields (None, infinity) |
| MinimumResult.EpochLineIgnored | get_minimum_result.py:23-24 | an `Epoch:` line never changes the minima, even when it also holds FDE and ADE values |
| MinimumResult.NoImprovementKeepsState | get_minimum_result.py:29 | an FDE value that is not strictly below the minimum changes nothing |
| MinimumResult.StepLowersMinimum | get_minimum_result.py:25-31 | the FDE minimum never increases |
| MinimumResult.ScanStep | get_minimum_result.py:18-31 | scanning one more line applies one loop pass to the state so far |
| MinimumResult.ScanStopsAtFailure | get_minimum_result.py:31 | once a pass has failed, the whole scan fails |
| MinimumResult.ParseEvaluationResults | get_minimum_result.py:4-33 | the loop over the lines returns exactly the scan's outcome |

## Left out

- Floating point: every tensor entry and every parsed number is an exact real.
  - `float` rounding is not modelled.
  - Neither are NaN and infinite inputs.
  - Neither is tie-breaking among equal float similarities. `max` and `argmin`
    pick the first index of the extreme value, but the source's torch kernels
    do not promise any particular index on ties.
- Empty clusters: for points of dimension d ≥ 1, the source divides 0 by 0
  and carries NaN centroids onwards.
  The model stops with `EmptyCluster` instead, and `Fit` then reports that
  error and leaves the buffer unchanged.
- Devices: the model has no notion of devices or dtypes. The `contiguous()`
  assertion of `fit` and the `.contiguous()` / `.clone()` calls are left out,
  because none of them changes any value.
- `load_state_dict` and both `__main__` blocks are not part of this model:
  they are loading and file or console I/O.
- Randomness: `np.random.randint` and `np.random.choice` are parameters
  (`Draw`). The model does not say how likely each draw is, only which draws
  can occur.
- Unknown `init_mode`: any string other than "random" and "kmeans++" leaves
  `centroids` unbound in `initialize_centroids`. The model's `InitMode` has
  only the two supported modes.
- `best_error`: the source stores it but never reads it, so it is not
  modelled.
- Empty tensors: observations must have at least one slice and one sample.
- KMeans.BatchKMeans.Fit: caller-supplied centroids (`StartFits`) must have
  exactly k centroids of the data's dimension in every slice. This excludes shapes that the
  source accepts by broadcasting, such as centroids with more columns than
  `n_clusters`, or a single centroid slice shared by several data slices.
- Broadcasting: `predict` with a query whose batch shape only broadcasts
  against the centroids is reported as `ShapeMismatch`.
- KMeans.BatchKMeans.Predict: batches are flattened into a sequence of slices,
  so the model does not keep the leading batch shape. It compares only the
  number of slices and the point dimension. A query of batch shape (6,) is
  therefore labelled against centroids fitted on a (2, 3) batch, where the
  matrix product in `euc_sim` raises because the batch shapes cannot be
  broadcast.
- KMeans.InitialCentroids: random initialisation, and so `Fit` and
  `InitializeCentroids`, runs the corrected gather along the sample axis
  (`RandomInit`) for every rank. On a rank-2 tensor the source raises an
  IndexError at graphtern/kmeans.py:75, and on rank 4 it fails or gathers
  along the feature axis. The code as written is `RandomInitAsWritten`; see
  the finding below.
- KMeans.RandomInitAsWritten covers ranks 2 to 4 only. `Fit` itself accepts
  any rank of 2 or more. At rank 5 and above, the source's
  `data[:, :, random_index]` indexes a batch axis, while the model uses the
  corrected gather along the sample axis.
- KMeans.ComputeCentroids: observations may have zero-dimensional points (d = 0). The model then
  diverges from the source once k ≥ 2. Every similarity is 0, every label is
  0, and cluster 1 is empty, so the model stops with `EmptyCluster`. The
  source instead divides an empty (…, 0, k) tensor by the counts, which has
  no 0/0 entry, so its error is 0, the inner loop breaks, and `fit` succeeds.
- KMeans.SeedIsFarthest states the property of one seeding step. The
  probability-weighted D² sampling of textbook k-means++ is not what the
  source does: it takes the farthest sample deterministically, and that is
  what is modelled.
- Zero or too many k-means++ clusters: with zero clusters the source fails at the
  column-0 assignment, and the model reports `IndexOutOfRange`. When more
  clusters are requested than there are samples, the source repeats samples,
  and the model does the same.
- Non-ASCII digits: `\d` also matches non-ASCII Unicode digits. The model
  accepts ASCII digits only.
- `current_epoch`: it is tracked, as the source does, but it
  is never returned.
- Number conversion: the model converts both numbers of a line
  eagerly. The source calls `float` on the ADE match only when the FDE value
  improves. The results agree, because conversion cannot fail once the regex
  has matched.
- Random initialisation: the source draws one index list and uses it for
  every slice. The model follows the code, not a per-slice draw.

## Findings

| source | as written | input that shows it | evidently intended | confidence | as-written member | corrected member |
|---|---|---|---|---|---|---|
| graphtern/kmeans.py:75 | `data[:, :, random_index]` always gathers along the third axis | a rank-2 (d, n) tensor has no third axis and raises an IndexError; on the rank-4 tensor of `RandomInitAsWrittenRank4Example` (one slice of three 2-d points, indices [2, 0]) it indexes the 2-long feature axis with index 2 and fails | gather the sampled points along the last axis, `data[..., random_index]`, giving (…, d, k) centroids for every rank | not executed | KMeans.RandomInitAsWritten, KMeans.RandomInitAsWrittenRank2Fails, KMeans.RandomInitAsWrittenRank4Example, KMeans.RandomInitAsWrittenRank4Shape | KMeans.RandomInit, KMeans.InitialCentroids |
