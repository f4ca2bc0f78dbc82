/**
 * The batched K-Means engine `BatchKMeans` of graphtern/kmeans.py.
 *
 * An observation tensor of rank 2, 3 or 4 holds one or more independent batch
 * slices, each a (d, n) matrix of n feature vectors of dimension d.  Here a
 * batch is the sequence of its slices (flattened over the leading batch axes),
 * a slice is the sequence of its n points, and a point is a sequence of d
 * exact reals.  Centroid tensors have the same layout with k centroids per
 * slice, and labels hold one cluster index per point.  The tensor rank is
 * passed beside the batch because the seeding code behaves differently for
 * ranks other than 2, 3 and 4.
 */
module KMeans {
  import opened Wrappers
  import opened Vectors

  type Point = Vector
  type Slice = seq<Point>
  type Batch = seq<Slice>
  type Labels = seq<seq<nat>>

  datatype KMeansError =
    | UnsupportedRank    // the NotImplementedError of kmeanspp
    | EmptyCluster       // a cluster with no member: the mean divides by zero
    | IndexOutOfRange    // a tensor index outside its axis
    | SampleTooLarge     // more clusters than samples for sampling without replacement
    | NoClusters         // n_clusters == 0: an empty stack or reduction
    | NoIteration        // max_iter == 0: the inertia of the restart is never bound
    | ShapeMismatch      // query and centroids cannot be compared
    | NotFitted          // predict before any fit stored centroids

  datatype Result<T> = Ok(value: T) | Err(error: KMeansError)

  // ---------------------------------------------------------------- shapes

  /** Every slice of `b` holds `m` vectors of dimension `d`. */
  predicate Tensor(b: Batch, m: nat, d: nat)
  {
    forall s :: 0 <= s < |b| ==> |b[s]| == m && forall i :: 0 <= i < m ==> |b[s][i]| == d
  }

  /** A non-empty observation tensor: at least one slice and one sample. */
  predicate Observations(data: Batch)
  {
    |data| >= 1 && |data[0]| >= 1 && Tensor(data, |data[0]|, |data[0][0]|)
  }

  /** n, the length of the sample axis. */
  function Samples(data: Batch): nat
    requires |data| >= 1
  {
    |data[0]|
  }

  /** d, the length of the feature axis. */
  function Features(data: Batch): nat
    requires |data| >= 1 && |data[0]| >= 1
  {
    |data[0][0]|
  }

  /** The rank and the number of slices agree: a rank-2 tensor is one slice. */
  predicate RankShape(rank: nat, slices: nat)
  {
    rank >= 2 && (rank == 2 ==> slices == 1)
  }

  predicate SupportedRank(rank: nat)
  {
    rank == 2 || rank == 3 || rank == 4
  }

  /** Every point of `slice` has dimension `d`. */
  predicate Points(slice: seq<Point>, d: nat)
  {
    forall p :: 0 <= p < |slice| ==> |slice[p]| == d
  }

  /** Data and centroids can be compared: slice by slice, at least one centroid, equal dimensions. */
  predicate Compatible(data: Batch, cents: Batch)
  {
    && |data| == |cents|
    && forall s :: 0 <= s < |data| ==>
         && |cents[s]| >= 1
         && forall p, c :: 0 <= p < |data[s]| && 0 <= c < |cents[s]| ==> |data[s][p]| == |cents[s][c]|
  }

  /** Two centroid tensors of the same shape. */
  predicate SameShape(a: Batch, b: Batch)
  {
    && |a| == |b|
    && forall s :: 0 <= s < |a| ==>
         && |a[s]| == |b[s]|
         && forall c :: 0 <= c < |a[s]| ==> |a[s][c]| == |b[s][c]|
  }

  lemma TensorsCompatible(data: Batch, cents: Batch, n: nat, k: nat, d: nat)
    requires Tensor(data, n, d) && Tensor(cents, k, d) && |data| == |cents| && k >= 1
    ensures Compatible(data, cents)
  {
  }

  // ------------------------------------------------------------ similarity

  /** One entry of `euc_sim`: 2·aᵀb − ‖a‖² − ‖b‖². */
  function Sim(a: Point, b: Point): real
    requires |a| == |b|
  {
    2.0 * Dot(a, b) - SqNorm(a) - SqNorm(b)
  }

  /** The similarities of one point to each centroid of its slice. */
  function SimRow(x: Point, cents: seq<Point>): (row: seq<real>)
    requires forall c :: 0 <= c < |cents| ==> |cents[c]| == |x|
    ensures |row| == |cents|
  {
    seq(|cents|, c requires 0 <= c < |cents| => Sim(x, cents[c]))
  }

  /** `euc_sim(data, centroids)`: sims[s][p][c] for slice s, point p, centroid c. */
  function EucSim(data: Batch, cents: Batch): seq<seq<seq<real>>>
    requires Compatible(data, cents)
  {
    seq(|data|, s requires 0 <= s < |data| =>
      seq(|data[s]|, p requires 0 <= p < |data[s]| => SimRow(data[s][p], cents[s])))
  }

  /** Each similarity entry is the negated squared distance of point and centroid. */
  lemma EucSimIsNegSqDist(data: Batch, cents: Batch)
    requires Compatible(data, cents)
    ensures var sims := EucSim(data, cents);
      && |sims| == |data|
      && forall s :: 0 <= s < |data| ==>
           && |sims[s]| == |data[s]|
           && forall p :: 0 <= p < |data[s]| ==>
                && |sims[s][p]| == |cents[s]|
                && forall c :: 0 <= c < |cents[s]| ==> sims[s][p][c] == -SqDist(data[s][p], cents[s][c])
  {
    forall s, p, c | 0 <= s < |data| && 0 <= p < |data[s]| && 0 <= c < |cents[s]|
      ensures EucSim(data, cents)[s][p][c] == -SqDist(data[s][p], cents[s][c])
    {
      PolarIdentity(data[s][p], cents[s][c]);
    }
  }

  // ------------------------------------------------------------ assignment

  /** Centroid `c` is one of the centroids nearest to `x`. */
  predicate Nearest(x: Point, cents: seq<Point>, c: nat)
    requires forall j :: 0 <= j < |cents| ==> |cents[j]| == |x|
  {
    c < |cents| && forall j :: 0 <= j < |cents| ==> SqDist(x, cents[c]) <= SqDist(x, cents[j])
  }

  /** The result of `get_labels`: the winning similarity and the winning cluster of each point. */
  datatype Assignment = Assignment(maxsims: seq<seq<real>>, labels: Labels)

  /** `get_labels`: the arg-max over the cluster axis of `euc_sim`. */
  function GetLabels(data: Batch, cents: Batch): (a: Assignment)
    requires Compatible(data, cents)
    ensures |a.labels| == |data| && |a.maxsims| == |data|
    ensures forall s :: 0 <= s < |data| ==> |a.labels[s]| == |data[s]| && |a.maxsims[s]| == |data[s]|
    ensures forall s, p :: 0 <= s < |data| && 0 <= p < |data[s]| ==>
      && Nearest(data[s][p], cents[s], a.labels[s][p])
      && a.maxsims[s][p] == -SqDist(data[s][p], cents[s][a.labels[s][p]])
  {
    EucSimIsNegSqDist(data, cents);
    var sims := EucSim(data, cents);
    var labels := seq(|data|, s requires 0 <= s < |data| =>
      seq(|data[s]|, p requires 0 <= p < |data[s]| => ArgMax(sims[s][p])));
    Assignment(
      seq(|data|, s requires 0 <= s < |data| =>
        seq(|data[s]|, p requires 0 <= p < |data[s]| => sims[s][p][labels[s][p]])),
      labels)
  }

  // ------------------------------------------------------- centroid update

  /** One entry of the `labels == c` mask: 1 for a member of cluster `c`, 0 otherwise. */
  function Indicator(b: bool): real
  {
    if b then 1.0 else 0.0
  }

  /** Coordinate `f` of the points labelled `c`, summed through the mask over the sample axis. */
  function MaskedSum(slice: Slice, labels: seq<nat>, c: nat, f: nat): real
    requires |labels| == |slice|
    requires forall p :: 0 <= p < |slice| ==> f < |slice[p]|
  {
    if |slice| == 0 then 0.0
    else slice[0][f] * Indicator(labels[0] == c) + MaskedSum(slice[1..], labels[1..], c, f)
  }

  /** The number of points labelled `c`: one entry of `mask.sum(dim=-2)`. */
  function MemberCount(labels: seq<nat>, c: nat): real
  {
    if |labels| == 0 then 0.0 else Indicator(labels[0] == c) + MemberCount(labels[1..], c)
  }

  /**
   * `compute_centroids` on one slice: masked sum divided by member count.
   * A cluster with no member would divide 0 by 0; that is reported as EmptyCluster.
   */
  function UpdateSlice(slice: Slice, labels: seq<nat>, k: nat, d: nat): (r: Result<seq<Point>>)
    requires |labels| == |slice| && Points(slice, d)
    ensures r.Ok? ==> |r.value| == k && Points(r.value, d)
  {
    if exists c :: 0 <= c < k && MemberCount(labels, c) == 0.0 then Err(EmptyCluster)
    else
      Ok(seq(k, c requires 0 <= c < k =>
        seq(d, f requires 0 <= f < d => MaskedSum(slice, labels, c, f) / MemberCount(labels, c))))
  }

  /** `compute_centroids(data, labels)` for `k` clusters of dimension `d`. */
  function ComputeCentroids(data: Batch, labels: Labels, k: nat, d: nat): (r: Result<Batch>)
    requires |labels| == |data|
    requires forall s :: 0 <= s < |data| ==> |labels[s]| == |data[s]| && Points(data[s], d)
    ensures r.Ok? ==> |r.value| == |data| && Tensor(r.value, k, d)
  {
    if exists s :: 0 <= s < |data| && UpdateSlice(data[s], labels[s], k, d).Err? then Err(EmptyCluster)
    else Ok(seq(|data|, s requires 0 <= s < |data| => UpdateSlice(data[s], labels[s], k, d).value))
  }

  /** The points of a slice that carry label `c`, in sample order. */
  function Members(slice: Slice, labels: seq<nat>, c: nat): (m: seq<Point>)
    requires |labels| == |slice|
    ensures forall i :: 0 <= i < |m| ==> m[i] in slice
  {
    if |slice| == 0 then []
    else (if labels[0] == c then [slice[0]] else []) + Members(slice[1..], labels[1..], c)
  }

  function SumCoord(pts: seq<Point>, f: nat): real
    requires forall i :: 0 <= i < |pts| ==> f < |pts[i]|
  {
    if |pts| == 0 then 0.0 else pts[0][f] + SumCoord(pts[1..], f)
  }

  /** The arithmetic mean of a non-empty list of points. */
  function MeanPoint(pts: seq<Point>, d: nat): Point
    requires |pts| >= 1 && Points(pts, d)
  {
    seq(d, f requires 0 <= f < d => SumCoord(pts, f) / (|pts| as real))
  }

  lemma {:induction false} MemberCountIsSize(slice: Slice, labels: seq<nat>, c: nat)
    requires |labels| == |slice|
    ensures MemberCount(labels, c) == |Members(slice, labels, c)| as real
  {
    if |slice| > 0 {
      MemberCountIsSize(slice[1..], labels[1..], c);
    }
  }

  lemma {:induction false} MaskedSumIsMemberSum(slice: Slice, labels: seq<nat>, c: nat, f: nat)
    requires |labels| == |slice|
    requires forall p :: 0 <= p < |slice| ==> f < |slice[p]|
    ensures MaskedSum(slice, labels, c, f) == SumCoord(Members(slice, labels, c), f)
  {
    if |slice| > 0 {
      MaskedSumIsMemberSum(slice[1..], labels[1..], c, f);
      var rest := Members(slice[1..], labels[1..], c);
      if labels[0] == c {
        assert Members(slice, labels, c) == [slice[0]] + rest;
        assert ([slice[0]] + rest)[1..] == rest;
      } else {
        assert Members(slice, labels, c) == rest;
      }
    }
  }

  /**
   * The centroid update fails exactly when some cluster of some slice has no
   * member; otherwise every new centroid is the mean of exactly the points
   * labelled with it.
   */
  lemma ComputeCentroidsIsMean(data: Batch, labels: Labels, k: nat, d: nat)
    requires |labels| == |data|
    requires forall s :: 0 <= s < |data| ==> |labels[s]| == |data[s]| && Points(data[s], d)
    ensures ComputeCentroids(data, labels, k, d).Err? <==>
      exists s, c :: 0 <= s < |data| && 0 <= c < k && |Members(data[s], labels[s], c)| == 0
    ensures ComputeCentroids(data, labels, k, d).Ok? ==>
      forall s, c :: 0 <= s < |data| && 0 <= c < k ==>
        && |Members(data[s], labels[s], c)| >= 1
        && ComputeCentroids(data, labels, k, d).value[s][c] == MeanPoint(Members(data[s], labels[s], c), d)
  {
    forall s, c | 0 <= s < |data| && 0 <= c < k
      ensures MemberCount(labels[s], c) == |Members(data[s], labels[s], c)| as real
    {
      MemberCountIsSize(data[s], labels[s], c);
    }
    forall s, c, f | 0 <= s < |data| && 0 <= c < k && 0 <= f < d
      ensures MaskedSum(data[s], labels[s], c, f) == SumCoord(Members(data[s], labels[s], c), f)
    {
      MaskedSumIsMemberSum(data[s], labels[s], c, f);
    }
    if ComputeCentroids(data, labels, k, d).Err? {
      var s :| 0 <= s < |data| && UpdateSlice(data[s], labels[s], k, d).Err?;
      var c :| 0 <= c < k && MemberCount(labels[s], c) == 0.0;
      assert |Members(data[s], labels[s], c)| == 0;
    }
  }

  // ------------------------------------------------------ error and inertia

  function SliceError(a: seq<Point>, b: seq<Point>): (r: real)
    requires |a| == |b| && forall c :: 0 <= c < |a| ==> |a[c]| == |b[c]|
    ensures r >= 0.0
  {
    if |a| == 0 then 0.0 else SqDist(a[0], b[0]) + SliceError(a[1..], b[1..])
  }

  /** `calculate_error(a, b)`: the sum of squared entry differences of two centroid tensors. */
  function CalculateError(a: Batch, b: Batch): (r: real)
    requires SameShape(a, b)
    ensures r >= 0.0
  {
    if |a| == 0 then 0.0 else SliceError(a[0], b[0]) + CalculateError(a[1..], b[1..])
  }

  lemma {:induction false} SliceErrorZeroIff(a: seq<Point>, b: seq<Point>)
    requires |a| == |b| && forall c :: 0 <= c < |a| ==> |a[c]| == |b[c]|
    ensures SliceError(a, b) == 0.0 <==> a == b
  {
    if |a| > 0 {
      SliceErrorZeroIff(a[1..], b[1..]);
      SqDistZeroIff(a[0], b[0]);
      assert a == [a[0]] + a[1..];
      assert b == [b[0]] + b[1..];
    }
  }

  /** The error is zero exactly when the two centroid tensors are equal. */
  lemma {:induction false} CalculateErrorZeroIff(a: Batch, b: Batch)
    requires SameShape(a, b)
    ensures CalculateError(a, b) == 0.0 <==> a == b
  {
    if |a| > 0 {
      CalculateErrorZeroIff(a[1..], b[1..]);
      SliceErrorZeroIff(a[0], b[0]);
      assert a == [a[0]] + a[1..];
      assert b == [b[0]] + b[1..];
    }
  }

  function TotalSum(m: seq<seq<real>>): real
  {
    if |m| == 0 then 0.0 else Sum(m[0]) + TotalSum(m[1..])
  }

  /** The number of entries of a ragged matrix. */
  function Count(m: seq<seq<real>>): nat
  {
    if |m| == 0 then 0 else |m[0]| + Count(m[1..])
  }

  /** `calculate_inertia(maxsims)`: the mean of the negated winning similarities. */
  function CalculateInertia(maxsims: seq<seq<real>>): real
    requires Count(maxsims) > 0
  {
    -TotalSum(maxsims) / (Count(maxsims) as real)
  }

  /** The squared distance from `x` to its nearest centroid. */
  function NearestSqDist(x: Point, cents: seq<Point>): real
    requires |cents| >= 1 && forall c :: 0 <= c < |cents| ==> |cents[c]| == |x|
  {
    MinOf(seq(|cents|, c requires 0 <= c < |cents| => SqDist(x, cents[c])))
  }

  function NearestSqDists(data: Batch, cents: Batch): (m: seq<seq<real>>)
    requires Compatible(data, cents)
    ensures |m| == |data| && forall s :: 0 <= s < |data| ==> |m[s]| == |data[s]|
  {
    seq(|data|, s requires 0 <= s < |data| =>
      seq(|data[s]|, p requires 0 <= p < |data[s]| => NearestSqDist(data[s][p], cents[s])))
  }

  lemma {:induction false} TotalSumNegated(m: seq<seq<real>>, n: seq<seq<real>>)
    requires |m| == |n|
    requires forall s :: 0 <= s < |m| ==> |m[s]| == |n[s]| && forall p :: 0 <= p < |m[s]| ==> m[s][p] == -n[s][p]
    ensures TotalSum(m) == -TotalSum(n) && Count(m) == Count(n)
  {
    if |m| > 0 {
      SumNegated(m[0], n[0]);
      TotalSumNegated(m[1..], n[1..]);
    }
  }

  lemma {:induction false} TotalSumNonNegative(m: seq<seq<real>>)
    requires forall s, p :: 0 <= s < |m| && 0 <= p < |m[s]| ==> m[s][p] >= 0.0
    ensures TotalSum(m) >= 0.0
  {
    if |m| > 0 {
      SumNonNegative(m[0]);
      TotalSumNonNegative(m[1..]);
    }
  }

  /** The distance to an assigned nearest centroid is the smallest distance. */
  lemma NearestIsMinimal(x: Point, cents: seq<Point>, l: nat)
    requires |cents| >= 1 && forall c :: 0 <= c < |cents| ==> |cents[c]| == |x|
    requires Nearest(x, cents, l)
    ensures SqDist(x, cents[l]) == NearestSqDist(x, cents)
  {
    var dists := seq(|cents|, c requires 0 <= c < |cents| => SqDist(x, cents[c]));
    assert dists[l] <= MinOf(dists);
  }

  lemma QuotientNonNegative(a: real, b: real)
    requires a >= 0.0 && b > 0.0
    ensures a / b >= 0.0
  {
  }

  /**
   * The inertia of an assignment is the mean, over all points of all slices,
   * of the squared distance to the nearest centroid; in particular it is never negative.
   */
  lemma InertiaIsMeanNearestSqDist(data: Batch, cents: Batch)
    requires Compatible(data, cents) && Observations(data)
    ensures var m := GetLabels(data, cents).maxsims;
      && Count(m) > 0
      && Count(m) == Count(NearestSqDists(data, cents))
      && CalculateInertia(m) == TotalSum(NearestSqDists(data, cents)) / (Count(m) as real)
      && CalculateInertia(m) >= 0.0
  {
    var m := GetLabels(data, cents).maxsims;
    var near := NearestSqDists(data, cents);
    MaxSimsAreNegNearest(data, cents);
    TotalSumNegated(m, near);
    TotalSumNonNegative(near);
    assert Count(m) >= |m[0]|;
    InertiaOfNegated(m, near);
  }

  /** The winning similarities are the values half of `sims.max(dim=-1)`: the row maxima. */
  lemma MaxSimsAreRowMaxima(data: Batch, cents: Batch)
    requires Compatible(data, cents)
    ensures var a := GetLabels(data, cents);
      var sims := EucSim(data, cents);
      forall s, p :: 0 <= s < |data| && 0 <= p < |data[s]| ==>
        |sims[s][p]| >= 1 && a.maxsims[s][p] == MaxOf(sims[s][p])
  {
    var sims := EucSim(data, cents);
    forall s, p | 0 <= s < |data| && 0 <= p < |data[s]|
      ensures |sims[s][p]| >= 1 && GetLabels(data, cents).maxsims[s][p] == MaxOf(sims[s][p])
    {
      assert |sims[s][p]| == |cents[s]|;
      MaxOfIsAtArgMax(sims[s][p]);
    }
  }

  /** Every winning similarity is minus the squared distance to the nearest centroid. */
  lemma MaxSimsAreNegNearest(data: Batch, cents: Batch)
    requires Compatible(data, cents)
    ensures var m := GetLabels(data, cents).maxsims;
      var near := NearestSqDists(data, cents);
      && |m| == |near|
      && forall s :: 0 <= s < |m| ==> |m[s]| == |near[s]| && forall p :: 0 <= p < |m[s]| ==> m[s][p] == -near[s][p]
  {
    var a := GetLabels(data, cents);
    var near := NearestSqDists(data, cents);
    forall s, p | 0 <= s < |data| && 0 <= p < |data[s]|
      ensures a.maxsims[s][p] == -near[s][p]
    {
      NearestIsMinimal(data[s][p], cents[s], a.labels[s][p]);
    }
  }

  lemma InertiaOfNegated(m: seq<seq<real>>, near: seq<seq<real>>)
    requires TotalSum(m) == -TotalSum(near) && Count(m) == Count(near) > 0 && TotalSum(near) >= 0.0
    ensures CalculateInertia(m) == TotalSum(near) / (Count(m) as real)
    ensures CalculateInertia(m) >= 0.0
  {
    QuotientNonNegative(TotalSum(near), Count(m) as real);
  }

  // ------------------------------------------------------------ iteration

  /** Every label of every point names one of the `k` clusters. */
  predicate LabelsInRange(data: Batch, labels: Labels, k: nat)
  {
    && |labels| == |data|
    && forall s :: 0 <= s < |data| ==>
         |labels[s]| == |data[s]| && forall p :: 0 <= p < |data[s]| ==> labels[s][p] < k
  }

  /**
   * Centroids, labels and inertia fit together as one iteration leaves them:
   * every cluster of every slice has a member and its centroid is the mean of
   * its members, and the inertia is not negative.
   */
  predicate Settled(data: Batch, k: nat, cents: Batch, labels: Labels, inertia: real)
    requires Observations(data)
  {
    && |cents| == |data| && Tensor(cents, k, Features(data))
    && LabelsInRange(data, labels, k)
    && (forall s, c :: 0 <= s < |data| && 0 <= c < k ==>
          && |Members(data[s], labels[s], c)| >= 1
          && cents[s][c] == MeanPoint(Members(data[s], labels[s], c), Features(data)))
    && inertia >= 0.0
  }

  /** One pass of the inner loop of `fit`. */
  datatype Step = Step(centroids: Batch, labels: Labels, inertia: real, error: real)

  /**
   * One clustering iteration from `cents`: label every point with its nearest
   * centroid, move every centroid to the mean of its members, and measure how
   * far the centroids moved.
   */
  function Iteration(data: Batch, cents: Batch, k: nat): (r: Result<Step>)
    requires Observations(data) && k >= 1
    requires |cents| == |data| && Tensor(cents, k, Features(data))
    ensures r.Err? ==> r.error == EmptyCluster
    ensures r.Ok? ==> |r.value.centroids| == |data| && Tensor(r.value.centroids, k, Features(data))
  {
    var d := Features(data);
    TensorsCompatible(data, cents, Samples(data), k, d);
    var a := GetLabels(data, cents);
    var next := ComputeCentroids(data, a.labels, k, d);
    InertiaIsMeanNearestSqDist(data, cents);
    if next.Err? then Err(EmptyCluster)
    else Ok(Step(next.value, a.labels, CalculateInertia(a.maxsims), CalculateError(cents, next.value)))
  }

  /**
   * An iteration fails only on an empty cluster; otherwise it leaves every
   * centroid at the mean of the points now labelled with it, every label
   * naming a nearest old centroid, and a non-negative inertia.
   */
  lemma IterationSettles(data: Batch, cents: Batch, k: nat)
    requires Observations(data) && k >= 1
    requires |cents| == |data| && Tensor(cents, k, Features(data))
    ensures var r := Iteration(data, cents, k);
      && (r.Err? <==>
            exists s, c :: 0 <= s < |data| && 0 <= c < k && |Members(data[s], GetLabels(data, cents).labels[s], c)| == 0)
      && (r.Ok? ==> Settled(data, k, r.value.centroids, r.value.labels, r.value.inertia))
      && (r.Ok? ==> forall s, p :: 0 <= s < |data| && 0 <= p < |data[s]| ==>
            Nearest(data[s][p], cents[s], r.value.labels[s][p]))
  {
    var d := Features(data);
    TensorsCompatible(data, cents, Samples(data), k, d);
    var a := GetLabels(data, cents);
    ComputeCentroidsIsMean(data, a.labels, k, d);
    InertiaIsMeanNearestSqDist(data, cents);
  }

  /**
   * What one restart produces: the last centroids, the labels and inertia of
   * the last assignment, and the error of every iteration performed.
   */
  datatype Run = Run(centroids: Batch, labels: Labels, inertia: real, errors: seq<real>)

  /**
   * At most `maxIter` iterations; from iteration `from` on, every error but the
   * last exceeds `tol`, and stopping before `maxIter` means the last one did not.
   */
  predicate StopsAtTolerance(errors: seq<real>, from: nat, maxIter: nat, tol: real)
  {
    && |errors| <= maxIter
    && (forall j :: from <= j < |errors| - 1 ==> errors[j] > tol)
    && (|errors| < maxIter ==> |errors| >= 1 && errors[|errors| - 1] <= tol)
  }

  lemma PrefixOfPrefix(a: seq<real>, e: real, b: seq<real>)
    requires |a| + 1 <= |b| && b[..|a| + 1] == a + [e]
    ensures b[..|a|] == a && b[|a|] == e
  {
    assert b[..|a|] == b[..|a| + 1][..|a|];
  }

  lemma StopsEarlier(errors: seq<real>, from: nat, maxIter: nat, tol: real)
    requires from < |errors| && StopsAtTolerance(errors, from + 1, maxIter, tol) && errors[from] > tol
    ensures StopsAtTolerance(errors, from, maxIter, tol)
  {
  }

  /**
   * The inner loop of `fit` from centroids `cents`, after the iterations whose
   * errors are `errors`: iterate until the movement is at most `tol` or
   * `maxIter` iterations have been done.
   */
  function Lloyd(data: Batch, cents: Batch, k: nat, maxIter: nat, tol: real, errors: seq<real>): (r: Result<Run>)
    requires Observations(data) && k >= 1
    requires |cents| == |data| && Tensor(cents, k, Features(data))
    requires |errors| < maxIter
    ensures r.Err? ==> r.error == EmptyCluster
    ensures r.Ok? ==>
      && |errors| < |r.value.errors|
      && r.value.errors[..|errors|] == errors
      && StopsAtTolerance(r.value.errors, |errors|, maxIter, tol)
    decreases maxIter - |errors|
  {
    var step := Iteration(data, cents, k);
    if step.Err? then Err(step.error)
    else
      var st := step.value;
      var errs := errors + [st.error];
      if st.error <= tol || |errs| == maxIter then Ok(Run(st.centroids, st.labels, st.inertia, errs))
      else
        var r := Lloyd(data, st.centroids, k, maxIter, tol, errs);
        if r.Err? then r
        else
          PrefixOfPrefix(errors, st.error, r.value.errors);
          StopsEarlier(r.value.errors, |errors|, maxIter, tol);
          r
  }

  /** A restart that succeeds leaves centroids that are the means of their clusters. */
  lemma {:induction false} LloydSettles(data: Batch, cents: Batch, k: nat, maxIter: nat, tol: real, errors: seq<real>)
    requires Observations(data) && k >= 1
    requires |cents| == |data| && Tensor(cents, k, Features(data))
    requires |errors| < maxIter
    ensures var r := Lloyd(data, cents, k, maxIter, tol, errors);
      r.Ok? ==> Settled(data, k, r.value.centroids, r.value.labels, r.value.inertia)
    decreases maxIter - |errors|
  {
    var step := Iteration(data, cents, k);
    IterationSettles(data, cents, k);
    if step.Ok? {
      var errs := errors + [step.value.error];
      if !(step.value.error <= tol || |errs| == maxIter) {
        LloydSettles(data, step.value.centroids, k, maxIter, tol, errs);
      }
    }
  }

  // -------------------------------------------------------------- seeding

  /** The best similarity of `x` to the centroids chosen so far: one value of `sims.max(dim=-1)`. */
  function BestSim(x: Point, chosen: seq<Point>, d: nat): real
    requires |x| == d && Points(chosen, d) && |chosen| >= 1
  {
    MaxOf(SimRow(x, chosen))
  }

  /** `max_sims_v`: the best similarity of every sample of the slice. */
  function MaxSims(slice: Slice, chosen: seq<Point>, d: nat): (m: seq<real>)
    requires Points(slice, d) && Points(chosen, d) && |chosen| >= 1
    ensures |m| == |slice|
  {
    seq(|slice|, p requires 0 <= p < |slice| => BestSim(slice[p], chosen, d))
  }

  /** The next seed of `kmeanspp`: `max_sims_v.argmin(dim=-1)`, the first sample on ties. */
  function FarthestIndex(slice: Slice, chosen: seq<Point>, d: nat): (p: nat)
    requires Points(slice, d) && Points(chosen, d) && |slice| >= 1 && |chosen| >= 1
    ensures p < |slice|
  {
    ArgMin(MaxSims(slice, chosen, d))
  }

  /**
   * The first `i` seeds of one slice: the sample at `seed`, then repeatedly
   * the sample farthest from the seeds chosen so far.
   */
  function SeedSlice(slice: Slice, d: nat, i: nat, seed: nat): (r: seq<Point>)
    requires Points(slice, d) && seed < |slice| && i >= 1
    ensures |r| == i && Points(r, d)
  {
    if i == 1 then [slice[seed]]
    else
      var prev := SeedSlice(slice, d, i - 1, seed);
      prev + [slice[FarthestIndex(slice, prev, d)]]
  }

  /** The `k` seeds of every slice, all from the same starting sample index. */
  function Seeds(data: Batch, k: nat, seed: nat): (r: Batch)
    requires Observations(data) && seed < Samples(data) && k >= 1
    ensures |r| == |data| && Tensor(r, k, Features(data))
  {
    seq(|data|, s requires 0 <= s < |data| => SeedSlice(data[s], Features(data), k, seed))
  }

  /** BestSim is the largest similarity to any chosen centroid. */
  lemma BestSimIsMax(x: Point, chosen: seq<Point>, d: nat)
    requires |x| == d && Points(chosen, d) && |chosen| >= 1
    ensures exists c :: 0 <= c < |chosen| && BestSim(x, chosen, d) == Sim(x, chosen[c])
    ensures forall c :: 0 <= c < |chosen| ==> Sim(x, chosen[c]) <= BestSim(x, chosen, d)
  {
    var row := SimRow(x, chosen);
    assert BestSim(x, chosen, d) == MaxOf(row);
    assert forall c :: 0 <= c < |chosen| ==> row[c] == Sim(x, chosen[c]);
    var c :| 0 <= c < |row| && row[c] == MaxOf(row);
  }

  /** The best similarity of a point is minus its squared distance to the nearest centroid. */
  lemma BestSimIsNegNearest(x: Point, chosen: seq<Point>, d: nat)
    requires |x| == d && Points(chosen, d) && |chosen| >= 1
    ensures BestSim(x, chosen, d) == -NearestSqDist(x, chosen)
  {
    var dists := seq(|chosen|, c requires 0 <= c < |chosen| => SqDist(x, chosen[c]));
    forall c | 0 <= c < |chosen|
      ensures Sim(x, chosen[c]) == -dists[c]
    {
      PolarIdentity(x, chosen[c]);
    }
    BestSimIsMax(x, chosen, d);
    var best := BestSim(x, chosen, d);
    var small := MinOf(dists);
    var j :| 0 <= j < |dists| && dists[j] == small;
    var l :| 0 <= l < |chosen| && best == Sim(x, chosen[l]);
    assert Sim(x, chosen[j]) <= best && small <= dists[l];
  }

  /** The chosen point is one whose distance to its nearest chosen centroid is largest. */
  lemma FarthestIsFarthest(slice: Slice, chosen: seq<Point>, d: nat)
    requires Points(slice, d) && Points(chosen, d) && |slice| >= 1 && |chosen| >= 1
    ensures forall p :: 0 <= p < |slice| ==>
      NearestSqDist(slice[p], chosen) <= NearestSqDist(slice[FarthestIndex(slice, chosen, d)], chosen)
  {
    var m := MaxSims(slice, chosen, d);
    forall p | 0 <= p < |slice|
      ensures m[p] == -NearestSqDist(slice[p], chosen)
    {
      BestSimIsNegNearest(slice[p], chosen, d);
    }
  }

  /** Seeding one more centroid appends the farthest sample to the earlier seeds. */
  lemma SeedSliceStep(slice: Slice, d: nat, i: nat, seed: nat)
    requires Points(slice, d) && seed < |slice| && i >= 1
    ensures var prev := SeedSlice(slice, d, i, seed);
      SeedSlice(slice, d, i + 1, seed) == prev + [slice[FarthestIndex(slice, prev, d)]]
  {
  }

  /**
   * Every seed after the first is a sample farthest from the seeds before it:
   * no sample has a larger squared distance to its nearest earlier seed.
   */
  lemma SeedIsFarthest(slice: Slice, d: nat, i: nat, seed: nat)
    requires Points(slice, d) && seed < |slice| && i >= 1
    ensures var prev := SeedSlice(slice, d, i, seed);
      var next := SeedSlice(slice, d, i + 1, seed);
      && next[..i] == prev
      && next[i] in slice
      && forall p :: 0 <= p < |slice| ==> NearestSqDist(slice[p], prev) <= NearestSqDist(next[i], prev)
  {
    var prev := SeedSlice(slice, d, i, seed);
    SeedSliceStep(slice, d, i, seed);
    FarthestIsFarthest(slice, prev, d);
  }

  /** `k` zero centroids of dimension `d`, as `torch.zeros` allocates them. */
  function ZeroPoints(m: nat, d: nat): (z: seq<Point>)
    ensures |z| == m && Points(z, d)
  {
    seq(m, _ => Zeros(d))
  }

  /** The seeds chosen so far sit in front of the still-zero columns. */
  lemma PaddedPrefix(a: seq<Point>, z: seq<Point>)
    ensures (a + z)[..|a|] == a
  {
  }

  /** Writing column `|a|` of a padded row appends to the chosen seeds. */
  lemma PaddedUpdate(a: seq<Point>, m: nat, d: nat, x: Point)
    requires m >= 1
    ensures (a + ZeroPoints(m, d))[|a| := x] == (a + [x]) + ZeroPoints(m - 1, d)
  {
    var lhs := (a + ZeroPoints(m, d))[|a| := x];
    var rhs := (a + [x]) + ZeroPoints(m - 1, d);
    assert |lhs| == |rhs|;
    forall j | 0 <= j < |lhs|
      ensures lhs[j] == rhs[j]
    {
      if j > |a| {
        assert lhs[j] == ZeroPoints(m, d)[j - |a|] == Zeros(d);
      }
    }
  }

  /** One pass of the seeding loop on one slice: column `i` receives the next seed. */
  lemma SeedColumn(slice: Slice, d: nat, i: nat, seed: nat, k: nat, row: seq<Point>)
    requires Points(slice, d) && seed < |slice| && 1 <= i < k
    requires row == SeedSlice(slice, d, i, seed) + ZeroPoints(k - i, d)
    ensures |row| == k && row[..i] == SeedSlice(slice, d, i, seed)
    ensures row[i := slice[FarthestIndex(slice, row[..i], d)]] == SeedSlice(slice, d, i + 1, seed) + ZeroPoints(k - (i + 1), d)
  {
    var prev := SeedSlice(slice, d, i, seed);
    PaddedPrefix(prev, ZeroPoints(k - i, d));
    PaddedUpdate(prev, k - i, d, slice[FarthestIndex(slice, prev, d)]);
    SeedSliceStep(slice, d, i, seed);
  }

  /** The first seed is the sample at the drawn index and every seed is a sample of the slice. */
  lemma {:induction false} SeedsAreSamples(slice: Slice, d: nat, i: nat, seed: nat)
    requires Points(slice, d) && seed < |slice| && i >= 1
    ensures SeedSlice(slice, d, i, seed)[0] == slice[seed]
    ensures forall c :: 0 <= c < i ==> SeedSlice(slice, d, i, seed)[c] in slice
  {
    if i > 1 {
      SeedsAreSamples(slice, d, i - 1, seed);
      SeedSliceStep(slice, d, i - 1, seed);
    }
  }

  /** The centroid tensor of `kmeanspp` once columns `0 .. i-1` hold seeds. */
  predicate SeededUpTo(data: Batch, k: nat, seed: nat, cents: Batch, i: nat)
    requires Observations(data) && seed < Samples(data) && 1 <= i <= k
  {
    && |cents| == |data|
    && forall s :: 0 <= s < |data| ==> cents[s] == SeedSlice(data[s], Features(data), i, seed) + ZeroPoints(k - i, Features(data))
  }

  /** `torch.zeros` followed by `centroids[..., 0] = data[..., seed]`. */
  method FirstSeeds(data: Batch, k: nat, seed: nat) returns (cents: Batch)
    requires Observations(data) && seed < Samples(data) && k >= 1
    ensures SeededUpTo(data, k, seed, cents, 1)
  {
    var d := Features(data);
    cents := seq(|data|, s requires 0 <= s < |data| => ZeroPoints(k, d));
    assert forall s :: 0 <= s < |data| ==> cents[s] == ZeroPoints(k, d);
    cents := seq(|data|, s requires 0 <= s < |data| => cents[s][0 := data[s][seed]]);
    forall s | 0 <= s < |data|
      ensures cents[s] == SeedSlice(data[s], d, 1, seed) + ZeroPoints(k - 1, d)
    {
      PaddedUpdate([], k, d, data[s][seed]);
    }
  }

  /**
   * One pass of the `kmeanspp` loop: in every slice, column `i` receives the
   * sample farthest from the seeds in columns `0 .. i-1`.
   */
  method PlaceSeed(data: Batch, k: nat, seed: nat, cents: Batch, i: nat) returns (next: Batch)
    requires Observations(data) && seed < Samples(data) && 1 <= i < k
    requires SeededUpTo(data, k, seed, cents, i)
    ensures SeededUpTo(data, k, seed, next, i + 1)
  {
    var d := Features(data);
    forall s | 0 <= s < |data|
      ensures |cents[s]| == k && cents[s][..i] == SeedSlice(data[s], d, i, seed)
    {
      SeedColumn(data[s], d, i, seed, k, cents[s]);
    }
    next := seq(|data|, s requires 0 <= s < |data| =>
      cents[s][i := data[s][FarthestIndex(data[s], cents[s][..i], d)]]);
    forall s | 0 <= s < |data|
      ensures next[s] == SeedSlice(data[s], d, i + 1, seed) + ZeroPoints(k - (i + 1), d)
    {
      SeedColumn(data[s], d, i, seed, k, cents[s]);
    }
  }

  /** When every column holds a seed, the tensor is the k-means++ seeding. */
  lemma SeededAll(data: Batch, k: nat, seed: nat, cents: Batch)
    requires Observations(data) && seed < Samples(data) && k >= 1
    requires SeededUpTo(data, k, seed, cents, k)
    ensures cents == Seeds(data, k, seed)
  {
    forall s | 0 <= s < |data|
      ensures cents[s] == Seeds(data, k, seed)[s]
    {
      assert SeedSlice(data[s], Features(data), k, seed) + ZeroPoints(0, Features(data)) == SeedSlice(data[s], Features(data), k, seed);
    }
  }

  // ---------------------------------------------------------- random init

  /** Indices into the sample axis, pairwise different, as sampling without replacement draws them. */
  predicate DistinctIndices(ix: seq<nat>, n: nat)
  {
    && (forall j :: 0 <= j < |ix| ==> ix[j] < n)
    && (forall j, l :: 0 <= j < l < |ix| ==> ix[j] != ix[l])
  }

  function Elements(ix: seq<nat>): set<nat>
  {
    set j | 0 <= j < |ix| :: ix[j]
  }

  function Below(n: nat): (r: set<nat>)
    ensures forall x: nat :: x in r <==> x < n
  {
    if n == 0 then {} else Below(n - 1) + {n - 1}
  }

  lemma {:induction false} ElementsOfDistinct(ix: seq<nat>, n: nat)
    requires DistinctIndices(ix, n)
    ensures |Elements(ix)| == |ix| && Elements(ix) <= Below(n)
  {
    if |ix| > 0 {
      var init := ix[..|ix| - 1];
      ElementsOfDistinct(init, n);
      assert Elements(ix) == Elements(init) + {ix[|ix| - 1]};
    }
  }

  lemma {:induction false} BelowSize(n: nat)
    ensures |Below(n)| == n
  {
    if n > 0 {
      BelowSize(n - 1);
    }
  }

  /** Sampling `k` indices without replacement from `n` is possible only when k <= n. */
  lemma DistinctIndicesFit(ix: seq<nat>, n: nat)
    requires DistinctIndices(ix, n)
    ensures |ix| <= n
  {
    ElementsOfDistinct(ix, n);
    BelowSize(n);
    SubsetSize(Elements(ix), Below(n));
  }

  lemma {:induction false} SubsetSize(a: set<nat>, b: set<nat>)
    requires a <= b
    ensures |a| <= |b|
  {
    if a != {} {
      var x :| x in a;
      SubsetSize(a - {x}, b - {x});
    }
  }

  /**
   * Random initialisation: the samples at the drawn indices, the same indices
   * in every slice.
   */
  function RandomInit(data: Batch, ix: seq<nat>): (r: Batch)
    requires Observations(data) && DistinctIndices(ix, Samples(data))
    ensures |r| == |data| && Tensor(r, |ix|, Features(data))
    ensures forall s, c :: 0 <= s < |data| && 0 <= c < |ix| ==> r[s][c] == data[s][ix[c]]
  {
    seq(|data|, s requires 0 <= s < |data| =>
      seq(|ix|, c requires 0 <= c < |ix| => data[s][ix[c]]))
  }

  /**
   * `data[:, :, random_index]` as written, for ranks 2 to 4.  It indexes the
   * third axis whatever the rank: a rank-2 tensor has no third axis, and in a
   * rank-4 tensor the third axis is the feature axis, so column p of the
   * result is coordinates `ix` of sample p: a (k, n) matrix instead of (d, k).
   */
  function RandomInitAsWritten(rank: nat, data: Batch, ix: seq<nat>): (r: Result<Batch>)
    requires Observations(data) && RankShape(rank, |data|) && rank <= 4
    requires DistinctIndices(ix, Samples(data))
  {
    if rank == 2 then Err(IndexOutOfRange)
    else if rank == 3 then Ok(RandomInit(data, ix))
    else if exists j :: 0 <= j < |ix| && ix[j] >= Features(data) then Err(IndexOutOfRange)
    else
      Ok(seq(|data|, s requires 0 <= s < |data| =>
        seq(Samples(data), p requires 0 <= p < Samples(data) =>
          seq(|ix|, j requires 0 <= j < |ix| => data[s][p][ix[j]]))))
  }

  /** As written, random initialisation of a rank-2 tensor always fails. */
  lemma RandomInitAsWrittenRank2Fails(data: Batch, ix: seq<nat>)
    requires Observations(data) && RankShape(2, |data|)
    requires DistinctIndices(ix, Samples(data))
    ensures RandomInitAsWritten(2, data, ix) == Err(IndexOutOfRange)
    ensures |RandomInit(data, ix)| == 1 && |RandomInit(data, ix)[0]| == |ix|
  {
  }

  /**
   * As written, on a rank-4 tensor with one slice of three 2-dimensional
   * samples, drawing samples 2 and 0 raises an index error, while gathering
   * along the sample axis picks those two samples.
   */
  lemma RandomInitAsWrittenRank4Example()
    ensures var data: Batch := [[[1.0, 2.0], [3.0, 4.0], [5.0, 6.0]]];
      && Observations(data) && DistinctIndices([2, 0], Samples(data))
      && RandomInitAsWritten(4, data, [2, 0]) == Err(IndexOutOfRange)
      && RandomInit(data, [2, 0]) == [[[5.0, 6.0], [1.0, 2.0]]]
  {
    var data: Batch := [[[1.0, 2.0], [3.0, 4.0], [5.0, 6.0]]];
    assert DistinctIndices([2, 0], Samples(data));
    assert [2, 0][0] >= Features(data);
    var r := RandomInit(data, [2, 0]);
    assert r[0][0] == [5.0, 6.0] && r[0][1] == [1.0, 2.0];
    assert r[0] == [[5.0, 6.0], [1.0, 2.0]];
  }

  /**
   * As written, whenever a rank-4 draw does succeed, each slice gets one
   * "centroid" per sample, of dimension k: the wrong shape unless n == k.
   */
  lemma RandomInitAsWrittenRank4Shape(data: Batch, ix: seq<nat>)
    requires Observations(data) && RankShape(4, |data|)
    requires DistinctIndices(ix, Samples(data))
    ensures RandomInitAsWritten(4, data, ix).Ok? ==>
      var r := RandomInitAsWritten(4, data, ix).value;
      |r| == |data| && Tensor(r, Samples(data), |ix|)
  {
  }

  /** As written and corrected agree on rank-3 tensors, the rank the code was written for. */
  lemma RandomInitAsWrittenRank3Agrees(data: Batch, ix: seq<nat>)
    requires Observations(data) && RankShape(3, |data|)
    requires DistinctIndices(ix, Samples(data))
    ensures RandomInitAsWritten(3, data, ix) == Ok(RandomInit(data, ix))
  {
  }

  // ------------------------------------------------------- initialisation

  datatype InitMode = Random | KMeansPlusPlus

  /** The randomness one initialisation consumes, drawn outside the model. */
  datatype Draw =
    | SeedIndex(index: nat)              // np.random.randint(n_data)
    | SampleIndices(indices: seq<nat>)   // np.random.choice(n_data, k, replace=False)

  /** The draw is one that the random source can produce for this mode. */
  predicate DrawFits(mode: InitMode, draw: Draw, k: nat, n: nat)
  {
    match mode
    case KMeansPlusPlus => draw.SeedIndex? && draw.index < n
    case Random => draw.SampleIndices? && (k <= n ==> |draw.indices| == k && DistinctIndices(draw.indices, n))
  }

  /**
   * `initialize_centroids`: random samples or k-means++ seeds.  Every centroid
   * it produces is a sample of its own slice.
   */
  function InitialCentroids(mode: InitMode, data: Batch, rank: nat, k: nat, draw: Draw): (r: Result<Batch>)
    requires Observations(data) && RankShape(rank, |data|)
    requires DrawFits(mode, draw, k, Samples(data))
    ensures r.Ok? ==>
      && |r.value| == |data| && Tensor(r.value, k, Features(data))
      && forall s, c :: 0 <= s < |data| && 0 <= c < k ==> r.value[s][c] in data[s]
  {
    match mode
    case Random =>
      if k > Samples(data) then Err(SampleTooLarge) else Ok(RandomInit(data, draw.indices))
    case KMeansPlusPlus =>
      if k == 0 then Err(IndexOutOfRange)
      else if k > 1 && !SupportedRank(rank) then Err(UnsupportedRank)
      else
        var r := Seeds(data, k, draw.index);
        assert forall s :: 0 <= s < |data| ==> forall c :: 0 <= c < k ==> r[s][c] in data[s] by {
          forall s | 0 <= s < |data| {
            SeedsAreSamples(data[s], Features(data), k, draw.index);
          }
        }
        Ok(r)
  }

  /** Random initialisation fails exactly when no draw without replacement exists. */
  lemma RandomInitFailsOnlyWhenForced(data: Batch, rank: nat, k: nat, draw: Draw)
    requires Observations(data) && RankShape(rank, |data|)
    requires DrawFits(Random, draw, k, Samples(data))
    ensures InitialCentroids(Random, data, rank, k, draw).Err? <==>
      forall ix: seq<nat> :: |ix| == k ==> !DistinctIndices(ix, Samples(data))
  {
    if k > Samples(data) {
      forall ix: seq<nat> | |ix| == k
        ensures !DistinctIndices(ix, Samples(data))
      {
        if DistinctIndices(ix, Samples(data)) {
          DistinctIndicesFit(ix, Samples(data));
        }
      }
    }
  }

  // ------------------------------------------------------------- restarts

  /** The constructor arguments of `BatchKMeans`. */
  datatype Config = Config(nClusters: nat, nRedo: nat, maxIter: nat, tol: real, initMode: InitMode)

  /** The draws are ones the random source can produce for every restart. */
  predicate DrawsFit(cfg: Config, data: Batch, draws: seq<Draw>)
    requires |data| >= 1
  {
    forall i :: 0 <= i < |draws| ==> DrawFits(cfg.initMode, draws[i], cfg.nClusters, Samples(data))
  }

  /** Caller-supplied centroids, if any, have one centroid per cluster in every slice. */
  predicate StartFits(cfg: Config, data: Batch, start: Option<Batch>)
    requires Observations(data)
  {
    start.Some? ==> |start.value| == |data| && Tensor(start.value, cfg.nClusters, Features(data))
  }

  /** The centroids a restart starts from: the caller's, or a fresh initialisation. */
  function Initial(cfg: Config, data: Batch, rank: nat, start: Option<Batch>, draw: Draw): (r: Result<Batch>)
    requires Observations(data) && RankShape(rank, |data|)
    requires StartFits(cfg, data, start)
    requires start.None? ==> DrawFits(cfg.initMode, draw, cfg.nClusters, Samples(data))
    ensures r.Ok? ==> |r.value| == |data| && Tensor(r.value, cfg.nClusters, Features(data))
  {
    if start.Some? then Ok(start.value) else InitialCentroids(cfg.initMode, data, rank, cfg.nClusters, draw)
  }

  /** One restart of `fit` from its initial centroids: the inner loop, unless it cannot run. */
  function Restart(cfg: Config, data: Batch, init: Result<Batch>): (r: Result<Run>)
    requires Observations(data)
    requires init.Ok? ==> |init.value| == |data| && Tensor(init.value, cfg.nClusters, Features(data))
  {
    if init.Err? then Err(init.error)
    else if cfg.maxIter == 0 then Err(NoIteration)
    else if cfg.nClusters == 0 then Err(NoClusters)
    else Lloyd(data, init.value, cfg.nClusters, cfg.maxIter, cfg.tol, [])
  }

  /** What every restart would produce; only restart 0 may start from the caller's centroids. */
  function Outcomes(cfg: Config, data: Batch, rank: nat, start: Option<Batch>, draws: seq<Draw>): (o: seq<Result<Run>>)
    requires Observations(data) && RankShape(rank, |data|)
    requires StartFits(cfg, data, start) && DrawsFit(cfg, data, draws)
    ensures |o| == |draws|
  {
    seq(|draws|, i requires 0 <= i < |draws| =>
      Restart(cfg, data, Initial(cfg, data, rank, if i == 0 then start else None, draws[i])))
  }

  /**
   * The restarts of `fit` in order: all runs when every restart succeeds,
   * otherwise the error of the first one that fails.
   */
  function Collect<T>(outcomes: seq<Result<T>>): (r: Result<seq<T>>)
    ensures r.Ok? ==> |r.value| == |outcomes| && forall i :: 0 <= i < |outcomes| ==> outcomes[i] == Ok(r.value[i])
  {
    if |outcomes| == 0 then Ok([])
    else
      var prev := Collect(outcomes[..|outcomes| - 1]);
      var last := outcomes[|outcomes| - 1];
      if prev.Err? then prev
      else if last.Err? then Err(last.error)
      else Ok(prev.value + [last.value])
  }

  /** A failed fit reports the error of the first restart that failed. */
  lemma {:induction false} CollectIsFirstError<T>(outcomes: seq<Result<T>>)
    requires Collect(outcomes).Err?
    ensures exists i ::
      && 0 <= i < |outcomes| && outcomes[i] == Err(Collect(outcomes).error)
      && forall j :: 0 <= j < i ==> outcomes[j].Ok?
  {
    var n := |outcomes| - 1;
    var front := outcomes[..n];
    var prev := Collect(front);
    assert forall j :: 0 <= j < n ==> outcomes[j] == front[j];
    if prev.Err? {
      assert Collect(outcomes) == prev;
      CollectIsFirstError(front);
      var i :| 0 <= i < |front| && front[i] == Err(prev.error) && forall j :: 0 <= j < i ==> front[j].Ok?;
      assert outcomes[i] == front[i];
    } else {
      assert forall j :: 0 <= j < n ==> outcomes[j].Ok? by {
        forall j | 0 <= j < n
          ensures outcomes[j].Ok?
        {
          assert front[j] == Ok(prev.value[j]);
        }
      }
      assert Collect(outcomes) == Err(outcomes[n].error);
    }
  }

  /** One more restart extends the collected runs, or ends them with its error. */
  lemma CollectStep<T>(outcomes: seq<Result<T>>, i: nat)
    requires i < |outcomes|
    ensures var prev := Collect(outcomes[..i]);
      Collect(outcomes[..i + 1]) ==
        if prev.Err? then prev
        else if outcomes[i].Err? then Err(outcomes[i].error)
        else Ok(prev.value + [outcomes[i].value])
  {
    assert outcomes[..i + 1][..i] == outcomes[..i];
  }

  /** Once a restart has failed, the later restarts do not matter. */
  lemma {:induction false} CollectStopsAtError<T>(outcomes: seq<Result<T>>, i: nat)
    requires i <= |outcomes| && Collect(outcomes[..i]).Err?
    ensures Collect(outcomes) == Collect(outcomes[..i])
    decreases |outcomes| - i
  {
    if i < |outcomes| {
      CollectStep(outcomes, i);
      CollectStopsAtError(outcomes, i + 1);
    } else {
      assert outcomes[..i] == outcomes;
    }
  }

  /** A restart that succeeds ends with every centroid the mean of its non-empty cluster. */
  lemma RestartSettles(cfg: Config, data: Batch, init: Result<Batch>)
    requires Observations(data)
    requires init.Ok? ==> |init.value| == |data| && Tensor(init.value, cfg.nClusters, Features(data))
    ensures var r := Restart(cfg, data, init);
      r.Ok? ==> Settled(data, cfg.nClusters, r.value.centroids, r.value.labels, r.value.inertia)
  {
    if init.Ok? && cfg.maxIter > 0 && cfg.nClusters > 0 {
      LloydSettles(data, init.value, cfg.nClusters, cfg.maxIter, cfg.tol, []);
    }
  }

  /** The starting value of `best_inertia`. */
  const InitialBestInertia: real := 1e32

  /**
   * The restart `fit` keeps: the first one whose inertia is strictly below
   * every earlier kept one, starting from 1e32; None when no inertia is below 1e32.
   */
  function BestIndex(inertias: seq<real>): (b: Option<nat>)
    ensures b.None? <==> forall i :: 0 <= i < |inertias| ==> inertias[i] >= InitialBestInertia
    ensures b.Some? ==>
      && b.value < |inertias|
      && inertias[b.value] < InitialBestInertia
      && (forall i :: 0 <= i < |inertias| ==> inertias[b.value] <= inertias[i])
      && (forall i :: 0 <= i < b.value ==> inertias[b.value] < inertias[i])
  {
    if |inertias| == 0 then None
    else
      var b := BestIndex(inertias[..|inertias| - 1]);
      var bound := if b.None? then InitialBestInertia else inertias[b.value];
      if inertias[|inertias| - 1] < bound then Some(|inertias| - 1) else b
  }

  function Inertias(runs: seq<Run>): (r: seq<real>)
    ensures |r| == |runs|
  {
    seq(|runs|, i requires 0 <= i < |runs| => runs[i].inertia)
  }

  /** The run `fit` keeps, if any. */
  function Chosen(runs: seq<Run>): Option<Run>
  {
    var b := BestIndex(Inertias(runs));
    if b.None? then None else Some(runs[b.value])
  }

  /** The restart `fit` keeps has the smallest inertia, below 1e32; none is kept when every inertia is 1e32 or more. */
  lemma ChosenIsBest(runs: seq<Run>)
    ensures Chosen(runs).None? <==> forall i :: 0 <= i < |runs| ==> runs[i].inertia >= InitialBestInertia
    ensures Chosen(runs).Some? ==>
      && Chosen(runs).value in runs
      && Chosen(runs).value.inertia < InitialBestInertia
      && forall i :: 0 <= i < |runs| ==> Chosen(runs).value.inertia <= runs[i].inertia
  {
    var xs := Inertias(runs);
    assert forall i :: 0 <= i < |runs| ==> xs[i] == runs[i].inertia;
  }

  /**
   * The run a successful fit keeps is one of its restarts, so its centroids
   * are the means of their clusters, and no restart has a smaller inertia.
   */
  lemma KeptRunSettles(cfg: Config, data: Batch, rank: nat, start: Option<Batch>, draws: seq<Draw>)
    requires Observations(data) && RankShape(rank, |data|)
    requires StartFits(cfg, data, start) && DrawsFit(cfg, data, draws)
    ensures var runs := Collect(Outcomes(cfg, data, rank, start, draws));
      runs.Ok? && Chosen(runs.value).Some? ==>
        var c := Chosen(runs.value).value;
        && Settled(data, cfg.nClusters, c.centroids, c.labels, c.inertia)
        && forall i :: 0 <= i < |runs.value| ==> c.inertia <= runs.value[i].inertia
  {
    var outcomes := Outcomes(cfg, data, rank, start, draws);
    var runs := Collect(outcomes);
    if runs.Ok? {
      ChosenIsBest(runs.value);
      if Chosen(runs.value).Some? {
        var c := Chosen(runs.value).value;
        var i :| 0 <= i < |runs.value| && runs.value[i] == c;
        assert outcomes[i] == Ok(c);
        RestartSettles(cfg, data, Initial(cfg, data, rank, if i == 0 then start else None, draws[i]));
      }
    }
  }

  /** The bound a new restart must beat: `best_inertia`. */
  function BestInertia(chosen: Option<Run>): real
  {
    if chosen.None? then InitialBestInertia else chosen.value.inertia
  }

  /** Adding one restart replaces the kept run exactly when its inertia is strictly smaller. */
  lemma ChosenStep(runs: seq<Run>, run: Run)
    ensures Chosen(runs + [run]) == if run.inertia < BestInertia(Chosen(runs)) then Some(run) else Chosen(runs)
  {
    var all := runs + [run];
    assert Inertias(all)[..|runs|] == Inertias(runs);
  }

  /** The local state of `fit` for the restarts done so far. */
  predicate Kept(runs: seq<Run>, centroids: Option<Batch>, labels: Option<Labels>, inertia: real)
  {
    var c := Chosen(runs);
    && inertia == BestInertia(c)
    && centroids == (if c.None? then None else Some(c.value.centroids))
    && labels == (if c.None? then None else Some(c.value.labels))
  }

  // ---------------------------------------------------------- the engine

  class BatchKMeans {
    const config: Config
    var centroids: Option<Batch>

    constructor (nClusters: nat, nRedo: nat := 1, maxIter: nat := 100, tol: real := 0.0001,
                 initMode: InitMode := KMeansPlusPlus)
      ensures config == Config(nClusters, nRedo, maxIter, tol, initMode)
      ensures centroids == None
    {
      config := Config(nClusters, nRedo, maxIter, tol, initMode);
      centroids := None;
    }

    /** `kmeanspp`: fill a zero centroid tensor column by column with farthest samples. */
    method KMeansPP(data: Batch, rank: nat, seed: nat) returns (r: Result<Batch>)
      requires Observations(data) && RankShape(rank, |data|) && seed < Samples(data)
      ensures r == InitialCentroids(KMeansPlusPlus, data, rank, config.nClusters, SeedIndex(seed))
    {
      var k, d := config.nClusters, Features(data);
      if k == 0 {
        return Err(IndexOutOfRange);
      }
      var cents := FirstSeeds(data, k, seed);
      var i := 1;
      while i < k
        invariant 1 <= i <= k
        invariant i > 1 ==> SupportedRank(rank)
        invariant SeededUpTo(data, k, seed, cents, i)
      {
        if !SupportedRank(rank) {
          return Err(UnsupportedRank);
        }
        cents := PlaceSeed(data, k, seed, cents, i);
        i := i + 1;
      }
      SeededAll(data, k, seed, cents);
      r := Ok(cents);
    }

    /** `initialize_centroids`: dispatch on the initialisation mode. */
    method InitializeCentroids(data: Batch, rank: nat, draw: Draw) returns (r: Result<Batch>)
      requires Observations(data) && RankShape(rank, |data|)
      requires DrawFits(config.initMode, draw, config.nClusters, Samples(data))
      ensures r == InitialCentroids(config.initMode, data, rank, config.nClusters, draw)
    {
      if config.initMode == Random {
        if config.nClusters > Samples(data) {
          return Err(SampleTooLarge);
        }
        r := Ok(RandomInit(data, draw.indices));
      } else {
        r := KMeansPP(data, rank, draw.index);
      }
    }

    /**
     * One pass of the outer loop of `fit`: initialise unless centroids are
     * given, then iterate until the error is at most `tol` or `max_iter`
     * iterations have been done.
     */
    method Redo(data: Batch, rank: nat, start: Option<Batch>, draw: Draw) returns (r: Result<Run>)
      requires Observations(data) && RankShape(rank, |data|)
      requires StartFits(config, data, start)
      requires start.None? ==> DrawFits(config.initMode, draw, config.nClusters, Samples(data))
      ensures r == Restart(config, data, Initial(config, data, rank, start, draw))
    {
      var init: Batch;
      if start.Some? {
        init := start.value;
      } else {
        var c := InitializeCentroids(data, rank, draw);
        if c.Err? {
          return Err(c.error);
        }
        init := c.value;
      }
      if config.maxIter == 0 {
        return Err(NoIteration);
      }
      if config.nClusters == 0 {
        return Err(NoClusters);
      }
      r := Iterate(data, init);
    }

    /** The inner loop of `fit`, from centroids `init`. */
    method Iterate(data: Batch, init: Batch) returns (r: Result<Run>)
      requires Observations(data) && config.nClusters >= 1 && config.maxIter >= 1
      requires |init| == |data| && Tensor(init, config.nClusters, Features(data))
      ensures r == Lloyd(data, init, config.nClusters, config.maxIter, config.tol, [])
    {
      var k, maxIter, tol := config.nClusters, config.maxIter, config.tol;
      ghost var goal := Lloyd(data, init, k, maxIter, tol, []);
      var cents := init;
      var labels: Labels := [];
      var inertia := 0.0;
      var errors: seq<real> := [];
      while |errors| < maxIter
        invariant |errors| <= maxIter
        invariant |cents| == |data| && Tensor(cents, k, Features(data))
        invariant |errors| < maxIter ==> goal == Lloyd(data, cents, k, maxIter, tol, errors)
        invariant |errors| == maxIter ==> goal == Ok(Run(cents, labels, inertia, errors))
        decreases maxIter - |errors|
      {
        var step := Iteration(data, cents, k);
        if step.Err? {
          return Err(step.error);
        }
        cents, labels, inertia := step.value.centroids, step.value.labels, step.value.inertia;
        errors := errors + [step.value.error];
        if step.value.error <= tol {
          break;
        }
      }
      r := Ok(Run(cents, labels, inertia, errors));
    }

    /**
     * `fit`: `n_redo` restarts, keeping the one with the smallest inertia
     * (strictly below every earlier one and below 1e32).  On success the
     * kept centroids become the fitted centroids and its labels are returned.
     */
    method Fit(data: Batch, rank: nat, start: Option<Batch>, draws: seq<Draw>) returns (r: Result<Option<Labels>>)
      requires Observations(data) && RankShape(rank, |data|)
      requires StartFits(config, data, start)
      requires |draws| == config.nRedo && DrawsFit(config, data, draws)
      modifies this
      ensures var runs := Collect(Outcomes(config, data, rank, start, draws));
        && (runs.Err? ==> r == Err(runs.error) && centroids == old(centroids))
        && (runs.Ok? ==>
              var c := Chosen(runs.value);
              && r == Ok(if c.None? then None else Some(c.value.labels))
              && centroids == (if c.None? then None else Some(c.value.centroids)))
    {
      ghost var outcomes := Outcomes(config, data, rank, start, draws);
      var bestCentroids: Option<Batch> := None;
      var bestLabels: Option<Labels> := None;
      var bestInertia := InitialBestInertia;
      ghost var runs: seq<Run> := [];
      var cents := start;
      for i := 0 to config.nRedo
        invariant Collect(outcomes[..i]) == Ok(runs)
        invariant cents == if i == 0 then start else None
        invariant Kept(runs, bestCentroids, bestLabels, bestInertia)
        invariant centroids == old(centroids)
      {
        var run := Redo(data, rank, cents, draws[i]);
        assert run == outcomes[i];
        CollectStep(outcomes, i);
        if run.Err? {
          CollectStopsAtError(outcomes, i + 1);
          return Err(run.error);
        }
        ChosenStep(runs, run.value);
        if run.value.inertia < bestInertia {
          bestCentroids := Some(run.value.centroids);
          bestLabels := Some(run.value.labels);
          bestInertia := run.value.inertia;
        }
        runs := runs + [run.value];
        cents := None;
      }
      assert outcomes[..config.nRedo] == outcomes;
      centroids := bestCentroids;
      r := Ok(bestLabels);
    }

    /** `predict`: the label of the nearest fitted centroid of every query point. */
    function Predict(query: Batch): (r: Result<Labels>)
      reads this
      ensures r.Err? <==> centroids.None? || !Compatible(query, centroids.value)
      ensures r.Err? ==> r.error == if centroids.None? then NotFitted else ShapeMismatch
      ensures r.Ok? ==>
        && |r.value| == |query|
        && (forall s :: 0 <= s < |query| ==> |r.value[s]| == |query[s]|)
        && forall s, p :: 0 <= s < |query| && 0 <= p < |query[s]| ==>
          Nearest(query[s][p], centroids.value[s], r.value[s][p])
    {
      if centroids.None? then Err(NotFitted)
      else if !Compatible(query, centroids.value) then Err(ShapeMismatch)
      else Ok(GetLabels(query, centroids.value).labels)
    }
  }
}
