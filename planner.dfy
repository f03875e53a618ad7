/**
 * The tile iteration planner shared by both readers (`SetIterReadRequests`).
 *
 * A plan is the list of read requests (t, c, z, y_min, y_max, x_min, x_max) that the
 * readers build in five nested loops. The row loop steps `y` by the row stride from 0
 * and clips `y_max` to `height - 1`; the column loop is symmetric. The zarr reader
 * scans while `y < height` (exclusive bound), the OME-TIFF reader while `y <= height`
 * (inclusive bound). This module defines the plan as functions that follow those
 * loops one step at a time and proves what the plan contains.
 */
module TilePlanner {

  import opened Arith

  /** One band of rows (or columns): the inclusive interval [lo, hi]. */
  datatype Band = Band(lo: int, hi: int)

  /** One planned read, all bounds inclusive: (t, c, z, y_min, y_max, x_min, x_max). */
  datatype Request = Request(t: int, c: int, z: int, yMin: int, yMax: int, xMin: int, xMax: int)

  /** The upper-bound test of the row and column loops. */
  datatype ScanBound = Exclusive | Inclusive

  predicate InScan(v: int, n: int, bound: ScanBound) {
    match bound
    case Exclusive => v < n
    case Inclusive => v <= n
  }

  /** `y_max < height ? y_max : height - 1` */
  function ClipMax(v: int, n: int): int {
    if v < n then v else n - 1
  }

  predicate Covers(b: Band, r: int) {
    b.lo <= r <= b.hi
  }

  /** Some band of `bands` holds row `r`. */
  predicate CoveredBy(bands: seq<Band>, r: int) {
    exists i :: 0 <= i < |bands| && Covers(bands[i], r)
  }

  /** The bands the row (or column) loop visits when it starts at `y`. */
  function BandsFrom(y: int, n: int, stride: int, bound: ScanBound): seq<Band>
    requires stride >= 1
    decreases n - y + 1
  {
    if InScan(y, n, bound) then
      [Band(y, ClipMax(y + stride - 1, n))] + BandsFrom(y + stride, n, stride, bound)
    else
      []
  }

  /** The bands of a whole extent `n`: the loop starts at 0. */
  function Bands(n: int, stride: int, bound: ScanBound): seq<Band>
    requires stride >= 1
  {
    BandsFrom(0, n, stride, bound)
  }

  function MakeRequest(t: int, c: int, z: int, yb: Band, xb: Band): Request {
    Request(t, c, z, yb.lo, yb.hi, xb.lo, xb.hi)
  }

  /** The column loop for one row band. */
  function RowPlan(t: int, c: int, z: int, yb: Band, xbs: seq<Band>): seq<Request>
  {
    if xbs == [] then []
    else [MakeRequest(t, c, z, yb, xbs[0])] + RowPlan(t, c, z, yb, xbs[1..])
  }

  /** The row loop for one plane (t, c, z). */
  function PlanePlan(t: int, c: int, z: int, ybs: seq<Band>, xbs: seq<Band>): seq<Request>
  {
    if ybs == [] then []
    else RowPlan(t, c, z, ybs[0], xbs) + PlanePlan(t, c, z, ybs[1..], xbs)
  }

  /** The depth loop from `z` on. */
  function DepthPlan(t: nat, c: nat, z: nat, depth: nat, ybs: seq<Band>, xbs: seq<Band>): seq<Request>
    decreases depth - z
  {
    if z < depth then PlanePlan(t, c, z, ybs, xbs) + DepthPlan(t, c, z + 1, depth, ybs, xbs)
    else []
  }

  /** The channel loop from `c` on. */
  function ChannelPlan(t: nat, c: nat, channels: nat, depth: nat, ybs: seq<Band>, xbs: seq<Band>): seq<Request>
    decreases channels - c
  {
    if c < channels then DepthPlan(t, c, 0, depth, ybs, xbs) + ChannelPlan(t, c + 1, channels, depth, ybs, xbs)
    else []
  }

  /** The time loop from `t` on. */
  function TimePlan(t: nat, tsteps: nat, channels: nat, depth: nat, ybs: seq<Band>, xbs: seq<Band>): seq<Request>
    decreases tsteps - t
  {
    if t < tsteps then ChannelPlan(t, 0, channels, depth, ybs, xbs) + TimePlan(t + 1, tsteps, channels, depth, ybs, xbs)
    else []
  }

  /** The whole plan that `SetIterReadRequests` stores. */
  function Plan(tsteps: nat, channels: nat, depth: nat, height: nat, width: nat,
                rowStride: int, colStride: int, bound: ScanBound): seq<Request>
    requires rowStride >= 1 && colStride >= 1
  {
    TimePlan(0, tsteps, channels, depth, Bands(height, rowStride, bound), Bands(width, colStride, bound))
  }

  /** Moving the part of the plan a loop pass appended into the list built so far. */
  lemma Shift(done: seq<Request>, head: seq<Request>, rest: seq<Request>, whole: seq<Request>)
    requires done + (head + rest) == whole
    ensures (done + head) + rest == whole
  {
  }

  /** The same inside a list that ends with `after`. */
  lemma ShiftBefore(done: seq<Request>, head: seq<Request>, rest: seq<Request>, after: seq<Request>,
                    whole: seq<Request>)
    requires done + (head + rest) + after == whole
    ensures (done + head) + rest + after == whole
  {
  }

  /** Moving the finished part of a plan into the list and the rest of it before `after`. */
  lemma Regroup(done: seq<Request>, head: seq<Request>, rest: seq<Request>, after: seq<Request>,
                whole: seq<Request>)
    requires done + (head + rest) + after == whole
    ensures (done + head) + (rest + after) == whole
  {
  }

  /**
   * One pass of the column loop: the request it appends is the first one the rest of
   * the row plan still holds. `done + rest + after == whole` is the loop invariant.
   */
  lemma RowStep(done: seq<Request>, t: int, c: int, z: int, yb: Band, x: int, width: int, colStride: int,
                bound: ScanBound, after: seq<Request>, whole: seq<Request>)
    requires colStride >= 1 && InScan(x, width, bound)
    requires done + RowPlan(t, c, z, yb, BandsFrom(x, width, colStride, bound)) + after == whole
    ensures (done + [Request(t, c, z, yb.lo, yb.hi, x, ClipMax(x + colStride - 1, width))])
            + RowPlan(t, c, z, yb, BandsFrom(x + colStride, width, colStride, bound)) + after == whole
  {
    var xs := BandsFrom(x, width, colStride, bound);
    assert xs[0] == Band(x, ClipMax(x + colStride - 1, width)) && xs[1..] == BandsFrom(x + colStride, width, colStride, bound);
    assert RowPlan(t, c, z, yb, xs)
        == [Request(t, c, z, yb.lo, yb.hi, x, ClipMax(x + colStride - 1, width))] + RowPlan(t, c, z, yb, xs[1..]);
    ShiftBefore(done, [Request(t, c, z, yb.lo, yb.hi, x, ClipMax(x + colStride - 1, width))],
                RowPlan(t, c, z, yb, xs[1..]), after, whole);
  }

  /** One pass of the row loop: its column loop produces the first row of the rest of the plane plan. */
  lemma PlaneStep(done: seq<Request>, t: int, c: int, z: int, y: int, height: int, rowStride: int,
                  bound: ScanBound, xbs: seq<Band>, after: seq<Request>, whole: seq<Request>)
    requires rowStride >= 1 && InScan(y, height, bound)
    requires done + PlanePlan(t, c, z, BandsFrom(y, height, rowStride, bound), xbs) + after == whole
    ensures done + RowPlan(t, c, z, Band(y, ClipMax(y + rowStride - 1, height)), xbs)
            + (PlanePlan(t, c, z, BandsFrom(y + rowStride, height, rowStride, bound), xbs) + after) == whole
  {
    var ys := BandsFrom(y, height, rowStride, bound);
    assert ys[0] == Band(y, ClipMax(y + rowStride - 1, height)) && ys[1..] == BandsFrom(y + rowStride, height, rowStride, bound);
    assert PlanePlan(t, c, z, ys, xbs) == RowPlan(t, c, z, ys[0], xbs) + PlanePlan(t, c, z, ys[1..], xbs);
    Regroup(done, RowPlan(t, c, z, ys[0], xbs), PlanePlan(t, c, z, ys[1..], xbs), after, whole);
  }

  /** ceil(n / s) for n >= 0. */
  function CeilDiv(n: nat, s: int): nat
    requires s >= 1
  {
    (n + s - 1) / s
  }

  // ---------------------------------------------------------------------------
  // Bands
  // ---------------------------------------------------------------------------

  /** Band i starts at y + i * stride and ends one stride later, clipped to n - 1. */
  lemma {:induction false} BandsFromAt(y: int, n: int, s: int, bound: ScanBound, i: nat)
    requires s >= 1 && i < |BandsFrom(y, n, s, bound)|
    ensures BandsFrom(y, n, s, bound)[i] == Band(y + i * s, ClipMax(y + i * s + s - 1, n))
    decreases i
  {
    if i > 0 {
      BandsFromAt(y + s, n, s, bound, i - 1);
      assert (y + s) + (i - 1) * s == y + i * s;
    }
  }

  /** The loop stops at the first step the scan test refuses. */
  lemma {:induction false} BandsFromLength(y: int, n: int, s: int, bound: ScanBound)
    requires s >= 1
    ensures var q := |BandsFrom(y, n, s, bound)|;
      && !InScan(y + q * s, n, bound)
      && (q > 0 ==> InScan(y + (q - 1) * s, n, bound))
    decreases n - y + 1
  {
    var q := |BandsFrom(y, n, s, bound)|;
    if InScan(y, n, bound) {
      BandsFromLength(y + s, n, s, bound);
      MulSucc(q - 1, s);
      MulSucc(q - 2, s);
    }
  }

  /** Under the exclusive bound the bands from y start at y, end at n - 1, and each lies
      inside [y, n - 1] and is non-empty and at most one stride tall. */
  lemma {:induction false} ExclusiveBandsFromBounds(y: int, n: int, s: int)
    requires s >= 1
    ensures var B := BandsFrom(y, n, s, Exclusive);
      && (B == [] <==> n <= y)
      && (y < n ==> B[0].lo == y && B[|B| - 1].hi == n - 1)
      && (forall i :: 0 <= i < |B| ==> y <= B[i].lo <= B[i].hi <= n - 1 && B[i].hi - B[i].lo < s)
    decreases n - y
  {
    if y < n {
      var B := BandsFrom(y, n, s, Exclusive);
      var R := BandsFrom(y + s, n, s, Exclusive);
      ExclusiveBandsFromBounds(y + s, n, s);
      assert B == [Band(y, ClipMax(y + s - 1, n))] + R;
      assert forall i :: 1 <= i < |B| ==> B[i] == R[i - 1];
    }
  }

  /** Each band but the last is a full stride tall and the next starts right after it. */
  lemma {:induction false} ExclusiveBandsFromSteps(y: int, n: int, s: int)
    requires s >= 1
    ensures var B := BandsFrom(y, n, s, Exclusive);
      forall i :: 0 <= i < |B| - 1 ==> B[i + 1].lo == B[i].hi + 1 && B[i].hi - B[i].lo + 1 == s
    decreases n - y
  {
    if y < n {
      var B := BandsFrom(y, n, s, Exclusive);
      var R := BandsFrom(y + s, n, s, Exclusive);
      ExclusiveBandsFromSteps(y + s, n, s);
      ExclusiveBandsFromBounds(y + s, n, s);
      assert B == [Band(y, ClipMax(y + s - 1, n))] + R;
      forall i | 0 <= i < |B| - 1
        ensures B[i + 1].lo == B[i].hi + 1 && B[i].hi - B[i].lo + 1 == s
      {
        if i == 0 {
          assert B[1] == R[0] && R[0].lo == y + s;
        } else {
          assert B[i] == R[i - 1] && B[i + 1] == R[i];
        }
      }
    }
  }

  /** The bands from y run in strictly increasing order. */
  lemma {:induction false} ExclusiveBandsFromOrdered(y: int, n: int, s: int)
    requires s >= 1
    ensures var B := BandsFrom(y, n, s, Exclusive); forall i, j :: 0 <= i < j < |B| ==> B[i].hi < B[j].lo
    decreases n - y
  {
    if y < n {
      var B := BandsFrom(y, n, s, Exclusive);
      var R := BandsFrom(y + s, n, s, Exclusive);
      ExclusiveBandsFromOrdered(y + s, n, s);
      ExclusiveBandsFromBounds(y + s, n, s);
      assert B == [Band(y, ClipMax(y + s - 1, n))] + R;
      assert forall i :: 1 <= i < |B| ==> B[i] == R[i - 1];
    }
  }

  /** Under the exclusive bound the bands from y tile [y, n - 1]: each is non-empty and at
      most one stride tall, they increase strictly, and each starts where the last ended. */
  lemma ExclusiveBandsFromTile(y: int, n: int, s: int)
    requires s >= 1
    ensures var B := BandsFrom(y, n, s, Exclusive);
      && (B == [] <==> n <= y)
      && (y < n ==> B[0].lo == y && B[|B| - 1].hi == n - 1)
      && (forall i :: 0 <= i < |B| ==> y <= B[i].lo <= B[i].hi <= n - 1 && B[i].hi - B[i].lo < s)
      && (forall i :: 0 <= i < |B| - 1 ==> B[i + 1].lo == B[i].hi + 1 && B[i].hi - B[i].lo + 1 == s)
      && (forall i, j :: 0 <= i < j < |B| ==> B[i].hi < B[j].lo)
  {
    ExclusiveBandsFromBounds(y, n, s);
    ExclusiveBandsFromSteps(y, n, s);
    ExclusiveBandsFromOrdered(y, n, s);
  }

  /** Every row of [y, n - 1] lies in some band from y. */
  lemma {:induction false} ExclusiveBandsFromCover(y: int, n: int, s: int, r: int)
    requires s >= 1 && y <= r < n
    ensures CoveredBy(BandsFrom(y, n, s, Exclusive), r)
    decreases n - y
  {
    var B := BandsFrom(y, n, s, Exclusive);
    if r <= ClipMax(y + s - 1, n) {
      assert Covers(B[0], r);
    } else {
      ExclusiveBandsFromCover(y + s, n, s, r);
      var i :| 0 <= i < |BandsFrom(y + s, n, s, Exclusive)| && Covers(BandsFrom(y + s, n, s, Exclusive)[i], r);
      assert Covers(B[i + 1], r);
    }
  }

  /** (a + s - 1) / s counts the strides needed to reach a. */
  lemma CeilDivUnique(a: nat, s: int, q: nat)
    requires s >= 1 && (q - 1) * s < a <= q * s
    ensures CeilDiv(a, s) == q
  {
    var d := a + s - 1;
    var r := d - q * s;
    MulSucc(q - 1, s);
    DivModUnique(d, s, q, r);
  }

  /**
   * The exclusive scan partitions the rows 0 .. n - 1: a row is covered iff it lies
   * in [0, n - 1], bands never overlap (so a row lies in exactly one band), they run
   * in increasing order, and there are ceil(n / stride) of them.
   */
  lemma ExclusiveBandsPartition(n: nat, s: int)
    requires s >= 1
    ensures var B := Bands(n, s, Exclusive);
      && |B| == CeilDiv(n, s)
      && (forall r :: 0 <= r < n <==> CoveredBy(B, r))
      && (forall i, j :: 0 <= i < j < |B| ==> B[i].hi < B[j].lo)
      && (forall i, j, r :: 0 <= i < |B| && 0 <= j < |B| && Covers(B[i], r) && Covers(B[j], r) ==> i == j)
  {
    var B := Bands(n, s, Exclusive);
    ExclusiveBandsFromTile(0, n, s);
    BandsFromLength(0, n, s, Exclusive);
    forall r | 0 <= r < n ensures CoveredBy(B, r) {
      ExclusiveBandsFromCover(0, n, s, r);
    }
    if n == 0 {
      assert |B| == 0;
    } else {
      CeilDivUnique(n, s, |B|);
    }
  }

  /** The inclusive scan visits the same bands as the exclusive one, plus the empty band
      [n, n - 1] when the scan from y lands on n exactly. */
  lemma {:induction false} InclusiveBandsFrom(y: int, n: int, s: int)
    requires s >= 1
    ensures BandsFrom(y, n, s, Inclusive)
         == BandsFrom(y, n, s, Exclusive) + (if y <= n && (n - y) % s == 0 then [Band(n, n - 1)] else [])
    decreases n - y + 1
  {
    if y < n {
      InclusiveBandsFrom(y + s, n, s);
      ModStep(n - y, s);
    } else if y == n {
      assert BandsFrom(y + s, n, s, Inclusive) == [];
    }
  }

  /**
   * The inclusive bound adds exactly one trailing band [n, n - 1] (empty) when the
   * stride divides the extent; otherwise both bounds give the same bands.
   */
  lemma InclusiveBands(n: nat, s: int)
    requires s >= 1
    ensures Bands(n, s, Inclusive)
         == Bands(n, s, Exclusive) + (if n % s == 0 then [Band(n, n - 1)] else [])
    ensures |Bands(n, s, Inclusive)| == n / s + 1
  {
    InclusiveBandsFrom(0, n, s);
    BandsFromLength(0, n, s, Inclusive);
    var q := |Bands(n, s, Inclusive)|;
    MulSucc(q - 1, s);
    DivModUnique(n, s, q - 1, n - (q - 1) * s);
  }

  // ---------------------------------------------------------------------------
  // Plans
  // ---------------------------------------------------------------------------

  lemma {:induction false} RowPlanAt(t: int, c: int, z: int, yb: Band, xbs: seq<Band>)
    ensures |RowPlan(t, c, z, yb, xbs)| == |xbs|
    ensures forall j :: 0 <= j < |xbs| ==> RowPlan(t, c, z, yb, xbs)[j] == MakeRequest(t, c, z, yb, xbs[j])
  {
    if xbs != [] {
      RowPlanAt(t, c, z, yb, xbs[1..]);
    }
  }

  lemma {:induction false} PlanePlanLength(t: int, c: int, z: int, ybs: seq<Band>, xbs: seq<Band>)
    ensures |PlanePlan(t, c, z, ybs, xbs)| == |ybs| * |xbs|
  {
    if ybs != [] {
      RowPlanAt(t, c, z, ybs[0], xbs);
      PlanePlanLength(t, c, z, ybs[1..], xbs);
      MulSucc(|ybs| - 1, |xbs|);
    }
  }

  /** Position k * B + m of a plan made of a block of B requests followed by the rest:
      inside the block for k = 0, else position (k - 1) * B + m of the rest. */
  lemma BlockIndex(head: seq<Request>, rest: seq<Request>, B: nat, k: nat, m: int)
    requires |head| == B && 0 <= m < B
    requires k > 0 ==> 0 <= (k - 1) * B + m < |rest|
    ensures 0 <= k * B + m < |head + rest|
    ensures (head + rest)[k * B + m] == if k == 0 then head[m] else rest[(k - 1) * B + m]
  {
    MulSucc(k - 1, B);
  }

  lemma {:induction false} PlanePlanAt(t: int, c: int, z: int, ybs: seq<Band>, xbs: seq<Band>, i: int, j: int)
    requires 0 <= i < |ybs| && 0 <= j < |xbs|
    ensures 0 <= i * |xbs| + j < |PlanePlan(t, c, z, ybs, xbs)|
    ensures PlanePlan(t, c, z, ybs, xbs)[i * |xbs| + j] == MakeRequest(t, c, z, ybs[i], xbs[j])
    decreases i
  {
    var head := RowPlan(t, c, z, ybs[0], xbs);
    var rest := PlanePlan(t, c, z, ybs[1..], xbs);
    RowPlanAt(t, c, z, ybs[0], xbs);
    assert PlanePlan(t, c, z, ybs, xbs) == head + rest;
    if i > 0 {
      PlanePlanAt(t, c, z, ybs[1..], xbs, i - 1, j);
      assert ybs[1..][i - 1] == ybs[i];
    }
    BlockIndex(head, rest, |xbs|, i, j);
  }

  lemma {:induction false} DepthPlanLength(t: nat, c: nat, z: nat, depth: nat, ybs: seq<Band>, xbs: seq<Band>)
    requires z <= depth
    ensures |DepthPlan(t, c, z, depth, ybs, xbs)| == (depth - z) * (|ybs| * |xbs|)
    decreases depth - z
  {
    if z < depth {
      PlanePlanLength(t, c, z, ybs, xbs);
      DepthPlanLength(t, c, z + 1, depth, ybs, xbs);
      MulSucc(depth - (z + 1), |ybs| * |xbs|);
    }
  }

  lemma {:induction false} DepthPlanAt(t: nat, c: nat, z: nat, depth: nat, ybs: seq<Band>, xbs: seq<Band>,
                                       P: nat, zz: nat, k: int)
    requires forall u :: |PlanePlan(t, c, u, ybs, xbs)| == P
    requires z <= zz < depth && 0 <= k < P
    ensures 0 <= (zz - z) * P + k < |DepthPlan(t, c, z, depth, ybs, xbs)|
    ensures DepthPlan(t, c, z, depth, ybs, xbs)[(zz - z) * P + k] == PlanePlan(t, c, zz, ybs, xbs)[k]
    decreases zz - z
  {
    var head := PlanePlan(t, c, z, ybs, xbs);
    var rest := DepthPlan(t, c, z + 1, depth, ybs, xbs);
    assert DepthPlan(t, c, z, depth, ybs, xbs) == head + rest;
    if zz > z {
      DepthPlanAt(t, c, z + 1, depth, ybs, xbs, P, zz, k);
    }
    BlockIndex(head, rest, P, zz - z, k);
  }

  lemma {:induction false} ChannelPlanLength(t: nat, c: nat, channels: nat, depth: nat, ybs: seq<Band>, xbs: seq<Band>)
    requires c <= channels
    ensures |ChannelPlan(t, c, channels, depth, ybs, xbs)| == (channels - c) * (depth * (|ybs| * |xbs|))
    decreases channels - c
  {
    if c < channels {
      DepthPlanLength(t, c, 0, depth, ybs, xbs);
      ChannelPlanLength(t, c + 1, channels, depth, ybs, xbs);
      var D := depth * (|ybs| * |xbs|);
      MulSucc(channels - (c + 1), D);
    }
  }



  lemma {:induction false} ChannelPlanAt(t: nat, c: nat, channels: nat, depth: nat, ybs: seq<Band>, xbs: seq<Band>,
                                         D: nat, cc: nat, m: int)
    requires forall u :: |DepthPlan(t, u, 0, depth, ybs, xbs)| == D
    requires c <= cc < channels && 0 <= m < D
    ensures 0 <= (cc - c) * D + m < |ChannelPlan(t, c, channels, depth, ybs, xbs)|
    ensures ChannelPlan(t, c, channels, depth, ybs, xbs)[(cc - c) * D + m] == DepthPlan(t, cc, 0, depth, ybs, xbs)[m]
    decreases cc - c
  {
    var head := DepthPlan(t, c, 0, depth, ybs, xbs);
    var rest := ChannelPlan(t, c + 1, channels, depth, ybs, xbs);
    assert ChannelPlan(t, c, channels, depth, ybs, xbs) == head + rest;
    if cc > c {
      ChannelPlanAt(t, c + 1, channels, depth, ybs, xbs, D, cc, m);
    }
    BlockIndex(head, rest, D, cc - c, m);
  }

  lemma {:induction false} TimePlanLength(t: nat, tsteps: nat, channels: nat, depth: nat, ybs: seq<Band>, xbs: seq<Band>)
    requires t <= tsteps
    ensures |TimePlan(t, tsteps, channels, depth, ybs, xbs)| == (tsteps - t) * (channels * (depth * (|ybs| * |xbs|)))
    decreases tsteps - t
  {
    if t < tsteps {
      ChannelPlanLength(t, 0, channels, depth, ybs, xbs);
      TimePlanLength(t + 1, tsteps, channels, depth, ybs, xbs);
      var S := channels * (depth * (|ybs| * |xbs|));
      MulSucc(tsteps - (t + 1), S);
    }
  }


  lemma {:induction false} TimePlanAt(t: nat, tsteps: nat, channels: nat, depth: nat, ybs: seq<Band>, xbs: seq<Band>,
                                      S: nat, tt: nat, m: int)
    requires forall u :: |ChannelPlan(u, 0, channels, depth, ybs, xbs)| == S
    requires t <= tt < tsteps && 0 <= m < S
    ensures 0 <= (tt - t) * S + m < |TimePlan(t, tsteps, channels, depth, ybs, xbs)|
    ensures TimePlan(t, tsteps, channels, depth, ybs, xbs)[(tt - t) * S + m] == ChannelPlan(tt, 0, channels, depth, ybs, xbs)[m]
    decreases tt - t
  {
    var head := ChannelPlan(t, 0, channels, depth, ybs, xbs);
    var rest := TimePlan(t + 1, tsteps, channels, depth, ybs, xbs);
    assert TimePlan(t, tsteps, channels, depth, ybs, xbs) == head + rest;
    if tt > t {
      TimePlanAt(t + 1, tsteps, channels, depth, ybs, xbs, S, tt, m);
    }
    BlockIndex(head, rest, S, tt - t, m);
  }

  /** Position of the request (t, c, z, row band i, column band j) in the plan: the
      mixed-radix number t c z i j, i.e. lexicographic (t, c, z, y, x) order. */
  function PlanIndex(channels: nat, depth: nat, ny: nat, nx: nat, t: nat, c: nat, z: nat, i: nat, j: nat): nat
  {
    (((t * channels + c) * depth + z) * ny + i) * nx + j
  }

  lemma PlanIndexLevels(channels: nat, depth: nat, ny: nat, nx: nat, t: nat, c: nat, z: nat, i: nat, j: nat,
                        P: nat, D: nat, S: nat)
    requires P == ny * nx && D == depth * P && S == channels * D
    ensures PlanIndex(channels, depth, ny, nx, t, c, z, i, j) == t * S + (c * D + (z * P + (i * nx + j)))
  {
    Horner(t, c, z, i, j, channels, depth, ny, nx);
  }

  /** Every plane, every depth loop and every channel loop has the same length. */
  lemma BlockLengths(channels: nat, depth: nat, ybs: seq<Band>, xbs: seq<Band>)
    ensures forall t, c, z :: |PlanePlan(t, c, z, ybs, xbs)| == |ybs| * |xbs|
    ensures forall t, c :: |DepthPlan(t, c, 0, depth, ybs, xbs)| == depth * (|ybs| * |xbs|)
    ensures forall t :: |ChannelPlan(t, 0, channels, depth, ybs, xbs)| == channels * (depth * (|ybs| * |xbs|))
  {
    forall t, c, z {
      PlanePlanLength(t, c, z, ybs, xbs);
    }
    forall t, c {
      DepthPlanLength(t, c, 0, depth, ybs, xbs);
    }
    forall t {
      ChannelPlanLength(t, 0, channels, depth, ybs, xbs);
    }
  }

  /** Request k of plane z is request z * P + k of its depth loop. */
  lemma DepthLevel(t: nat, c: nat, depth: nat, ybs: seq<Band>, xbs: seq<Band>, P: nat, z: nat, k: int)
    requires forall u :: |PlanePlan(t, c, u, ybs, xbs)| == P
    requires z < depth && 0 <= k < P
    ensures 0 <= z * P + k < depth * P
    ensures z * P + k < |DepthPlan(t, c, 0, depth, ybs, xbs)|
    ensures DepthPlan(t, c, 0, depth, ybs, xbs)[z * P + k] == PlanePlan(t, c, z, ybs, xbs)[k]
  {
    DepthPlanAt(t, c, 0, depth, ybs, xbs, P, z, k);
    MixedRadix(z, depth, k, P);
  }

  /** Request m of channel c's depth loop is request c * D + m of its channel loop. */
  lemma ChannelLevel(t: nat, channels: nat, depth: nat, ybs: seq<Band>, xbs: seq<Band>, D: nat, c: nat, m: int)
    requires forall u :: |DepthPlan(t, u, 0, depth, ybs, xbs)| == D
    requires c < channels && 0 <= m < D
    ensures 0 <= c * D + m < channels * D
    ensures c * D + m < |ChannelPlan(t, 0, channels, depth, ybs, xbs)|
    ensures ChannelPlan(t, 0, channels, depth, ybs, xbs)[c * D + m] == DepthPlan(t, c, 0, depth, ybs, xbs)[m]
  {
    ChannelPlanAt(t, 0, channels, depth, ybs, xbs, D, c, m);
    MixedRadix(c, channels, m, D);
  }

  /** Request m of time step t's channel loop is request t * S + m of the time loop. */
  lemma TimeLevel(tsteps: nat, channels: nat, depth: nat, ybs: seq<Band>, xbs: seq<Band>, S: nat, t: nat, m: int)
    requires forall u :: |ChannelPlan(u, 0, channels, depth, ybs, xbs)| == S
    requires t < tsteps && 0 <= m < S
    ensures t * S + m < |TimePlan(0, tsteps, channels, depth, ybs, xbs)|
    ensures TimePlan(0, tsteps, channels, depth, ybs, xbs)[t * S + m] == ChannelPlan(t, 0, channels, depth, ybs, xbs)[m]
  {
    TimePlanAt(0, tsteps, channels, depth, ybs, xbs, S, t, m);
  }

  /** Composes the three block levels: the request at offset k of plane (t, c, z) sits at
      t * S + c * D + z * P + k of the whole time loop. */
  lemma ComposeLevels(tsteps: nat, channels: nat, depth: nat, ybs: seq<Band>, xbs: seq<Band>,
                      P: nat, D: nat, S: nat, t: nat, c: nat, z: nat, k: int)
    requires P == |ybs| * |xbs| && D == depth * P && S == channels * D
    requires t < tsteps && c < channels && z < depth && 0 <= k < P
    ensures |PlanePlan(t, c, z, ybs, xbs)| == P
    ensures t * S + (c * D + (z * P + k)) < |TimePlan(0, tsteps, channels, depth, ybs, xbs)|
    ensures TimePlan(0, tsteps, channels, depth, ybs, xbs)[t * S + (c * D + (z * P + k))]
         == PlanePlan(t, c, z, ybs, xbs)[k]
  {
    BlockLengths(channels, depth, ybs, xbs);
    var m1 := z * P + k;
    DepthLevel(t, c, depth, ybs, xbs, P, z, k);
    var m2 := c * D + m1;
    ChannelLevel(t, channels, depth, ybs, xbs, D, c, m1);
    TimeLevel(tsteps, channels, depth, ybs, xbs, S, t, m2);
  }

  /**
   * The plan holds T * C * Z * |row bands| * |column bands| requests, and the request
   * for (t, c, z, row band i, column band j) sits at the lexicographic position
   * PlanIndex(t, c, z, i, j). Together these say the plan is exactly the cartesian
   * product of the five loops, each combination once, in (t, c, z, y, x) order.
   */
  lemma PlanAt(tsteps: nat, channels: nat, depth: nat, height: nat, width: nat,
               rowStride: int, colStride: int, bound: ScanBound,
               t: nat, c: nat, z: nat, i: nat, j: nat)
    requires rowStride >= 1 && colStride >= 1
    requires t < tsteps && c < channels && z < depth
    requires i < |Bands(height, rowStride, bound)| && j < |Bands(width, colStride, bound)|
    ensures var ybs := Bands(height, rowStride, bound);
            var xbs := Bands(width, colStride, bound);
            var p := PlanIndex(channels, depth, |ybs|, |xbs|, t, c, z, i, j);
      && p < |Plan(tsteps, channels, depth, height, width, rowStride, colStride, bound)|
      && Plan(tsteps, channels, depth, height, width, rowStride, colStride, bound)[p]
         == Request(t, c, z, ybs[i].lo, ybs[i].hi, xbs[j].lo, xbs[j].hi)
  {
    var ybs := Bands(height, rowStride, bound);
    var xbs := Bands(width, colStride, bound);
    var P := |ybs| * |xbs|;
    var D := depth * P;
    var S := channels * D;
    var k := i * |xbs| + j;
    PlanePlanAt(t, c, z, ybs, xbs, i, j);
    MixedRadix(i, |ybs|, j, |xbs|);
    ComposeLevels(tsteps, channels, depth, ybs, xbs, P, D, S, t, c, z, k);
    PlanIndexLevels(channels, depth, |ybs|, |xbs|, t, c, z, i, j, P, D, S);
    assert Plan(tsteps, channels, depth, height, width, rowStride, colStride, bound)
        == TimePlan(0, tsteps, channels, depth, ybs, xbs);
  }

  /** The plan has T * C * Z * |row bands| * |column bands| requests; under the exclusive
      bound that is T * C * Z * ceil(H / row stride) * ceil(W / col stride). */
  lemma PlanLength(tsteps: nat, channels: nat, depth: nat, height: nat, width: nat,
                   rowStride: int, colStride: int, bound: ScanBound)
    requires rowStride >= 1 && colStride >= 1
    ensures |Plan(tsteps, channels, depth, height, width, rowStride, colStride, bound)|
         == tsteps * (channels * (depth * (|Bands(height, rowStride, bound)| * |Bands(width, colStride, bound)|)))
    ensures bound == Exclusive ==>
      |Plan(tsteps, channels, depth, height, width, rowStride, colStride, bound)|
      == tsteps * (channels * (depth * (CeilDiv(height, rowStride) * CeilDiv(width, colStride))))
  {
    TimePlanLength(0, tsteps, channels, depth, Bands(height, rowStride, bound), Bands(width, colStride, bound));
    ExclusiveBandsPartition(height, rowStride);
    ExclusiveBandsPartition(width, colStride);
  }

  /** An image T=1, C=2, Z=1, 10 x 10 with stride 4 x 4: row and column bands
      [0,3], [4,7], [8,9]; nine requests per channel, eighteen in all. */
  lemma TenByTenScenario()
    ensures Bands(10, 4, Exclusive) == [Band(0, 3), Band(4, 7), Band(8, 9)]
    ensures |Plan(1, 2, 1, 10, 10, 4, 4, Exclusive)| == 18
  {
    assert BandsFrom(12, 10, 4, Exclusive) == [];
    assert BandsFrom(8, 10, 4, Exclusive) == [Band(8, 9)];
    assert BandsFrom(4, 10, 4, Exclusive) == [Band(4, 7), Band(8, 9)];
    PlanLength(1, 2, 1, 10, 10, 4, 4, Exclusive);
  }

  /** With the inclusive bound an 8-row image and stride 4 gets the extra empty band [8, 7]. */
  lemma InclusiveEightByFourScenario()
    ensures Bands(8, 4, Inclusive) == [Band(0, 3), Band(4, 7), Band(8, 7)]
  {
    assert BandsFrom(12, 8, 4, Inclusive) == [];
    assert BandsFrom(8, 8, 4, Inclusive) == [Band(8, 7)];
    assert BandsFrom(4, 8, 4, Inclusive) == [Band(4, 7), Band(8, 7)];
  }
}
