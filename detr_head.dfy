/**
 * The bookkeeping of the cascaded pose DETR head `SAMDABDETRHeadCascaded`
 * (mmdet/models/dense_heads/sam_dab_detr_head_cascaded.py): per-image target
 * assignment from a matcher's `gt_inds`, the batch positive/negative counts,
 * the loss normalisers, the per-layer loss-dict keys, and the decode of
 * top-k flat indices into detections.
 *
 * Tensors are sequences of rows of reals. The matcher, the learned layers and
 * the loss functions are outside the model: the matcher's result is an input.
 */
module PoseDetrHead {
  import opened BoxOps

  const BoxDim: nat := 4
  const RotDim: nat := 9
  const TransDim: nat := 3
  const SizeDim: nat := 3

  function Zeros(n: nat): (r: seq<real>)
    ensures |r| == n && forall k :: 0 <= k < n ==> r[k] == 0.0
  {
    seq(n, _ => 0.0)
  }

  function Ones(n: nat): (r: seq<real>)
    ensures |r| == n && forall k :: 0 <= k < n ==> r[k] == 1.0
  {
    seq(n, _ => 1.0)
  }

  // ---------------------------------------------------------------------------
  // Index sets

  /** The number of true entries. */
  function CountTrue(m: seq<bool>): nat {
    if |m| == 0 then 0 else CountTrue(m[..|m| - 1]) + (if m[|m| - 1] then 1 else 0)
  }

  /** `torch.nonzero(mask).squeeze(-1).unique()`: the true positions, ascending, each once. */
  predicate IndexSetOf(inds: seq<nat>, mask: seq<bool>) {
    && (forall a, b :: 0 <= a < b < |inds| ==> inds[a] < inds[b])
    && (forall a :: 0 <= a < |inds| ==> inds[a] < |mask|)
    && (forall i :: 0 <= i < |mask| ==> (mask[i] <==> i in inds))
    && |inds| == CountTrue(mask)
  }

  method NonzeroIndices(mask: seq<bool>) returns (inds: seq<nat>)
    ensures IndexSetOf(inds, mask)
  {
    inds := [];
    var i := 0;
    while i < |mask|
      invariant 0 <= i <= |mask|
      invariant forall a, b :: 0 <= a < b < |inds| ==> inds[a] < inds[b]
      invariant forall a :: 0 <= a < |inds| ==> inds[a] < i
      invariant forall j :: 0 <= j < i ==> (mask[j] <==> j in inds)
      invariant |inds| == CountTrue(mask[..i])
    {
      assert mask[..i + 1][..i] == mask[..i];
      if mask[i] {
        inds := inds + [i];
      }
      i := i + 1;
    }
    assert mask[..i] == mask;
  }

  /**
   * Positive queries: `gt_inds > 0`. The ensures only names each entry; what
   * the mask means for the counts is proved in PosNegCount, PosNegDisjoint and
   * GatedRowsCount.
   */
  function PosMask(gtInds: seq<int>): (m: seq<bool>)
    ensures |m| == |gtInds| && forall i :: 0 <= i < |gtInds| ==> (m[i] <==> gtInds[i] > 0)
  {
    seq(|gtInds|, i requires 0 <= i < |gtInds| => gtInds[i] > 0)
  }

  /**
   * Negative queries: `gt_inds == 0`. The ensures only names each entry; its
   * partners are PosNegCount and PosNegDisjoint.
   */
  function NegMask(gtInds: seq<int>): (m: seq<bool>)
    ensures |m| == |gtInds| && forall i :: 0 <= i < |gtInds| ==> (m[i] <==> gtInds[i] == 0)
  {
    seq(|gtInds|, i requires 0 <= i < |gtInds| => gtInds[i] == 0)
  }

  /**
   * Positives and negatives are disjoint, so together they number at most the
   * queries; exactly the queries when the matcher ignores none (no negative entry).
   */
  lemma {:induction false} PosNegCount(gtInds: seq<int>)
    ensures CountTrue(PosMask(gtInds)) + CountTrue(NegMask(gtInds)) <= |gtInds|
    ensures (forall i :: 0 <= i < |gtInds| ==> gtInds[i] >= 0) <==>
            CountTrue(PosMask(gtInds)) + CountTrue(NegMask(gtInds)) == |gtInds|
  {
    var n := |gtInds|;
    if n > 0 {
      var init := gtInds[..n - 1];
      PosNegCount(init);
      assert PosMask(gtInds)[..n - 1] == PosMask(init);
      assert NegMask(gtInds)[..n - 1] == NegMask(init);
      if forall i :: 0 <= i < n ==> gtInds[i] >= 0 {
        assert forall i :: 0 <= i < |init| ==> init[i] >= 0;
      } else if gtInds[n - 1] >= 0 {
        var i :| 0 <= i < n && gtInds[i] < 0;
        assert init[i] < 0;
      }
    }
  }

  // ---------------------------------------------------------------------------
  // Target assignment for one image

  /** A batch's ground truth for one image: one row per instance in each field. */
  datatype GtInstances = GtInstances(
    bboxes: seq<seq<real>>,
    labels: seq<int>,
    rots: seq<seq<real>>,
    poses: seq<seq<real>>,
    sizes: seq<seq<real>>)

  predicate WellShaped(gt: GtInstances) {
    && |gt.labels| == |gt.bboxes| == |gt.rots| == |gt.poses| == |gt.sizes|
    && forall g :: 0 <= g < |gt.bboxes| ==>
         |gt.bboxes[g]| == BoxDim && |gt.rots[g]| == RotDim && |gt.poses[g]| == TransDim && |gt.sizes[g]| == SizeDim
  }

  /** What the matcher promises: a positive `gt_inds` entry k names ground truth k-1. */
  predicate AssignmentFits(gtInds: seq<int>, numGts: nat) {
    forall i :: 0 <= i < |gtInds| ==> gtInds[i] <= numGts
  }

  datatype ImageTargets = ImageTargets(
    labels: seq<int>,
    labelWeights: seq<real>,
    bboxTargets: seq<seq<real>>,
    bboxWeights: seq<seq<real>>,
    rotTargets: seq<seq<real>>,
    rotWeights: seq<seq<real>>,
    transTargets: seq<seq<real>>,
    transWeights: seq<seq<real>>,
    sizeTargets: seq<seq<real>>,
    sizeWeights: seq<seq<real>>,
    posInds: seq<nat>,
    negInds: seq<nat>)

  predicate SameLength(t: ImageTargets, n: nat) {
    && |t.labels| == |t.labelWeights| == |t.bboxTargets| == |t.bboxWeights| == n
    && |t.rotTargets| == |t.rotWeights| == |t.transTargets| == |t.transWeights| == n
    && |t.sizeTargets| == |t.sizeWeights| == n
  }

  /** Everything the targets hold about one query. */
  datatype QueryRow = QueryRow(
    classLabel: int, labelWeight: real,
    bboxTarget: seq<real>, bboxWeight: seq<real>,
    rotTarget: seq<real>, rotWeight: seq<real>,
    transTarget: seq<real>, transWeight: seq<real>,
    sizeTarget: seq<real>, sizeWeight: seq<real>)

  function RowOf(t: ImageTargets, j: nat): QueryRow
    requires j < |t.labels| && SameLength(t, |t.labels|)
  {
    QueryRow(t.labels[j], t.labelWeights[j], t.bboxTargets[j], t.bboxWeights[j], t.rotTargets[j], t.rotWeights[j],
             t.transTargets[j], t.transWeights[j], t.sizeTargets[j], t.sizeWeights[j])
  }

  /** The ground-truth box as a target: divided by (w, h, w, h), then corner form to centre form. */
  function BoxTarget(gtBox: seq<real>, imgW: real, imgH: real): (r: seq<real>)
    requires IsBoxRow(gtBox) && imgW > 0.0 && imgH > 0.0
    ensures IsBoxRow(r)
    ensures Scale(CxcywhToXyxy(r), imgW, imgH) == gtBox
  {
    XyxyToCxcywh(Normalize(gtBox, imgW, imgH))
  }

  /** A query no ground truth is assigned to: the background label `numClasses`, zero targets and weights. */
  function BackgroundRow(numClasses: int): QueryRow {
    QueryRow(numClasses, 1.0, Zeros(BoxDim), Zeros(BoxDim), Zeros(RotDim), Zeros(RotDim),
             Zeros(TransDim), Zeros(TransDim), Zeros(SizeDim), Zeros(SizeDim))
  }

  /** A query matched to ground truth g: its label, normalised box, rotation, translation and size, weights of one. */
  function PositiveRow(gt: GtInstances, g: nat, imgW: real, imgH: real): QueryRow
    requires WellShaped(gt) && g < |gt.labels| && imgW > 0.0 && imgH > 0.0
  {
    QueryRow(gt.labels[g], 1.0, BoxTarget(gt.bboxes[g], imgW, imgH), Ones(BoxDim), gt.rots[g], Ones(RotDim),
             gt.poses[g], Ones(TransDim), gt.sizes[g], Ones(SizeDim))
  }

  /** Row j of the targets as `_get_targets_single` defines it. */
  function ExpectedRow(gtInds: seq<int>, gt: GtInstances, imgW: real, imgH: real, numClasses: int, j: nat, positive: bool): QueryRow
    requires WellShaped(gt) && AssignmentFits(gtInds, |gt.labels|) && imgW > 0.0 && imgH > 0.0
    requires j < |gtInds| && (positive ==> gtInds[j] > 0)
  {
    if positive then PositiveRow(gt, gtInds[j] - 1, imgW, imgH) else BackgroundRow(numClasses)
  }

  /**
   * The targets of one image: the positive and negative index sets of the
   * matcher's result, and one row per query, a positive query's taken from
   * its ground truth and every other query's background.
   */
  predicate TargetsFor(t: ImageTargets, gtInds: seq<int>, gt: GtInstances, imgW: real, imgH: real, numClasses: int)
    requires WellShaped(gt) && AssignmentFits(gtInds, |gt.labels|) && imgW > 0.0 && imgH > 0.0
  {
    && SameLength(t, |gtInds|)
    && IndexSetOf(t.posInds, PosMask(gtInds))
    && IndexSetOf(t.negInds, NegMask(gtInds))
    && forall j :: 0 <= j < |gtInds| ==> RowOf(t, j) == ExpectedRow(gtInds, gt, imgW, imgH, numClasses, j, gtInds[j] > 0)
  }

  /** Row i of the targets overwritten by `row`; every other row kept. */
  function SetRow(t: ImageTargets, i: nat, row: QueryRow): (r: ImageTargets)
    requires i < |t.labels| && SameLength(t, |t.labels|)
    ensures SameLength(r, |t.labels|) && r.posInds == t.posInds && r.negInds == t.negInds
    ensures RowOf(r, i) == row
    ensures forall j :: 0 <= j < |t.labels| && j != i ==> RowOf(r, j) == RowOf(t, j)
  {
    t.(labels := t.labels[i := row.classLabel], labelWeights := t.labelWeights[i := row.labelWeight],
       bboxTargets := t.bboxTargets[i := row.bboxTarget], bboxWeights := t.bboxWeights[i := row.bboxWeight],
       rotTargets := t.rotTargets[i := row.rotTarget], rotWeights := t.rotWeights[i := row.rotWeight],
       transTargets := t.transTargets[i := row.transTarget], transWeights := t.transWeights[i := row.transWeight],
       sizeTargets := t.sizeTargets[i := row.sizeTarget], sizeWeights := t.sizeWeights[i := row.sizeWeight])
  }

  /** `_get_targets_single`, with the matcher's `gt_inds` given. */
  method GetTargetsSingle(gtInds: seq<int>, gt: GtInstances, imgW: real, imgH: real, numClasses: int)
    returns (t: ImageTargets)
    requires WellShaped(gt) && AssignmentFits(gtInds, |gt.labels|) && imgW > 0.0 && imgH > 0.0
    ensures TargetsFor(t, gtInds, gt, imgW, imgH, numClasses)
  {
    var n := |gtInds|;
    var posInds := NonzeroIndices(PosMask(gtInds));
    var negInds := NonzeroIndices(NegMask(gtInds));
    t := ImageTargets(
      seq(n, _ => numClasses), seq(n, _ => 1.0),
      seq(n, _ => Zeros(BoxDim)), seq(n, _ => Zeros(BoxDim)),
      seq(n, _ => Zeros(RotDim)), seq(n, _ => Zeros(RotDim)),
      seq(n, _ => Zeros(TransDim)), seq(n, _ => Zeros(TransDim)),
      seq(n, _ => Zeros(SizeDim)), seq(n, _ => Zeros(SizeDim)),
      posInds, negInds);
    var k := 0;
    while k < |posInds|
      invariant 0 <= k <= |posInds|
      invariant SameLength(t, n) && t.posInds == posInds && t.negInds == negInds
      invariant forall j :: 0 <= j < n ==>
        RowOf(t, j) == ExpectedRow(gtInds, gt, imgW, imgH, numClasses, j, j in posInds[..k])
    {
      var i := posInds[k];
      t := SetRow(t, i, PositiveRow(gt, gtInds[i] - 1, imgW, imgH));
      assert posInds[..k + 1] == posInds[..k] + [i];
      k := k + 1;
    }
    assert posInds[..k] == posInds;
  }

  /** Every positive index names a query with `gt_inds > 0`, and no query is both positive and negative. */
  lemma PosNegDisjoint(t: ImageTargets, gtInds: seq<int>, gt: GtInstances, imgW: real, imgH: real, numClasses: int)
    requires WellShaped(gt) && AssignmentFits(gtInds, |gt.labels|) && imgW > 0.0 && imgH > 0.0
    requires TargetsFor(t, gtInds, gt, imgW, imgH, numClasses)
    ensures forall i :: i in t.posInds ==> i < |gtInds| && gtInds[i] > 0 && i !in t.negInds
    ensures forall i :: i in t.negInds ==> i < |gtInds| && gtInds[i] == 0
  {
    forall i | i in t.posInds
      ensures i < |gtInds| && gtInds[i] > 0 && i !in t.negInds
    {
      var a :| 0 <= a < |t.posInds| && t.posInds[a] == i;
      assert PosMask(gtInds)[i];
    }
    forall i | i in t.negInds
      ensures i < |gtInds| && gtInds[i] == 0
    {
      var a :| 0 <= a < |t.negInds| && t.negInds[a] == i;
      assert NegMask(gtInds)[i];
    }
  }

  /** The number of rows equal to `row`. */
  function CountRows(rows: seq<seq<real>>, row: seq<real>): nat {
    if |rows| == 0 then 0 else CountRows(rows[..|rows| - 1], row) + (if rows[|rows| - 1] == row then 1 else 0)
  }

  /** Rows chosen by the positive mask between two distinct values: one `a` per positive query. */
  lemma {:induction false} GatedRowsCount(rows: seq<seq<real>>, gtInds: seq<int>, a: seq<real>, b: seq<real>)
    requires a != b && |rows| == |gtInds|
    requires forall j :: 0 <= j < |rows| ==> rows[j] == (if gtInds[j] > 0 then a else b)
    ensures CountRows(rows, a) == CountTrue(PosMask(gtInds))
    ensures CountRows(rows, b) == |rows| - CountTrue(PosMask(gtInds))
  {
    var n := |rows|;
    if n > 0 {
      GatedRowsCount(rows[..n - 1], gtInds[..n - 1], a, b);
      assert PosMask(gtInds)[..n - 1] == PosMask(gtInds[..n - 1]);
    }
  }

  /** Each weight row is ones for a positive query and zeros for any other. */
  lemma WeightRowsGated(t: ImageTargets, gtInds: seq<int>, gt: GtInstances, imgW: real, imgH: real, numClasses: int)
    requires WellShaped(gt) && AssignmentFits(gtInds, |gt.labels|) && imgW > 0.0 && imgH > 0.0
    requires TargetsFor(t, gtInds, gt, imgW, imgH, numClasses)
    ensures forall j :: 0 <= j < |gtInds| ==>
      && t.bboxWeights[j] == (if gtInds[j] > 0 then Ones(BoxDim) else Zeros(BoxDim))
      && t.rotWeights[j] == (if gtInds[j] > 0 then Ones(RotDim) else Zeros(RotDim))
      && t.transWeights[j] == (if gtInds[j] > 0 then Ones(TransDim) else Zeros(TransDim))
      && t.sizeWeights[j] == (if gtInds[j] > 0 then Ones(SizeDim) else Zeros(SizeDim))
  {
    forall j | 0 <= j < |gtInds|
      ensures t.bboxWeights[j] == (if gtInds[j] > 0 then Ones(BoxDim) else Zeros(BoxDim))
      ensures t.rotWeights[j] == (if gtInds[j] > 0 then Ones(RotDim) else Zeros(RotDim))
      ensures t.transWeights[j] == (if gtInds[j] > 0 then Ones(TransDim) else Zeros(TransDim))
      ensures t.sizeWeights[j] == (if gtInds[j] > 0 then Ones(SizeDim) else Zeros(SizeDim))
    {
      var row := RowOf(t, j);
      assert row == ExpectedRow(gtInds, gt, imgW, imgH, numClasses, j, gtInds[j] > 0);
      assert t.bboxWeights[j] == row.bboxWeight && t.rotWeights[j] == row.rotWeight;
      assert t.transWeights[j] == row.transWeight && t.sizeWeights[j] == row.sizeWeight;
    }
  }

  /**
   * With M positive queries out of N, each weight tensor has exactly M rows of
   * ones and N - M rows of zeros.
   */
  lemma WeightRowsCount(t: ImageTargets, gtInds: seq<int>, gt: GtInstances, imgW: real, imgH: real, numClasses: int)
    requires WellShaped(gt) && AssignmentFits(gtInds, |gt.labels|) && imgW > 0.0 && imgH > 0.0
    requires TargetsFor(t, gtInds, gt, imgW, imgH, numClasses)
    ensures CountRows(t.bboxWeights, Ones(BoxDim)) == |t.posInds|
    ensures CountRows(t.bboxWeights, Zeros(BoxDim)) == |gtInds| - |t.posInds|
    ensures CountRows(t.rotWeights, Ones(RotDim)) == |t.posInds|
    ensures CountRows(t.rotWeights, Zeros(RotDim)) == |gtInds| - |t.posInds|
    ensures CountRows(t.transWeights, Ones(TransDim)) == |t.posInds|
    ensures CountRows(t.transWeights, Zeros(TransDim)) == |gtInds| - |t.posInds|
    ensures CountRows(t.sizeWeights, Ones(SizeDim)) == |t.posInds|
    ensures CountRows(t.sizeWeights, Zeros(SizeDim)) == |gtInds| - |t.posInds|
  {
    assert Ones(BoxDim)[0] != Zeros(BoxDim)[0];
    assert Ones(RotDim)[0] != Zeros(RotDim)[0];
    assert Ones(TransDim)[0] != Zeros(TransDim)[0];
    WeightRowsGated(t, gtInds, gt, imgW, imgH, numClasses);
    GatedRowsCount(t.bboxWeights, gtInds, Ones(BoxDim), Zeros(BoxDim));
    GatedRowsCount(t.rotWeights, gtInds, Ones(RotDim), Zeros(RotDim));
    GatedRowsCount(t.transWeights, gtInds, Ones(TransDim), Zeros(TransDim));
    GatedRowsCount(t.sizeWeights, gtInds, Ones(SizeDim), Zeros(SizeDim));
  }

  // ---------------------------------------------------------------------------
  // Targets for a batch

  /** One image's matcher result, ground truth and `img_shape`. */
  datatype ImageAssignment = ImageAssignment(gtInds: seq<int>, gt: GtInstances, imgH: real, imgW: real)

  predicate AssignmentOk(a: ImageAssignment) {
    WellShaped(a.gt) && AssignmentFits(a.gtInds, |a.gt.labels|) && a.imgW > 0.0 && a.imgH > 0.0
  }

  predicate ImageTargetsFor(t: ImageTargets, a: ImageAssignment, numClasses: int)
    requires AssignmentOk(a)
  {
    TargetsFor(t, a.gtInds, a.gt, a.imgW, a.imgH, numClasses)
  }

  function TotalPos(batch: seq<ImageAssignment>): nat {
    if |batch| == 0 then 0 else TotalPos(batch[..|batch| - 1]) + CountTrue(PosMask(batch[|batch| - 1].gtInds))
  }

  function TotalNeg(batch: seq<ImageAssignment>): nat {
    if |batch| == 0 then 0 else TotalNeg(batch[..|batch| - 1]) + CountTrue(NegMask(batch[|batch| - 1].gtInds))
  }

  function TotalQueries(batch: seq<ImageAssignment>): nat {
    if |batch| == 0 then 0 else TotalQueries(batch[..|batch| - 1]) + |batch[|batch| - 1].gtInds|
  }

  /** Over a batch, positives and negatives together number at most the queries. */
  lemma {:induction false} TotalPosNegBound(batch: seq<ImageAssignment>)
    ensures TotalPos(batch) + TotalNeg(batch) <= TotalQueries(batch)
  {
    if |batch| > 0 {
      TotalPosNegBound(batch[..|batch| - 1]);
      PosNegCount(batch[|batch| - 1].gtInds);
    }
  }

  /** Extending the batch prefix by image b adds that image's positive and negative counts. */
  lemma TotalsStep(batch: seq<ImageAssignment>, b: nat)
    requires b < |batch|
    ensures TotalPos(batch[..b + 1]) == TotalPos(batch[..b]) + CountTrue(PosMask(batch[b].gtInds))
    ensures TotalNeg(batch[..b + 1]) == TotalNeg(batch[..b]) + CountTrue(NegMask(batch[b].gtInds))
  {
    assert batch[..b + 1][..b] == batch[..b];
  }

  /** `get_targets`: the per-image targets, and the positive and negative counts summed over the batch. */
  method GetTargets(batch: seq<ImageAssignment>, numClasses: int)
    returns (targets: seq<ImageTargets>, numTotalPos: nat, numTotalNeg: nat)
    requires forall b :: 0 <= b < |batch| ==> AssignmentOk(batch[b])
    ensures |targets| == |batch|
    ensures forall b :: 0 <= b < |batch| ==>
      ImageTargetsFor(targets[b], batch[b], numClasses)
    ensures numTotalPos == TotalPos(batch) && numTotalNeg == TotalNeg(batch)
    ensures numTotalPos + numTotalNeg <= TotalQueries(batch)
  {
    targets := [];
    numTotalPos, numTotalNeg := 0, 0;
    var b := 0;
    while b < |batch|
      invariant 0 <= b <= |batch| && |targets| == b
      invariant forall c :: 0 <= c < b ==>
        ImageTargetsFor(targets[c], batch[c], numClasses)
      invariant numTotalPos == TotalPos(batch[..b]) && numTotalNeg == TotalNeg(batch[..b])
    {
      var a := batch[b];
      var t := GetTargetsSingle(a.gtInds, a.gt, a.imgW, a.imgH, numClasses);
      assert ImageTargetsFor(t, a, numClasses);
      targets := targets + [t];
      TotalsStep(batch, b);
      numTotalPos := numTotalPos + |t.posInds|;
      numTotalNeg := numTotalNeg + |t.negInds|;
      b := b + 1;
    }
    assert batch[..b] == batch;
    TotalPosNegBound(batch);
  }

  // ---------------------------------------------------------------------------
  // Loss normalisers (one process: the cross-worker mean is the value itself)

  /** `max(num_total_pos * 1.0 + num_total_neg * bg_cls_weight, 1)`. */
  function ClsAvgFactor(numTotalPos: nat, numTotalNeg: nat, bgClsWeight: real): (r: real)
    ensures r >= 1.0 && r >= numTotalPos as real + numTotalNeg as real * bgClsWeight
    ensures r == 1.0 || r == numTotalPos as real + numTotalNeg as real * bgClsWeight
  {
    var f := numTotalPos as real * 1.0 + numTotalNeg as real * bgClsWeight;
    if f < 1.0 then 1.0 else f
  }

  /** `torch.clamp(num_total_pos, min=1)`: the regression losses' normaliser. */
  function RegAvgFactor(numTotalPos: nat): (r: real)
    ensures r >= 1.0 && r >= numTotalPos as real
    ensures r == 1.0 || r == numTotalPos as real
  {
    if numTotalPos < 1 then 1.0 else numTotalPos as real
  }

  // ---------------------------------------------------------------------------
  // Loss dict keys

  /** The six losses of one decoder layer. */
  datatype LayerLosses = LayerLosses(cls: real, bbox: real, iou: real, rot: real, trans: real, size: real)

  const LossNames: seq<string> := ["loss_cls", "loss_bbox", "loss_iou", "loss_R", "loss_T", "loss_size"]

  function LossValue(l: LayerLosses, k: nat): real
    requires k < 6
  {
    [l.cls, l.bbox, l.iou, l.rot, l.trans, l.size][k]
  }

  /** The character of decimal digit d. */
  function DigitChar(d: nat): (c: char)
    requires d < 10
    ensures '0' <= c <= '9' && c as int - '0' as int == d
  {
    (d + '0' as int) as char
  }

  /** Every character is a decimal digit. */
  predicate AllDigits(s: string) {
    forall i :: 0 <= i < |s| ==> '0' <= s[i] <= '9'
  }

  /** Python's `f'{n}'` for a natural number. */
  function NatToString(n: nat): (s: string)
    ensures |s| >= 1 && (n >= 10 ==> |s| >= 2)
    ensures AllDigits(s)
    ensures s[0] == '0' <==> n == 0
    ensures |s| == 1 || s[0] != '0'
  {
    if n < 10 then [DigitChar(n)] else NatToString(n / 10) + [DigitChar(n % 10)]
  }

  /** The number a string of decimal digits spells, most significant digit first (Python's `int(s)`). */
  function DecimalValue(s: string): nat
    requires AllDigits(s)
  {
    if |s| == 0 then 0
    else
      DecimalValue(s[..|s| - 1]) * 10 + (s[|s| - 1] as int - '0' as int)
  }

  /** `f'{n}'` spells n in decimal: reading the digits back gives n. */
  lemma {:induction false} NatToStringValue(n: nat)
    ensures DecimalValue(NatToString(n)) == n
  {
    if n >= 10 {
      var s := NatToString(n);
      assert s[..|s| - 1] == NatToString(n / 10);
      NatToStringValue(n / 10);
    }
  }

  lemma NatToStringInjective(a: nat, b: nat)
    requires NatToString(a) == NatToString(b)
    ensures a == b
  {
    NatToStringValue(a);
    NatToStringValue(b);
  }

  /** The key of loss k of auxiliary layer i: `d{i}.loss_...`. */
  function LayerKey(i: nat, k: nat): string
    requires k < 6
  {
    "d" + NatToString(i) + "." + LossNames[k]
  }

  /** `d`, the layer's digits, `.`, the loss name. */
  lemma LayerKeyLayout(i: nat, k: nat)
    requires k < 6
    ensures var s, key := NatToString(i), LayerKey(i, k);
      && |key| == 2 + |s| + |LossNames[k]| && key[0] == 'd' && key[1 + |s|] == '.'
      && key[1..1 + |s|] == s && key[2 + |s|..] == LossNames[k]
      && forall p :: 1 <= p < 1 + |s| ==> '0' <= key[p] <= '9'
  {
    var s, key := NatToString(i), LayerKey(i, k);
    assert key == "d" + s + ("." + LossNames[k]);
    assert key[1..1 + |s|] == s;
    assert key[2 + |s|..] == LossNames[k];
    forall p | 1 <= p < 1 + |s|
      ensures '0' <= key[p] <= '9'
    {
      assert key[p] == s[p - 1];
    }
  }

  /** Distinct (layer, loss) pairs have distinct keys, and no layer key is an unprefixed name. */
  lemma LayerKeyInjective(i: nat, k: nat, i': nat, k': nat)
    requires k < 6 && k' < 6
    ensures LayerKey(i, k) == LayerKey(i', k') ==> i == i' && k == k'
    ensures LayerKey(i, k) !in LossNames
  {
    var s, s' := NatToString(i), NatToString(i');
    var key, key' := LayerKey(i, k), LayerKey(i', k');
    LayerKeyLayout(i, k);
    LayerKeyLayout(i', k');
    if |s| < |s'| {
      assert key[1 + |s|] != key'[1 + |s|];
    } else if |s'| < |s| {
      assert key[1 + |s'|] != key'[1 + |s'|];
    } else if key == key' {
      assert s == s';
      NatToStringInjective(i, i');
      assert LossNames[k] == LossNames[k'];
    }
    assert key[0] == 'd';
  }

  /** `loss_by_feat`'s dict: the last layer under the plain names, layer i < L-1 under `d{i}.`. */
  method LossByFeat(layers: seq<LayerLosses>) returns (lossDict: map<string, real>)
    requires |layers| >= 1
    ensures forall k :: 0 <= k < 6 ==>
      LossNames[k] in lossDict && lossDict[LossNames[k]] == LossValue(layers[|layers| - 1], k)
    ensures forall i, k :: 0 <= i < |layers| - 1 && 0 <= k < 6 ==>
      LayerKey(i, k) in lossDict && lossDict[LayerKey(i, k)] == LossValue(layers[i], k)
    ensures |lossDict| == 6 * |layers|
  {
    var last := layers[|layers| - 1];
    lossDict := map[];
    lossDict := lossDict["loss_cls" := last.cls];
    lossDict := lossDict["loss_bbox" := last.bbox];
    lossDict := lossDict["loss_iou" := last.iou];
    lossDict := lossDict["loss_R" := last.rot];
    lossDict := lossDict["loss_T" := last.trans];
    lossDict := lossDict["loss_size" := last.size];
    forall i: nat, k | 0 <= k < 6
      ensures LayerKey(i, k) !in lossDict
    {
      LayerKeyInjective(i, k, i, k);
    }
    var numDecLayer := 0;
    while numDecLayer < |layers| - 1
      invariant 0 <= numDecLayer <= |layers| - 1
      invariant forall k :: 0 <= k < 6 ==>
        LossNames[k] in lossDict && lossDict[LossNames[k]] == LossValue(last, k)
      invariant forall i, k :: 0 <= i < numDecLayer && 0 <= k < 6 ==>
        LayerKey(i, k) in lossDict && lossDict[LayerKey(i, k)] == LossValue(layers[i], k)
      invariant forall i: nat, k :: 0 <= k < 6 && LayerKey(i, k) in lossDict ==> i < numDecLayer
      invariant |lossDict| == 6 + 6 * numDecLayer
    {
      var l := layers[numDecLayer];
      ghost var before := lossDict;
      forall i, k, k' | 0 <= k < 6 && 0 <= k' < 6
        ensures LayerKey(i, k) == LayerKey(numDecLayer, k') ==> i == numDecLayer && k == k'
        ensures LayerKey(numDecLayer, k') !in LossNames
      {
        LayerKeyInjective(i, k, numDecLayer, k');
      }
      var k := 0;
      while k < 6
        invariant 0 <= k <= 6
        invariant forall k' :: 0 <= k' < 6 ==>
          LossNames[k'] in lossDict && lossDict[LossNames[k']] == LossValue(last, k')
        invariant forall i, k' :: 0 <= i < numDecLayer && 0 <= k' < 6 ==>
          LayerKey(i, k') in lossDict && lossDict[LayerKey(i, k')] == LossValue(layers[i], k')
        invariant forall k' :: 0 <= k' < k ==>
          LayerKey(numDecLayer, k') in lossDict && lossDict[LayerKey(numDecLayer, k')] == LossValue(l, k')
        invariant forall i: nat, k' :: 0 <= k' < 6 && LayerKey(i, k') in lossDict ==>
          i < numDecLayer || (i == numDecLayer && k' < k)
        invariant |lossDict| == 6 + 6 * numDecLayer + k
      {
        lossDict := lossDict[LayerKey(numDecLayer, k) := LossValue(l, k)];
        k := k + 1;
      }
      numDecLayer := numDecLayer + 1;
    }
  }

  // ---------------------------------------------------------------------------
  // Decoding detections

  /** `cls_score.view(-1)`: the per-query rows laid end to end. */
  function Flatten(rows: seq<seq<real>>): seq<real> {
    if |rows| == 0 then [] else Flatten(rows[..|rows| - 1]) + rows[|rows| - 1]
  }

  /** Euclidean division has one answer: k = q*c + l with 0 <= l < c fixes q and l. */
  lemma DivModUnique(k: int, c: int, q: int, l: int)
    requires c > 0 && 0 <= l < c && k == q * c + l
    ensures k / c == q && k % c == l
  {
    var q', l' := k / c, k % c;
    assert (q' - q) * c == l - l';
    assert q' - q >= 1 ==> (q' - q) * c >= c;
    assert q' - q <= -1 ==> (q' - q) * c <= -c;
  }

  /** The Euclidean quotient and remainder are the only q, l with k = q*c + l and 0 <= l < c. */
  lemma DivModIff(k: int, c: int, q: int, l: int)
    requires c > 0
    ensures (q * c + l == k && 0 <= l < c) <==> (q == k / c && l == k % c)
  {
    if q * c + l == k && 0 <= l < c {
      DivModUnique(k, c, q, l);
    }
  }

  /**
   * Flat index k of the score matrix is query `k // num_classes`, class
   * `k % num_classes`: the decode inverts the row-major layout.
   */
  lemma {:induction false} FlattenAt(rows: seq<seq<real>>, c: nat, k: nat)
    requires c > 0 && forall q :: 0 <= q < |rows| ==> |rows[q]| == c
    requires k < |rows| * c
    ensures |Flatten(rows)| == |rows| * c
    ensures k / c < |rows| && Flatten(rows)[k] == rows[k / c][k % c]
  {
    var n := |rows|;
    var init := rows[..n - 1];
    FlattenLength(rows, c);
    FlattenLength(init, c);
    var flatInit := Flatten(init);
    assert Flatten(rows) == flatInit + rows[n - 1];
    LastRowStart(n, c);
    if k < |flatInit| {
      FlattenAt(init, c, k);
      assert rows[k / c] == init[k / c];
    } else {
      var l := k - |flatInit|;
      DivModUnique(k, c, n - 1, l);
    }
  }

  /** The last of n rows of c entries starts at (n-1)*c and ends at n*c. */
  lemma LastRowStart(n: nat, c: nat)
    requires n > 0
    ensures n * c == (n - 1) * c + c
  {
  }

  lemma {:induction false} FlattenLength(rows: seq<seq<real>>, c: nat)
    requires forall q :: 0 <= q < |rows| ==> |rows[q]| == c
    ensures |Flatten(rows)| == |rows| * c
  {
    if |rows| > 0 {
      FlattenLength(rows[..|rows| - 1], c);
    }
  }

  /**
   * Class scores of the last layer for one image: per-query per-class sigmoid
   * probabilities, or (softmax head) each query's best foreground score and label.
   */
  datatype ClassScores =
    | SigmoidScores(probs: seq<seq<real>>)
    | SoftmaxBest(best: seq<real>, bestLabel: seq<int>)

  /** The last decoder layer's five streams for one image. */
  datatype HeadOutputs = HeadOutputs(
    scores: ClassScores,
    bboxes: seq<seq<real>>,
    rots: seq<seq<real>>,
    trans: seq<seq<real>>,
    sizes: seq<seq<real>>)

  /** `rescale`: off, or on with the image's `scale_factor` (w, h). */
  datatype Rescale = NoRescale | RescaleBy(w: real, h: real)

  predicate RescaleOk(rescale: Rescale) {
    rescale.RescaleBy? ==> rescale.w != 0.0 && rescale.h != 0.0
  }

  datatype DetInstances = DetInstances(
    scores: seq<real>,
    labels: seq<int>,
    bboxes: seq<seq<real>>,
    rots: seq<seq<real>>,
    poses: seq<seq<real>>,
    sizes: seq<seq<real>>)

  /** Everything the results hold about one detection. */
  datatype Detection = Detection(score: real, classLabel: int, bbox: seq<real>, rot: seq<real>, pose: seq<real>, size: seq<real>)

  function DetCount(det: DetInstances): nat {
    |det.scores|
  }

  predicate DetShaped(det: DetInstances) {
    |det.labels| == |det.bboxes| == |det.rots| == |det.poses| == |det.sizes| == |det.scores|
  }

  function DetAt(det: DetInstances, j: nat): Detection
    requires DetShaped(det) && j < DetCount(det)
  {
    Detection(det.scores[j], det.labels[j], det.bboxes[j], det.rots[j], det.poses[j], det.sizes[j])
  }

  /** One more detection at the end; the earlier ones kept. */
  function AppendDet(det: DetInstances, d: Detection): (r: DetInstances)
    requires DetShaped(det)
    ensures DetShaped(r) && DetCount(r) == DetCount(det) + 1
    ensures DetAt(r, DetCount(det)) == d
    ensures forall j :: 0 <= j < DetCount(det) ==> DetAt(r, j) == DetAt(det, j)
  {
    DetInstances(det.scores + [d.score], det.labels + [d.classLabel], det.bboxes + [d.bbox],
                 det.rots + [d.rot], det.poses + [d.pose], det.sizes + [d.size])
  }

  function NumQueries(out: HeadOutputs): nat {
    |out.bboxes|
  }

  /** Streams of one length, box rows of four, score rows of `num_classes`. */
  predicate OutputsShaped(out: HeadOutputs, numClasses: nat) {
    var nq := |out.bboxes|;
    && |out.rots| == |out.trans| == |out.sizes| == nq
    && (forall q :: 0 <= q < nq ==> IsBoxRow(out.bboxes[q]))
    && match out.scores
       case SigmoidScores(probs) =>
         numClasses > 0 && |probs| == nq && forall q :: 0 <= q < nq ==> |probs[q]| == numClasses
       case SoftmaxBest(best, bestLabel) => |best| == |bestLabel| == nq
  }

  /** The top-k positions handed to the decode: flat (query, class) indices, or query indices for softmax. */
  predicate IndexesInRange(out: HeadOutputs, numClasses: nat, indexes: seq<int>)
    requires OutputsShaped(out, numClasses)
  {
    forall j :: 0 <= j < |indexes| ==>
      0 <= indexes[j] < (if out.scores.SigmoidScores? then NumQueries(out) * numClasses else NumQueries(out))
  }

  /**
   * The (query, class) cell a top-k position names: for sigmoid scores the
   * unique q, l with `q * num_classes + l == k` and `0 <= l < num_classes`;
   * for softmax the query k and its best class.
   */
  predicate NamesCell(out: HeadOutputs, numClasses: nat, k: int, q: nat, l: int)
    requires OutputsShaped(out, numClasses)
  {
    if out.scores.SigmoidScores? then q * numClasses + l == k && 0 <= l < numClasses
    else q == k && q < NumQueries(out) && l == out.scores.bestLabel[q]
  }

  /** The score of a cell: the sigmoid probability, or the query's best softmax score. */
  function CellScore(out: HeadOutputs, numClasses: nat, q: nat, l: int): real
    requires OutputsShaped(out, numClasses) && q < NumQueries(out)
    requires out.scores.SigmoidScores? ==> 0 <= l < numClasses
  {
    match out.scores
    case SigmoidScores(probs) => probs[q][l]
    case SoftmaxBest(best, _) => best[q]
  }

  /** A predicted (cx, cy, w, h) row in image pixels: to corners, x by width and y by height, clamped to the image. */
  function ImageBox(b: seq<real>, imgW: real, imgH: real): (r: seq<real>)
    requires IsBoxRow(b) && imgW >= 0.0 && imgH >= 0.0
    ensures IsBoxRow(r)
    ensures 0.0 <= r[0] <= imgW && 0.0 <= r[2] <= imgW && 0.0 <= r[1] <= imgH && 0.0 <= r[3] <= imgH
  {
    var s := Scale(CxcywhToXyxy(b), imgW, imgH);
    [Clamp(s[0], 0.0, imgW), Clamp(s[1], 0.0, imgH), Clamp(s[2], 0.0, imgW), Clamp(s[3], 0.0, imgH)]
  }

  /** A box already inside the image comes out of ImageBox unchanged. */
  lemma ImageBoxInside(b: seq<real>, imgW: real, imgH: real)
    requires IsBoxRow(b) && imgW >= 0.0 && imgH >= 0.0
    requires var s := Scale(CxcywhToXyxy(b), imgW, imgH);
      0.0 <= s[0] <= imgW && 0.0 <= s[2] <= imgW && 0.0 <= s[1] <= imgH && 0.0 <= s[3] <= imgH
    ensures ImageBox(b, imgW, imgH) == Scale(CxcywhToXyxy(b), imgW, imgH)
  {
  }

  /** The output box: the image box, divided by (w, h, w, h) of the scale factor when rescaling. */
  function OutputBox(b: seq<real>, imgW: real, imgH: real, rescale: Rescale): (r: seq<real>)
    requires IsBoxRow(b) && imgW >= 0.0 && imgH >= 0.0 && RescaleOk(rescale)
    ensures IsBoxRow(r)
    ensures rescale.RescaleBy? ==> Scale(r, rescale.w, rescale.h) == ImageBox(b, imgW, imgH)
    ensures rescale.NoRescale? ==> r == ImageBox(b, imgW, imgH)
  {
    var s := ImageBox(b, imgW, imgH);
    if rescale.RescaleBy? then Normalize(s, rescale.w, rescale.h) else s
  }

  /**
   * The detection a query and class make: the cell's score and class, and that
   * query's box (in output pixels), rotation, translation and size rows.
   */
  function CellDetection(out: HeadOutputs, numClasses: nat, q: nat, l: int, imgW: real, imgH: real, rescale: Rescale): Detection
    requires OutputsShaped(out, numClasses) && q < NumQueries(out)
    requires out.scores.SigmoidScores? ==> 0 <= l < numClasses
    requires imgW >= 0.0 && imgH >= 0.0 && RescaleOk(rescale)
  {
    Detection(CellScore(out, numClasses, q, l), l, OutputBox(out.bboxes[q], imgW, imgH, rescale),
              out.rots[q], out.trans[q], out.sizes[q])
  }

  /**
   * The results `_predict_by_feat_single` promises: detection j is the cell
   * that top-k position j names.
   */
  ghost predicate DecodedFrom(det: DetInstances, out: HeadOutputs, numClasses: nat, indexes: seq<int>,
                        imgW: real, imgH: real, rescale: Rescale)
    requires OutputsShaped(out, numClasses) && IndexesInRange(out, numClasses, indexes)
    requires imgW >= 0.0 && imgH >= 0.0 && RescaleOk(rescale)
  {
    && DetShaped(det) && DetCount(det) == |indexes|
    && forall j :: 0 <= j < |indexes| ==> DecodesCell(DetAt(det, j), out, numClasses, indexes[j], imgW, imgH, rescale)
  }

  /** `d` is the detection of the cell that top-k position k names. */
  ghost predicate DecodesCell(d: Detection, out: HeadOutputs, numClasses: nat, k: int, imgW: real, imgH: real, rescale: Rescale)
    requires OutputsShaped(out, numClasses)
    requires imgW >= 0.0 && imgH >= 0.0 && RescaleOk(rescale)
  {
    exists q: nat, l: int ::
      && q < NumQueries(out) && NamesCell(out, numClasses, k, q, l)
      && d == CellDetection(out, numClasses, q, l, imgW, imgH, rescale)
  }

  /** `_predict_by_feat_single` for the chosen top-k indexes. */
  method PredictByFeatSingle(out: HeadOutputs, numClasses: nat, indexes: seq<int>, imgH: real, imgW: real, rescale: Rescale)
    returns (det: DetInstances)
    requires OutputsShaped(out, numClasses) && IndexesInRange(out, numClasses, indexes)
    requires imgW >= 0.0 && imgH >= 0.0 && RescaleOk(rescale)
    ensures DecodedFrom(det, out, numClasses, indexes, imgW, imgH, rescale)
  {
    det := DetInstances([], [], [], [], [], []);
    var j := 0;
    while j < |indexes|
      invariant 0 <= j <= |indexes|
      invariant DetShaped(det) && DetCount(det) == j
      invariant forall i :: 0 <= i < j ==> DecodesCell(DetAt(det, i), out, numClasses, indexes[i], imgW, imgH, rescale)
    {
      var q, detLabel, d := DecodeOne(out, numClasses, indexes[j], imgW, imgH, rescale);
      assert DecodesCell(d, out, numClasses, indexes[j], imgW, imgH, rescale);
      det := AppendDet(det, d);
      j := j + 1;
    }
  }

  /** The detection of one top-k position: its query and label, score and rows. */
  method DecodeOne(out: HeadOutputs, numClasses: nat, k: int, imgW: real, imgH: real, rescale: Rescale)
    returns (q: nat, detLabel: int, d: Detection)
    requires OutputsShaped(out, numClasses)
    requires 0 <= k < (if out.scores.SigmoidScores? then NumQueries(out) * numClasses else NumQueries(out))
    requires imgW >= 0.0 && imgH >= 0.0 && RescaleOk(rescale)
    ensures q < NumQueries(out) && NamesCell(out, numClasses, k, q, detLabel)
    ensures d == CellDetection(out, numClasses, q, detLabel, imgW, imgH, rescale)
  {
    var score: real;
    match out.scores {
      case SigmoidScores(probs) =>
        SigmoidCellUnique(out, numClasses, k, k / numClasses, k % numClasses);
        score := Flatten(probs)[k];
        detLabel := k % numClasses;
        q := k / numClasses;
      case SoftmaxBest(best, bestLabel) =>
        q := k;
        score := best[q];
        detLabel := bestLabel[q];
    }
    assert NamesCell(out, numClasses, k, q, detLabel);
    d := Detection(score, detLabel, OutputBox(out.bboxes[q], imgW, imgH, rescale), out.rots[q], out.trans[q], out.sizes[q]);
  }

  /**
   * A sigmoid top-k position names exactly one cell, query `k // num_classes`
   * and class `k % num_classes`, and its score is the flattened score at k.
   */
  lemma SigmoidCellUnique(out: HeadOutputs, numClasses: nat, k: nat, q: nat, l: int)
    requires OutputsShaped(out, numClasses) && out.scores.SigmoidScores?
    requires k < NumQueries(out) * numClasses
    ensures NamesCell(out, numClasses, k, q, l) <==> q == k / numClasses && l == k % numClasses
    ensures q == k / numClasses && l == k % numClasses ==>
      && q < NumQueries(out) && k < |Flatten(out.scores.probs)|
      && CellScore(out, numClasses, q, l) == Flatten(out.scores.probs)[k]
  {
    var probs, c := out.scores.probs, numClasses;
    FlattenAt(probs, c, k);
    DivModIff(k, c, q, l);
    assert NamesCell(out, c, k, q, l) <==> (q * c + l == k && 0 <= l < c);
    if q == k / c && l == k % c {
      assert CellScore(out, c, q, l) == probs[q][l];
    }
  }

  /**
   * Without rescaling every detected box lies inside the image, x in [0, W]
   * and y in [0, H]; and a decoded detection keeps the rows of the query it names.
   */
  lemma DecodedBoxesInImage(det: DetInstances, out: HeadOutputs, numClasses: nat, indexes: seq<int>, imgW: real, imgH: real)
    requires OutputsShaped(out, numClasses) && IndexesInRange(out, numClasses, indexes)
    requires imgW >= 0.0 && imgH >= 0.0
    requires DecodedFrom(det, out, numClasses, indexes, imgW, imgH, NoRescale)
    ensures forall j :: 0 <= j < |indexes| ==>
      && IsBoxRow(det.bboxes[j])
      && 0.0 <= det.bboxes[j][0] <= imgW && 0.0 <= det.bboxes[j][2] <= imgW
      && 0.0 <= det.bboxes[j][1] <= imgH && 0.0 <= det.bboxes[j][3] <= imgH
  {
    forall j | 0 <= j < |indexes|
      ensures IsBoxRow(det.bboxes[j])
      ensures 0.0 <= det.bboxes[j][0] <= imgW && 0.0 <= det.bboxes[j][2] <= imgW
      ensures 0.0 <= det.bboxes[j][1] <= imgH && 0.0 <= det.bboxes[j][3] <= imgH
    {
      assert DecodesCell(DetAt(det, j), out, numClasses, indexes[j], imgW, imgH, NoRescale);
      var q: nat, l: int :| q < NumQueries(out) && NamesCell(out, numClasses, indexes[j], q, l)
        && DetAt(det, j) == CellDetection(out, numClasses, q, l, imgW, imgH, NoRescale);
      assert det.bboxes[j] == DetAt(det, j).bbox == ImageBox(out.bboxes[q], imgW, imgH);
    }
  }

  /** One image of the batch at inference: the last layer's outputs, the chosen indexes, `img_shape` and `scale_factor`. */
  datatype ImagePrediction = ImagePrediction(out: HeadOutputs, indexes: seq<int>, imgH: real, imgW: real, scaleW: real, scaleH: real)

  function RescaleOf(p: ImagePrediction, rescale: bool): Rescale {
    if rescale then RescaleBy(p.scaleW, p.scaleH) else NoRescale
  }

  predicate PredictionOk(p: ImagePrediction, numClasses: nat, rescale: bool) {
    && OutputsShaped(p.out, numClasses) && IndexesInRange(p.out, numClasses, p.indexes)
    && p.imgW >= 0.0 && p.imgH >= 0.0 && RescaleOk(RescaleOf(p, rescale))
  }

  function LastLayer(layers: seq<seq<ImagePrediction>>): seq<ImagePrediction>
    requires |layers| >= 1
  {
    layers[|layers| - 1]
  }

  ghost predicate ImageDecodedFrom(det: DetInstances, p: ImagePrediction, numClasses: nat, rescale: bool)
    requires PredictionOk(p, numClasses, rescale)
  {
    DecodedFrom(det, p.out, numClasses, p.indexes, p.imgW, p.imgH, RescaleOf(p, rescale))
  }

  /** `predict_by_feat`: only the last decoder layer is decoded, one result per image, in batch order. */
  method PredictByFeat(layers: seq<seq<ImagePrediction>>, numClasses: nat, rescale: bool) returns (resultList: seq<DetInstances>)
    requires |layers| >= 1
    requires forall b :: 0 <= b < |LastLayer(layers)| ==> PredictionOk(LastLayer(layers)[b], numClasses, rescale)
    ensures |resultList| == |LastLayer(layers)|
    ensures forall b :: 0 <= b < |resultList| ==> ImageDecodedFrom(resultList[b], LastLayer(layers)[b], numClasses, rescale)
  {
    var batch := LastLayer(layers);
    resultList := [];
    var imgId := 0;
    while imgId < |batch|
      invariant 0 <= imgId <= |batch| && |resultList| == imgId
      invariant forall b :: 0 <= b < imgId ==> ImageDecodedFrom(resultList[b], batch[b], numClasses, rescale)
    {
      var p := batch[imgId];
      var results := PredictByFeatSingle(p.out, numClasses, p.indexes, p.imgH, p.imgW, RescaleOf(p, rescale));
      resultList := resultList + [results];
      imgId := imgId + 1;
    }
  }
}
