/**
 * The pose-aware annotation loader `LoadAnnotations3D`
 * (mmdet/datasets/transforms/loading_3d.py).
 *
 * `transform` runs the bbox, pose, label, mask and seg-map loaders, each gated
 * by a flag, and every loader walks `results['instances']` in order and writes
 * per-instance arrays into `results`. The `results` dict is a `Results` object
 * whose fields are its keys (`None` while a key is absent). The mask validator
 * rewrites `ignore_flag` of the instances in place.
 *
 * Taken as parameters: scipy's `R.from_matrix(...).as_euler('xyz')` (only its
 * second angle, the yaw, is used) and the decoded semantic map.
 */
module Loading3D {
  import opened Wrappers

  datatype Vec3 = Vec3(x: real, y: real, z: real)

  /** A 2D box in (x1, y1, x2, y2) order. */
  datatype Box = Box(x1: real, y1: real, x2: real, y2: real)

  /** The `counts` value of an RLE dict: a list, a str, or something else. */
  datatype RleCounts = CountsList(values: seq<int>) | CountsString(text: string) | CountsOtherType

  /**
   * An instance's `mask`: a list of polygons, a dict (whose `counts` and `size`
   * may be absent or None), or any other value.
   */
  datatype Mask =
    | Polygons(polygons: seq<seq<real>>)
    | RleDict(counts: Option<RleCounts>, size: Option<seq<int>>)
    | OtherMask

  datatype Instance = Instance(
    bbox: Box,
    bboxLabel: int,
    mask: Mask,
    ignoreFlag: int,
    rot: seq<real>,
    pos: Vec3,
    bbox3dSize: Vec3,
    rotNorm: seq<real>,
    scaleNorm: real)

  /** `gt_masks`: decoded to bitmaps when `poly2mask`, kept as polygons otherwise (decoding is not modelled). */
  datatype MaskSet = BitmapSource(masks: seq<Mask>) | PolygonSet(masks: seq<Mask>)

  /** A semantic segmentation map as decoded from its file. */
  datatype SegMap = SegMap(pixels: seq<seq<int>>)

  /** The exceptions the loader raises on the inputs the model admits. */
  datatype LoadError = NameError(name: string) | TypeError(expr: string)

  /** `np.zeros(6)`, and the single-polygon placeholder mask built from it. */
  const FakePolygon: seq<real> := [0.0, 0.0, 0.0, 0.0, 0.0, 0.0]
  const FakeMask := Polygons([FakePolygon])

  /** `np.array(..., dtype=bool)` on one flag. */
  function AsBool(flag: int): bool {
    flag != 0
  }

  // ---------------------------------------------------------------------------
  // The mask validator

  /** A polygon survives when its coordinate count is even and at least 6 (three points). */
  predicate ValidPolygon(p: seq<real>) {
    |p| % 2 == 0 && |p| >= 6
  }

  /** The list comprehension that filters an instance's polygons. */
  function KeepValidPolygons(ps: seq<seq<real>>): (r: seq<seq<real>>)
    ensures |r| <= |ps|
    ensures forall q :: q in r ==> ValidPolygon(q)
    ensures forall q :: q in r ==> q in ps
  {
    if ps == [] then []
    else (if ValidPolygon(ps[0]) then [ps[0]] else []) + KeepValidPolygons(ps[1..])
  }

  /** Exactly the valid polygons survive. */
  lemma {:induction false} KeepValidPolygonsExactly(ps: seq<seq<real>>, q: seq<real>)
    ensures q in KeepValidPolygons(ps) <==> q in ps && ValidPolygon(q)
  {
    if ps != [] {
      KeepValidPolygonsExactly(ps[1..], q);
      assert ps == [ps[0]] + ps[1..];
    }
  }

  /** The filter keeps input order: filtering a concatenation concatenates the filtered parts. */
  lemma {:induction false} KeepValidPolygonsConcat(a: seq<seq<real>>, b: seq<seq<real>>)
    ensures KeepValidPolygons(a + b) == KeepValidPolygons(a) + KeepValidPolygons(b)
  {
    if a != [] {
      assert (a + b)[0] == a[0] && (a + b)[1..] == a[1..] + b;
      KeepValidPolygonsConcat(a[1..], b);
    } else {
      assert a + b == b;
    }
  }

  /** An RLE dict `BitmapMasks` can decode: `counts` and `size` present, `counts` a list or a str. */
  predicate RleUsable(m: Mask)
    requires m.RleDict?
  {
    m.counts.Some? && m.size.Some? && (m.counts.value.CountsList? || m.counts.value.CountsString?)
  }

  /**
   * The mask `_process_masks` keeps for one instance, and whether it marks the
   * instance ignored, as written: a mask that is neither a list nor a dict is
   * let through unflagged when `poly2mask` is on.
   */
  function ProcessMaskAsWritten(m: Mask, poly2mask: bool): (Mask, bool) {
    match m
    case Polygons(ps) =>
      var kept := KeepValidPolygons(ps);
      if |kept| == 0 then (FakeMask, true) else (Polygons(kept), false)
    case RleDict(_, _) =>
      if !poly2mask || !RleUsable(m) then (FakeMask, true) else (m, false)
    case OtherMask =>
      if !poly2mask then (FakeMask, true) else (m, false)
  }

  /**
   * The validator as intended: every mask `_poly2mask` cannot decode is
   * ignored, so a mask that is neither a list nor a dict is ignored whatever
   * `poly2mask` says.
   */
  function ProcessMask(m: Mask, poly2mask: bool): (Mask, bool) {
    match m
    case Polygons(ps) =>
      var kept := KeepValidPolygons(ps);
      if |kept| == 0 then (FakeMask, true) else (Polygons(kept), false)
    case RleDict(_, _) =>
      if !poly2mask || !RleUsable(m) then (FakeMask, true) else (m, false)
    case OtherMask => (FakeMask, true)
  }

  /**
   * When an instance is marked ignored and what mask it keeps: a polygon list
   * keeps its valid polygons, in order, and is ignored only when none is left;
   * a dict is ignored when `poly2mask` is off or it lacks a usable
   * `counts`/`size`; any other mask is ignored; an ignored instance gets the
   * placeholder.
   */
  lemma ProcessMaskOutcome(m: Mask, poly2mask: bool)
    ensures ProcessMask(m, poly2mask).1 <==>
      || (m.Polygons? && KeepValidPolygons(m.polygons) == [])
      || (m.RleDict? && (!poly2mask || !RleUsable(m)))
      || m.OtherMask?
    ensures ProcessMask(m, poly2mask).1 ==> ProcessMask(m, poly2mask).0 == FakeMask
    ensures !ProcessMask(m, poly2mask).1 && m.Polygons? ==>
      ProcessMask(m, poly2mask).0 == Polygons(KeepValidPolygons(m.polygons))
    ensures !ProcessMask(m, poly2mask).1 && !m.Polygons? ==> ProcessMask(m, poly2mask).0 == m
  {
  }

  /**
   * What the mask loader after the validator can use: without `poly2mask` a
   * non-empty list of valid polygons (what `PolygonMasks` accepts); with it, such
   * a list or a decodable dict (what `_poly2mask` reads). Nothing else is usable:
   * `_poly2mask` subscripts any non-list mask with `'counts'`.
   */
  predicate UsableMask(m: Mask, poly2mask: bool) {
    && (m.Polygons? ==> |m.polygons| > 0 && forall q :: q in m.polygons ==> ValidPolygon(q))
    && (m.RleDict? ==> poly2mask && RleUsable(m))
    && !m.OtherMask?
  }

  lemma ProcessedMaskUsable(m: Mask, poly2mask: bool)
    ensures UsableMask(ProcessMask(m, poly2mask).0, poly2mask)
  {
    assert ValidPolygon(FakePolygon);
  }

  /**
   * The two validators differ only on a mask that is neither a list nor a
   * dict with `poly2mask` on: as written it is kept unflagged although the mask
   * loader cannot use it.
   */
  lemma ProcessMaskAsWrittenDiffers(m: Mask, poly2mask: bool)
    ensures !(m.OtherMask? && poly2mask) ==> ProcessMaskAsWritten(m, poly2mask) == ProcessMask(m, poly2mask)
    ensures m.OtherMask? && poly2mask ==>
      && ProcessMaskAsWritten(m, poly2mask) == (m, false)
      && !UsableMask(ProcessMaskAsWritten(m, poly2mask).0, poly2mask)
      && ProcessMask(m, poly2mask) == (FakeMask, true)
  {
  }

  // ---------------------------------------------------------------------------
  // What each loader writes, stated on values

  predicate BoxesOf(insts: seq<Instance>, boxes: seq<Box>) {
    |boxes| == |insts| && forall i :: 0 <= i < |insts| ==> boxes[i] == insts[i].bbox
  }

  predicate FlagsOf(insts: seq<Instance>, flags: seq<bool>) {
    |flags| == |insts| && forall i :: 0 <= i < |insts| ==> flags[i] == AsBool(insts[i].ignoreFlag)
  }

  predicate LabelsOf(insts: seq<Instance>, labels: seq<int>) {
    |labels| == |insts| && forall i :: 0 <= i < |insts| ==> labels[i] == insts[i].bboxLabel
  }

  /**
   * Every rotation and normalised rotation has nine entries, so that
   * `reshape(3, 3)`, the Euler extraction and `reshape(-1, 9)` accept them and
   * keep one row per instance.
   */
  predicate PoseReadable(insts: seq<Instance>) {
    forall i :: 0 <= i < |insts| ==> |insts[i].rot| == 9 && |insts[i].rotNorm| == 9
  }

  /** The 9-value 3D box of one instance: centre, scaled extent, yaw and two zero angles. */
  function Box3d(inst: Instance, yaw: real): (r: seq<real>)
    ensures |r| == 9
  {
    var s := inst.scaleNorm;
    [inst.pos.x, inst.pos.y, inst.pos.z,
     inst.bbox3dSize.x * s, inst.bbox3dSize.y * s, inst.bbox3dSize.z * s,
     yaw, 0.0, 0.0]
  }

  predicate Boxes3dOf(insts: seq<Instance>, yawOf: seq<real> -> real, rows: seq<seq<real>>) {
    |rows| == |insts| && forall i :: 0 <= i < |insts| ==> rows[i] == Box3d(insts[i], yawOf(insts[i].rot))
  }

  /**
   * `poses[:, 2]`: the depth of every position. The ensures only names each
   * entry, so that PoseArraysLoaded can be proved without unfolding the body.
   */
  function DepthColumn(poses: seq<Vec3>): (r: seq<real>)
    ensures |r| == |poses| && forall k :: 0 <= k < |poses| ==> r[k] == poses[k].z
  {
    seq(|poses|, k requires 0 <= k < |poses| => poses[k].z)
  }

  /**
   * `poses[:, :2]`: the (x, y) centre of every position. The ensures only names
   * each entry, so that PoseArraysLoaded can be proved without unfolding the body.
   */
  function CenterColumns(poses: seq<Vec3>): (r: seq<(real, real)>)
    ensures |r| == |poses| && forall k :: 0 <= k < |poses| ==> r[k] == (poses[k].x, poses[k].y)
  {
    seq(|poses|, k requires 0 <= k < |poses| => (poses[k].x, poses[k].y))
  }

  /** The validator `_process_masks` applies: as written, or as intended. */
  function CheckMask(m: Mask, poly2mask: bool, asWritten: bool): (Mask, bool) {
    if asWritten then ProcessMaskAsWritten(m, poly2mask) else ProcessMask(m, poly2mask)
  }

  /** The instances `_process_masks` leaves behind: flagged where the validator ignores the mask. */
  predicate FlagsProcessed(before: seq<Instance>, after: seq<Instance>, poly2mask: bool, asWritten: bool) {
    && |after| == |before|
    && forall i :: 0 <= i < |before| ==>
         after[i] == (if CheckMask(before[i].mask, poly2mask, asWritten).1 then before[i].(ignoreFlag := 1) else before[i])
  }

  /** The masks and the rewritten instances `_process_masks` leaves behind. */
  predicate MasksProcessed(before: seq<Instance>, after: seq<Instance>, masks: seq<Mask>, poly2mask: bool, asWritten: bool) {
    && FlagsProcessed(before, after, poly2mask, asWritten)
    && |masks| == |before|
    && forall i :: 0 <= i < |before| ==> masks[i] == CheckMask(before[i].mask, poly2mask, asWritten).0
  }

  /**
   * `_poly2mask` subscripts every mask that is not a list with `'counts'`
   * (line 232): with `poly2mask` on, a mask that is neither a list nor a dict
   * makes the mask loader raise TypeError.
   */
  predicate HasOtherMask(insts: seq<Instance>) {
    exists i :: 0 <= i < |insts| && insts[i].mask.OtherMask?
  }

  /**
   * Unless `poly2mask` is on and some mask is neither a list nor a dict, the
   * validator as written and as intended process the instances alike, so the
   * corrected mask loader is then the code as written.
   */
  lemma MasksProcessedAsWrittenAgrees(before: seq<Instance>, after: seq<Instance>, masks: seq<Mask>, poly2mask: bool)
    requires !poly2mask || !HasOtherMask(before)
    ensures MasksProcessed(before, after, masks, poly2mask, true) <==> MasksProcessed(before, after, masks, poly2mask, false)
  {
    forall i | 0 <= i < |before|
      ensures CheckMask(before[i].mask, poly2mask, true) == CheckMask(before[i].mask, poly2mask, false)
    {
      ProcessMaskAsWrittenDiffers(before[i].mask, poly2mask);
    }
  }

  /** `_process_masks` only ever sets a flag: an ignored instance stays ignored. */
  lemma MasksProcessedNeverClears(before: seq<Instance>, after: seq<Instance>, masks: seq<Mask>, poly2mask: bool, asWritten: bool, i: nat)
    requires MasksProcessed(before, after, masks, poly2mask, asWritten)
    requires i < |before|
    ensures AsBool(before[i].ignoreFlag) ==> AsBool(after[i].ignoreFlag)
    ensures after[i].ignoreFlag == before[i].ignoreFlag || after[i].ignoreFlag == 1
    ensures after[i].(ignoreFlag := before[i].ignoreFlag) == before[i]
  {
  }

  // ---------------------------------------------------------------------------
  // The `results` dict

  class Results {
    var instances: seq<Instance>
    var gtBboxes: Option<seq<Box>>
    var gtIgnoreFlags: Option<seq<bool>>
    var gtPoseRots: Option<seq<seq<real>>>
    var gtPosePoses: Option<seq<Vec3>>
    var gtPoseSizes: Option<seq<Vec3>>
    var gtPoseRotsNorm: Option<seq<seq<real>>>
    var gtPoseScalesNorm: Option<seq<real>>
    var depths: Option<seq<real>>
    var centers2d: Option<seq<(real, real)>>
    var gtBboxes3d: Option<seq<seq<real>>>
    var gtBboxesLabels: Option<seq<int>>
    var gtLabels3d: Option<seq<int>>
    var attrLabels: Option<seq<int>>
    var gtMasks: Option<MaskSet>
    var gtSegMap: Option<SegMap>

    /** A dict holding only `instances` (an absent `instances` key reads as the empty list). */
    constructor (instances: seq<Instance>)
      ensures this.instances == instances
      ensures gtBboxes.None? && gtIgnoreFlags.None? && gtPoseRots.None? && gtPosePoses.None?
      ensures gtPoseSizes.None? && gtPoseRotsNorm.None? && gtPoseScalesNorm.None?
      ensures depths.None? && centers2d.None? && gtBboxes3d.None?
      ensures gtBboxesLabels.None? && gtLabels3d.None? && attrLabels.None?
      ensures gtMasks.None? && gtSegMap.None?
    {
      this.instances := instances;
      gtBboxes, gtIgnoreFlags, gtPoseRots, gtPosePoses := None, None, None, None;
      gtPoseSizes, gtPoseRotsNorm, gtPoseScalesNorm := None, None, None;
      depths, centers2d, gtBboxes3d := None, None, None;
      gtBboxesLabels, gtLabels3d, attrLabels := None, None, None;
      gtMasks, gtSegMap := None, None;
    }
  }

  // ---------------------------------------------------------------------------
  // The transform

  class LoadAnnotations3D {
    const withBbox: bool
    const withLabel: bool
    const withMask: bool
    const withSeg: bool
    const withPose: bool
    const poly2mask: bool

    /** The repository's defaults are withBbox, withLabel and poly2mask on, the rest off. */
    constructor (withBbox: bool, withLabel: bool, withMask: bool, withSeg: bool, withPose: bool, poly2mask: bool)
      ensures this.withBbox == withBbox && this.withLabel == withLabel && this.withMask == withMask
      ensures this.withSeg == withSeg && this.withPose == withPose && this.poly2mask == poly2mask
    {
      this.withBbox, this.withLabel, this.withMask := withBbox, withLabel, withMask;
      this.withSeg, this.withPose, this.poly2mask := withSeg, withPose, poly2mask;
    }

    /** `_load_bboxes`: one box row and one ignore flag per instance, in instance order. */
    method LoadBboxes(results: Results)
      modifies results`gtBboxes, results`gtIgnoreFlags
      ensures results.gtBboxes.Some? && BoxesOf(results.instances, results.gtBboxes.value)
      ensures results.gtIgnoreFlags.Some? && FlagsOf(results.instances, results.gtIgnoreFlags.value)
    {
      var gtBboxes: seq<Box> := [];
      var gtIgnoreFlags: seq<bool> := [];
      var i := 0;
      while i < |results.instances|
        invariant 0 <= i <= |results.instances|
        invariant BoxesOf(results.instances[..i], gtBboxes)
        invariant FlagsOf(results.instances[..i], gtIgnoreFlags)
      {
        var instance := results.instances[i];
        gtBboxes := gtBboxes + [instance.bbox];
        gtIgnoreFlags := gtIgnoreFlags + [AsBool(instance.ignoreFlag)];
        i := i + 1;
      }
      assert results.instances[..i] == results.instances;
      results.gtBboxes := Some(gtBboxes);
      results.gtIgnoreFlags := Some(gtIgnoreFlags);
    }

    /**
     * Lines 162-188 of `_load_pose`: the per-instance pose arrays, depth
     * (`pos[2]`), 2D centre (`pos[0], pos[1]`) and ignore flags, written into
     * `results`; returns the 9-value 3D box rows.
     */
    method LoadPoseArrays(results: Results, yawOf: seq<real> -> real) returns (rows: seq<seq<real>>)
      requires PoseReadable(results.instances)
      modifies results`gtPoseRots, results`gtPosePoses, results`gtPoseSizes, results`gtIgnoreFlags
      modifies results`gtPoseRotsNorm, results`gtPoseScalesNorm, results`depths, results`centers2d
      ensures PoseArraysLoaded(results, results.instances)
      ensures results.gtIgnoreFlags.Some? && FlagsOf(results.instances, results.gtIgnoreFlags.value)
      ensures Boxes3dOf(results.instances, yawOf, rows)
    {
      var insts := results.instances;
      var rots: seq<seq<real>> := [];
      var poses: seq<Vec3> := [];
      var sizes: seq<Vec3> := [];
      var flags: seq<bool> := [];
      var rotsNorm: seq<seq<real>> := [];
      var scalesNorm: seq<real> := [];
      rows := [];
      var i := 0;
      while i < |insts|
        invariant 0 <= i <= |insts|
        invariant |rots| == |poses| == |sizes| == |rotsNorm| == |scalesNorm| == i
        invariant forall k :: 0 <= k < i ==>
          && rots[k] == insts[k].rot && poses[k] == insts[k].pos && sizes[k] == insts[k].bbox3dSize
          && rotsNorm[k] == insts[k].rotNorm && scalesNorm[k] == insts[k].scaleNorm
        invariant FlagsOf(insts[..i], flags)
        invariant Boxes3dOf(insts[..i], yawOf, rows)
      {
        var instance := insts[i];
        rots := rots + [instance.rot];
        poses := poses + [instance.pos];
        sizes := sizes + [instance.bbox3dSize];
        flags := flags + [AsBool(instance.ignoreFlag)];
        rotsNorm := rotsNorm + [instance.rotNorm];
        scalesNorm := scalesNorm + [instance.scaleNorm];
        var yaw := yawOf(instance.rot);
        rows := rows + [Box3d(instance, yaw)];
        i := i + 1;
      }
      assert insts[..i] == insts;
      results.gtPoseRots := Some(rots);
      results.gtPosePoses := Some(poses);
      results.gtPoseSizes := Some(sizes);
      results.gtIgnoreFlags := Some(flags);
      results.gtPoseRotsNorm := Some(rotsNorm);
      results.gtPoseScalesNorm := Some(scalesNorm);
      results.depths := Some(DepthColumn(poses));
      results.centers2d := Some(CenterColumns(poses));
    }

    /**
     * `_load_pose` as written: after the arrays are stored it names
     * `CameraInstance3DBoxes`, whose import is commented out, so it raises
     * NameError and `gt_bboxes_3d` is never written.
     */
    method LoadPoseAsWritten(results: Results, yawOf: seq<real> -> real) returns (err: Option<LoadError>)
      requires PoseReadable(results.instances)
      modifies results`gtPoseRots, results`gtPosePoses, results`gtPoseSizes, results`gtIgnoreFlags
      modifies results`gtPoseRotsNorm, results`gtPoseScalesNorm, results`depths, results`centers2d
      ensures PoseArraysLoaded(results, results.instances)
      ensures results.gtIgnoreFlags.Some? && FlagsOf(results.instances, results.gtIgnoreFlags.value)
      ensures err == Some(NameError("CameraInstance3DBoxes"))
    {
      var rows := LoadPoseArrays(results, yawOf);
      err := Some(NameError("CameraInstance3DBoxes"));
    }

    /** `_load_pose` as intended: the arrays, and `gt_bboxes_3d` holding one 9-value row per instance. */
    method LoadPose(results: Results, yawOf: seq<real> -> real)
      requires PoseReadable(results.instances)
      modifies results`gtPoseRots, results`gtPosePoses, results`gtPoseSizes, results`gtIgnoreFlags
      modifies results`gtPoseRotsNorm, results`gtPoseScalesNorm, results`depths, results`centers2d
      modifies results`gtBboxes3d
      ensures PoseArraysLoaded(results, results.instances)
      ensures results.gtIgnoreFlags.Some? && FlagsOf(results.instances, results.gtIgnoreFlags.value)
      ensures results.gtBboxes3d.Some? && Boxes3dOf(results.instances, yawOf, results.gtBboxes3d.value)
    {
      var rows := LoadPoseArrays(results, yawOf);
      results.gtBboxes3d := Some(rows);
    }

    /** `_load_labels`: the three label arrays all equal the per-instance `bbox_label`s. */
    method LoadLabels(results: Results)
      modifies results`gtBboxesLabels, results`gtLabels3d, results`attrLabels
      ensures results.gtBboxesLabels.Some? && LabelsOf(results.instances, results.gtBboxesLabels.value)
      ensures results.gtLabels3d == results.gtBboxesLabels && results.attrLabels == results.gtBboxesLabels
    {
      var labels: seq<int> := [];
      var i := 0;
      while i < |results.instances|
        invariant 0 <= i <= |results.instances|
        invariant LabelsOf(results.instances[..i], labels)
      {
        labels := labels + [results.instances[i].bboxLabel];
        i := i + 1;
      }
      assert results.instances[..i] == results.instances;
      results.gtBboxesLabels := Some(labels);
      results.gtLabels3d := Some(labels);
      results.attrLabels := Some(labels);
    }

    /**
     * `_process_masks`, with the validator as written or as intended: one mask
     * per instance in input order, the instances' `ignore_flag` set to 1 where
     * the validator ignores the mask, and `gt_ignore_flags` rebuilt from the
     * updated instances.
     */
    method ProcessMasks(results: Results, asWritten: bool) returns (gtMasks: seq<Mask>)
      modifies results`instances, results`gtIgnoreFlags
      ensures MasksProcessed(old(results.instances), results.instances, gtMasks, poly2mask, asWritten)
      ensures results.gtIgnoreFlags.Some? && FlagsOf(results.instances, results.gtIgnoreFlags.value)
    {
      gtMasks := [];
      var gtIgnoreFlags: seq<bool> := [];
      var i := 0;
      while i < |results.instances|
        invariant 0 <= i <= |results.instances|
        invariant |results.instances| == |old(results.instances)|
        invariant MasksProcessed(old(results.instances)[..i], results.instances[..i], gtMasks, poly2mask, asWritten)
        invariant results.instances[i..] == old(results.instances)[i..]
        invariant FlagsOf(results.instances[..i], gtIgnoreFlags)
      {
        var instance := results.instances[i];
        assert instance == old(results.instances)[i];
        var (gtMask, ignore) := CheckMask(instance.mask, poly2mask, asWritten);
        if ignore {
          results.instances := results.instances[i := instance.(ignoreFlag := 1)];
        }
        gtMasks := gtMasks + [gtMask];
        gtIgnoreFlags := gtIgnoreFlags + [AsBool(results.instances[i].ignoreFlag)];
        i := i + 1;
        assert results.instances[..i] == results.instances[..i - 1] + [results.instances[i - 1]];
        assert old(results.instances)[..i] == old(results.instances)[..i - 1] + [old(results.instances)[i - 1]];
      }
      assert results.instances[..i] == results.instances;
      assert old(results.instances)[..i] == old(results.instances);
      results.gtIgnoreFlags := Some(gtIgnoreFlags);
    }

    /** `_load_masks` with the corrected validator: the validated masks become `gt_masks` (bitmap decoding itself is not modelled). */
    method LoadMasks(results: Results)
      modifies results`instances, results`gtIgnoreFlags, results`gtMasks
      ensures results.gtMasks.Some?
      ensures results.gtMasks.value.BitmapSource? == poly2mask
      ensures MasksProcessed(old(results.instances), results.instances, results.gtMasks.value.masks, poly2mask, false)
      ensures results.gtIgnoreFlags.Some? && FlagsOf(results.instances, results.gtIgnoreFlags.value)
    {
      var gtMasks := ProcessMasks(results, false);
      if poly2mask {
        results.gtMasks := Some(BitmapSource(gtMasks));
      } else {
        results.gtMasks := Some(PolygonSet(gtMasks));
      }
    }

    /**
     * What `transform` leaves in `results`, against the dict it was given:
     * each loader's keys are written when its flag is on and left as they were
     * when it is off. The mask loader, if it runs, has the last word on
     * `gt_ignore_flags`; otherwise the bbox and pose loaders both write the
     * instances' own flags.
     */
    twostate predicate Transformed(results: Results, yawOf: seq<real> -> real, segMap: SegMap)
      reads results
    {
      var insts := old(results.instances);
      && (withBbox ==> results.gtBboxes.Some? && BoxesOf(insts, results.gtBboxes.value))
      && (!withBbox ==> results.gtBboxes == old(results.gtBboxes))
      && (withPose ==>
            && PoseArraysLoaded(results, insts)
            && results.gtBboxes3d.Some? && Boxes3dOf(insts, yawOf, results.gtBboxes3d.value))
      && (!withPose ==>
            && results.gtPoseRots == old(results.gtPoseRots) && results.gtPosePoses == old(results.gtPosePoses)
            && results.gtPoseSizes == old(results.gtPoseSizes) && results.gtPoseRotsNorm == old(results.gtPoseRotsNorm)
            && results.gtPoseScalesNorm == old(results.gtPoseScalesNorm)
            && results.depths == old(results.depths) && results.centers2d == old(results.centers2d)
            && results.gtBboxes3d == old(results.gtBboxes3d))
      && (withLabel ==>
            && results.gtBboxesLabels.Some? && LabelsOf(insts, results.gtBboxesLabels.value)
            && results.gtLabels3d == results.gtBboxesLabels && results.attrLabels == results.gtBboxesLabels)
      && (!withLabel ==>
            && results.gtBboxesLabels == old(results.gtBboxesLabels)
            && results.gtLabels3d == old(results.gtLabels3d) && results.attrLabels == old(results.attrLabels))
      && (withMask ==>
            && results.gtMasks.Some? && results.gtMasks.value.BitmapSource? == poly2mask
            && MasksProcessed(insts, results.instances, results.gtMasks.value.masks, poly2mask, false))
      && (!withMask ==> results.instances == insts && results.gtMasks == old(results.gtMasks))
      && (withMask || withBbox || withPose ==>
            results.gtIgnoreFlags.Some? && FlagsOf(results.instances, results.gtIgnoreFlags.value))
      && (!withMask && !withBbox && !withPose ==> results.gtIgnoreFlags == old(results.gtIgnoreFlags))
      && (withSeg ==> results.gtSegMap == Some(segMap))
      && (!withSeg ==> results.gtSegMap == old(results.gtSegMap))
    }

    /**
     * `transform` with the pose loader as intended (`LoadPose`): bbox, pose,
     * label, mask and seg-map loaders in that order, each when its flag is on.
     */
    method Transform(results: Results, yawOf: seq<real> -> real, segMap: SegMap)
      requires withPose ==> PoseReadable(results.instances)
      modifies results
      ensures Transformed(results, yawOf, segMap)
    {
      if withBbox {
        LoadBboxes(results);
      }
      if withPose {
        LoadPose(results, yawOf);
      }
      if withLabel {
        LoadLabels(results);
      }
      if withMask {
        LoadMasks(results);
      }
      if withSeg {
        results.gtSegMap := Some(segMap);
      }
    }

    /**
     * `transform` as written. With `with_pose` on, the pose loader raises
     * NameError after writing its arrays, so the label, mask and seg-map
     * loaders never run and `gt_bboxes_3d` is never written. With it off, the
     * mask loader validates with `ProcessMaskAsWritten`; when `poly2mask` is on
     * and some mask is neither a list nor a dict, `_poly2mask` raises TypeError
     * on it after `gt_ignore_flags` is rebuilt, so `gt_masks` and the seg map
     * are never written. Otherwise the two validators agree
     * (`MasksProcessedAsWrittenAgrees`) and the result is that of `Transform`.
     */
    method TransformAsWritten(results: Results, yawOf: seq<real> -> real, segMap: SegMap)
      returns (err: Option<LoadError>)
      requires withPose ==> PoseReadable(results.instances)
      modifies results
      ensures !withPose && !(withMask && poly2mask && HasOtherMask(old(results.instances))) ==>
        err.None? && Transformed(results, yawOf, segMap)
      ensures !withPose && withMask && poly2mask && HasOtherMask(old(results.instances)) ==>
        && err == Some(TypeError("mask_ann['counts']"))
        && (withBbox ==> results.gtBboxes.Some? && BoxesOf(old(results.instances), results.gtBboxes.value))
        && (!withBbox ==> results.gtBboxes == old(results.gtBboxes))
        && results.gtPoseRots == old(results.gtPoseRots) && results.gtPosePoses == old(results.gtPosePoses)
        && results.gtPoseSizes == old(results.gtPoseSizes) && results.gtPoseRotsNorm == old(results.gtPoseRotsNorm)
        && results.gtPoseScalesNorm == old(results.gtPoseScalesNorm)
        && results.depths == old(results.depths) && results.centers2d == old(results.centers2d)
        && results.gtBboxes3d == old(results.gtBboxes3d)
        && (withLabel ==>
              && results.gtBboxesLabels.Some? && LabelsOf(old(results.instances), results.gtBboxesLabels.value)
              && results.gtLabels3d == results.gtBboxesLabels && results.attrLabels == results.gtBboxesLabels)
        && (!withLabel ==>
              && results.gtBboxesLabels == old(results.gtBboxesLabels)
              && results.gtLabels3d == old(results.gtLabels3d) && results.attrLabels == old(results.attrLabels))
        && FlagsProcessed(old(results.instances), results.instances, poly2mask, true)
        && results.gtIgnoreFlags.Some? && FlagsOf(results.instances, results.gtIgnoreFlags.value)
        && results.gtMasks == old(results.gtMasks) && results.gtSegMap == old(results.gtSegMap)
      ensures withPose ==>
        && err == Some(NameError("CameraInstance3DBoxes"))
        && (withBbox ==> results.gtBboxes.Some? && BoxesOf(old(results.instances), results.gtBboxes.value))
        && (!withBbox ==> results.gtBboxes == old(results.gtBboxes))
        && PoseArraysLoaded(results, old(results.instances))
        && results.gtIgnoreFlags.Some? && FlagsOf(old(results.instances), results.gtIgnoreFlags.value)
        && results.gtBboxes3d == old(results.gtBboxes3d)
        && results.gtBboxesLabels == old(results.gtBboxesLabels)
        && results.gtLabels3d == old(results.gtLabels3d) && results.attrLabels == old(results.attrLabels)
        && results.instances == old(results.instances) && results.gtMasks == old(results.gtMasks)
        && results.gtSegMap == old(results.gtSegMap)
    {
      if withPose {
        if withBbox {
          LoadBboxes(results);
        }
        err := LoadPoseAsWritten(results, yawOf);
      } else if withMask && poly2mask && HasOtherMask(results.instances) {
        if withBbox {
          LoadBboxes(results);
        }
        if withLabel {
          LoadLabels(results);
        }
        var gtMasks := ProcessMasks(results, true);
        err := Some(TypeError("mask_ann['counts']"));
      } else {
        Transform(results, yawOf, segMap);
        err := None;
      }
    }
  }

  /**
   * What lines 181-183 and 185-188 of `_load_pose` leave in `results` for the
   * given instances: the pose arrays, depth (`pos[2]`) and 2D centre
   * (`pos[0], pos[1]`), one entry per instance, in order.
   */
  ghost predicate PoseArraysLoaded(results: Results, insts: seq<Instance>)
    reads results`gtPoseRots, results`gtPosePoses, results`gtPoseSizes, results`gtPoseRotsNorm
    reads results`gtPoseScalesNorm, results`depths, results`centers2d
  {
    && results.gtPoseRots.Some? && results.gtPosePoses.Some? && results.gtPoseSizes.Some?
    && results.gtPoseRotsNorm.Some? && results.gtPoseScalesNorm.Some?
    && results.depths.Some? && results.centers2d.Some?
    && |results.gtPoseRots.value| == |results.gtPosePoses.value| == |results.gtPoseSizes.value| == |insts|
    && |results.gtPoseRotsNorm.value| == |results.gtPoseScalesNorm.value| == |insts|
    && |results.depths.value| == |results.centers2d.value| == |insts|
    && forall i :: 0 <= i < |insts| ==>
         && results.gtPoseRots.value[i] == insts[i].rot
         && results.gtPosePoses.value[i] == insts[i].pos
         && results.gtPoseSizes.value[i] == insts[i].bbox3dSize
         && results.gtPoseRotsNorm.value[i] == insts[i].rotNorm
         && results.gtPoseScalesNorm.value[i] == insts[i].scaleNorm
         && results.depths.value[i] == insts[i].pos.z
         && results.centers2d.value[i] == (insts[i].pos.x, insts[i].pos.y)
  }
}
