/**
 * The offline NOCS-to-COCO annotation converter (annotations/nocs/nocs2coco_camera_real.py).
 *
 * The script walks the synthetic "camera" image list, then the "real" image list,
 * reads one pickled label payload per image, and appends image records and
 * instance annotations to two output lists, handing out dense ids from two
 * counters that run on across both lists. Here the payloads are an input
 * sequence (one entry per image prefix, `Missing` when the label file does not
 * exist) and the output lists are the fields of a `Converter` object.
 */
module NocsToCoco {
  import opened Wrappers

  datatype Domain = Camera | Real

  datatype Intrinsics = Intrinsics(fx: real, fy: real, cx: real, cy: real)

  const CameraIntrinsics := Intrinsics(577.5, 577.5, 319.5, 239.5)
  const RealIntrinsics := Intrinsics(591.0125, 590.16775, 322.525, 244.11084)
  const ImageWidth: nat := 640
  const ImageHeight: nat := 480
  /** Category id (after the background shift) whose camera-set poses are not trusted: mug. */
  const MugCategory := 5

  function IntrinsicsOf(d: Domain): Intrinsics {
    match d
    case Camera => CameraIntrinsics
    case Real => RealIntrinsics
  }

  datatype Vec3 = Vec3(x: real, y: real, z: real)

  /** A 2-corner box as stored in the label payload: [y1, x1, y2, x2]. */
  datatype CornerBox = CornerBox(y1: real, x1: real, y2: real, x2: real)

  /** A COCO box: [x, y, w, h]. */
  datatype XywhBox = XywhBox(x: real, y: real, w: real, h: real)

  /**
   * A label payload. `size`, `poses` and `handle_visibility` may be absent
   * from the pickle; rotations are 3x3 and poses 4x4, both flattened row-major.
   */
  datatype LabelPayload = LabelPayload(
    classIds: seq<int>,
    bboxes: seq<CornerBox>,
    scales: seq<real>,
    size: Option<seq<Vec3>>,
    rotations: seq<seq<real>>,
    translations: seq<Vec3>,
    poses: Option<seq<seq<real>>>,
    handleVisibility: Option<seq<int>>)

  datatype LabelFile = Missing | Present(payload: LabelPayload)

  /** One line of the image list: the absolute prefix and what its `_label.pkl` holds. */
  datatype ImageEntry = ImageEntry(prefix: string, labelFile: LabelFile)

  datatype Annotation = Annotation(
    id: nat,
    imageId: nat,
    position: Vec3,
    rotation: seq<real>,
    rotationNorm: seq<real>,
    scaleNorm: real,
    bbox: XywhBox,
    bbox3dSize: Vec3,
    area: int,
    iscrowd: int,
    handleVisibility: int,
    categoryId: int)

  datatype ImageRecord = ImageRecord(
    fileName: string,
    id: nat,
    width: nat,
    height: nat,
    intrinsics: Intrinsics,
    domain: Domain)

  /** Everything the script accumulates: both output lists and both id counters. */
  datatype ConvState = ConvState(
    images: seq<ImageRecord>,
    annotations: seq<Annotation>,
    imageId: nat,
    annotationId: nat)

  const Initial := ConvState([], [], 0, 0)

  // ---------------------------------------------------------------------------
  // Per-instance conversion

  /** [y1, x1, y2, x2] to [x1, y1, x2 - x1, y2 - y1]. */
  function ToXywh(b: CornerBox): (r: XywhBox)
    ensures ToCorners(r) == b
  {
    XywhBox(b.x1, b.y1, b.x2 - b.x1, b.y2 - b.y1)
  }

  /** The inverse of ToXywh. */
  function ToCorners(r: XywhBox): CornerBox {
    CornerBox(r.y, r.x, r.y + r.h, r.x + r.w)
  }

  lemma XywhRoundTrip(r: XywhBox)
    ensures ToXywh(ToCorners(r)) == r
  {
  }

  /** Python's `int(x)` on a float: truncation toward zero. */
  function TruncateTowardZero(x: real): (n: int)
    ensures 0.0 <= x ==> n as real <= x < n as real + 1.0
    ensures x < 0.0 ==> n as real - 1.0 < x <= n as real
  {
    if 0.0 <= x then x.Floor else -((-x).Floor)
  }

  /** `size[i] * scales[i]`. */
  function ScaledSize(s: Vec3, k: real): Vec3 {
    Vec3(s.x * k, s.y * k, s.z * k)
  }

  /** `0 in bbox_size`. */
  predicate HasZero(v: Vec3) {
    v.x == 0.0 || v.y == 0.0 || v.z == 0.0
  }

  /** Instance i of a payload that has `size` is dropped when its scaled size has a zero component. */
  predicate Dropped(p: LabelPayload, i: nat)
    requires p.size.Some? && i < |p.size.value| && i < |p.scales|
  {
    HasZero(ScaledSize(p.size.value[i], p.scales[i]))
  }

  /** Whether the position is read from the 4x4 pose matrix rather than from `translations`. */
  predicate PositionFromPose(d: Domain, p: LabelPayload, i: nat)
    requires i < |p.classIds|
  {
    p.poses.Some? && (d == Real || p.classIds[i] - 1 != MugCategory)
  }

  /**
   * Instance i can be converted without an IndexError: the arrays read before
   * the zero-size test cover it, and, when it is kept, so do the ones read after.
   */
  predicate InstanceReadable(d: Domain, p: LabelPayload, i: nat)
    requires p.size.Some? && i < |p.classIds|
  {
    && i < |p.bboxes| && i < |p.scales| && i < |p.size.value|
    && (p.handleVisibility.Some? ==> i < |p.handleVisibility.value|)
    && (!Dropped(p, i) ==>
          && i < |p.rotations| && |p.rotations[i]| == 9
          && (PositionFromPose(d, p, i) ==> i < |p.poses.value| && |p.poses.value[i]| == 16)
          && (!PositionFromPose(d, p, i) ==> i < |p.translations|))
  }

  /** A payload the script reads to the end without an IndexError. */
  predicate PayloadReadable(d: Domain, p: LabelPayload) {
    p.size.Some? ==> forall i :: 0 <= i < |p.classIds| ==> InstanceReadable(d, p, i)
  }

  predicate EntryReadable(d: Domain, e: ImageEntry) {
    e.labelFile.Present? ==> PayloadReadable(d, e.labelFile.payload)
  }

  /** `pose_RT[:3, 3]` of a row-major 4x4 matrix. */
  function PoseTranslation(m: seq<real>): Vec3
    requires |m| == 16
  {
    Vec3(m[3], m[7], m[11])
  }

  /** The `relative_pose.position` of instance i. */
  function PositionOf(d: Domain, p: LabelPayload, i: nat): Vec3
    requires p.size.Some? && i < |p.classIds| && InstanceReadable(d, p, i) && !Dropped(p, i)
  {
    if PositionFromPose(d, p, i) then PoseTranslation(p.poses.value[i]) else p.translations[i]
  }

  /** The annotation instance i yields with the given ids, or None when it is dropped. */
  function ConvertInstance(d: Domain, p: LabelPayload, i: nat, imageId: nat, annotationId: nat): Option<Annotation>
    requires p.size.Some? && i < |p.classIds| && InstanceReadable(d, p, i)
  {
    if Dropped(p, i) then None
    else
      var bbox := ToXywh(p.bboxes[i]);
      var handleVisibility := if p.handleVisibility.Some? then p.handleVisibility.value[i] else 1;
      Some(Annotation(
        annotationId, imageId, PositionOf(d, p, i), p.rotations[i], p.rotations[i], p.scales[i],
        bbox, ScaledSize(p.size.value[i], p.scales[i]), TruncateTowardZero(bbox.w * bbox.h),
        0, handleVisibility, p.classIds[i] - 1))
  }

  /**
   * The annotation instance i yields, stated field by field: the box is the
   * corner box as [x, y, w, h], the area truncates w*h toward zero, the category
   * loses the background slot, the relative rotation is the raw rotation (the one
   * read from the pose matrix is never written), crowd is 0 and handle visibility
   * defaults to 1.
   */
  lemma ConvertInstanceFields(d: Domain, p: LabelPayload, i: nat, imageId: nat, annotationId: nat)
    requires p.size.Some? && i < |p.classIds| && InstanceReadable(d, p, i)
    ensures ConvertInstance(d, p, i, imageId, annotationId).None? <==> Dropped(p, i)
    ensures ConvertInstance(d, p, i, imageId, annotationId).Some? ==>
      var a := ConvertInstance(d, p, i, imageId, annotationId).value;
      && a.id == annotationId && a.imageId == imageId
      && a.categoryId == p.classIds[i] - 1
      && ToCorners(a.bbox) == p.bboxes[i]
      && a.bbox.w == p.bboxes[i].x2 - p.bboxes[i].x1 && a.bbox.h == p.bboxes[i].y2 - p.bboxes[i].y1
      && a.area == TruncateTowardZero(a.bbox.w * a.bbox.h)
      && a.rotation == a.rotationNorm == p.rotations[i]
      && a.scaleNorm == p.scales[i]
      && a.bbox3dSize == ScaledSize(p.size.value[i], p.scales[i]) && !HasZero(a.bbox3dSize)
      && a.iscrowd == 0
      && a.handleVisibility == (if p.handleVisibility.Some? then p.handleVisibility.value[i] else 1)
      && (p.poses.Some? && (d == Real || a.categoryId != MugCategory) ==> a.position == PoseTranslation(p.poses.value[i]))
      && (p.poses.None? || (d == Camera && a.categoryId == MugCategory) ==> a.position == p.translations[i])
  {
  }

  // ---------------------------------------------------------------------------
  // Per-image conversion

  /** The annotations emitted for the first n instances of a payload, ids counting up from annotationId. */
  function ImageAnns(d: Domain, p: LabelPayload, n: nat, imageId: nat, annotationId: nat): seq<Annotation>
    requires p.size.Some? && n <= |p.classIds|
    requires forall i :: 0 <= i < n ==> InstanceReadable(d, p, i)
  {
    if n == 0 then []
    else
      var prev := ImageAnns(d, p, n - 1, imageId, annotationId);
      match ConvertInstance(d, p, n - 1, imageId, annotationId + |prev|)
      case None => prev
      case Some(a) => prev + [a]
  }

  /** The number of instances among the first n whose scaled size has no zero component. */
  function KeptCount(p: LabelPayload, n: nat): nat
    requires p.size.Some? && n <= |p.size.value| && n <= |p.scales|
  {
    if n == 0 then 0 else KeptCount(p, n - 1) + (if Dropped(p, n - 1) then 0 else 1)
  }

  /**
   * The annotations of one image: one per kept instance, in instance order,
   * with consecutive ids starting at annotationId, all pointing at imageId.
   */
  lemma {:induction false} ImageAnnsShape(d: Domain, p: LabelPayload, n: nat, imageId: nat, annotationId: nat)
    requires p.size.Some? && n <= |p.classIds|
    requires forall i :: 0 <= i < n ==> InstanceReadable(d, p, i)
    ensures n <= |p.size.value| && n <= |p.scales|
    ensures |ImageAnns(d, p, n, imageId, annotationId)| == KeptCount(p, n)
    ensures forall k :: 0 <= k < |ImageAnns(d, p, n, imageId, annotationId)| ==>
      var a := ImageAnns(d, p, n, imageId, annotationId)[k];
      a.id == annotationId + k && a.imageId == imageId && !HasZero(a.bbox3dSize)
  {
    if n > 0 {
      ImageAnnsShape(d, p, n - 1, imageId, annotationId);
      var prev := ImageAnns(d, p, n - 1, imageId, annotationId);
      ConvertInstanceFields(d, p, n - 1, imageId, annotationId + |prev|);
    }
  }

  /** Every emitted annotation carries the category and raw rotation of some kept instance. */
  lemma {:induction false} ImageAnnsOrigin(d: Domain, p: LabelPayload, n: nat, imageId: nat, annotationId: nat, k: nat)
    requires p.size.Some? && n <= |p.classIds|
    requires forall i :: 0 <= i < n ==> InstanceReadable(d, p, i)
    requires k < |ImageAnns(d, p, n, imageId, annotationId)|
    ensures exists i :: 0 <= i < n && InstanceReadable(d, p, i) && !Dropped(p, i)
                        && ConvertInstance(d, p, i, imageId, annotationId + k) == Some(ImageAnns(d, p, n, imageId, annotationId)[k])
  {
    var prev := ImageAnns(d, p, n - 1, imageId, annotationId);
    ImageAnnsShape(d, p, n - 1, imageId, annotationId);
    ConvertInstanceFields(d, p, n - 1, imageId, annotationId + |prev|);
    if k < |prev| {
      ImageAnnsOrigin(d, p, n - 1, imageId, annotationId, k);
    } else {
      assert ConvertInstance(d, p, n - 1, imageId, annotationId + k) == Some(ImageAnns(d, p, n, imageId, annotationId)[k]);
    }
  }

  /**
   * One annotation per kept instance, in instance order: kept instance i is
   * annotation number KeptCount(p, i) of its image (the number of kept
   * instances before it), with the id that position gets.
   */
  lemma {:induction false} ImageAnnsAt(d: Domain, p: LabelPayload, n: nat, imageId: nat, annotationId: nat, i: nat)
    requires p.size.Some? && n <= |p.classIds|
    requires forall j :: 0 <= j < n ==> InstanceReadable(d, p, j)
    requires i < n
    ensures InstanceReadable(d, p, i)
    ensures !Dropped(p, i) ==>
      && KeptCount(p, i) < |ImageAnns(d, p, n, imageId, annotationId)|
      && ConvertInstance(d, p, i, imageId, annotationId + KeptCount(p, i))
           == Some(ImageAnns(d, p, n, imageId, annotationId)[KeptCount(p, i)])
  {
    assert InstanceReadable(d, p, i);
    var prev := ImageAnns(d, p, n - 1, imageId, annotationId);
    ImageAnnsShape(d, p, n - 1, imageId, annotationId);
    if i < n - 1 {
      ImageAnnsAt(d, p, n - 1, imageId, annotationId, i);
      if !Dropped(p, i) {
        assert ImageAnns(d, p, n, imageId, annotationId)[KeptCount(p, i)] == prev[KeptCount(p, i)];
      }
    }
  }

  /** An image yields no annotation exactly when every one of its instances is dropped. */
  lemma {:induction false} KeptCountZero(p: LabelPayload, n: nat)
    requires p.size.Some? && n <= |p.size.value| && n <= |p.scales|
    ensures KeptCount(p, n) == 0 <==> forall i :: 0 <= i < n ==> Dropped(p, i)
  {
    if n > 0 {
      KeptCountZero(p, n - 1);
    }
  }

  // ---------------------------------------------------------------------------
  // Per-domain loop

  /** The image-list entry that ends the domain loop: a payload without `size` (`break`). */
  predicate Breaks(e: ImageEntry) {
    e.labelFile.Present? && e.labelFile.payload.size.None?
  }

  /**
   * The entries the domain loop opens are readable: it opens them in order and
   * stops at the first payload without `size`, so entries after that are never
   * read and may be anything.
   */
  predicate ReadableUntilBreak(d: Domain, entries: seq<ImageEntry>)
    decreases |entries|
  {
    entries == [] || Breaks(entries[0]) || (EntryReadable(d, entries[0]) && ReadableUntilBreak(d, entries[1..]))
  }

  /** One iteration of the domain loop for an entry that does not break it. */
  function Step(d: Domain, e: ImageEntry, st: ConvState): ConvState
    requires EntryReadable(d, e) && !Breaks(e)
  {
    match e.labelFile
    case Missing => st
    case Present(p) =>
      var anns := ImageAnns(d, p, |p.classIds|, st.imageId, st.annotationId);
      if |anns| == 0 then st
      else
        var image := ImageRecord(e.prefix + "_color.png", st.imageId, ImageWidth, ImageHeight, IntrinsicsOf(d), d);
        ConvState(st.images + [image], st.annotations + anns, st.imageId + 1, st.annotationId + |anns|)
  }

  /** The state after the domain loop runs over `entries` from `st`. */
  function RunDomain(d: Domain, entries: seq<ImageEntry>, st: ConvState): ConvState
    requires ReadableUntilBreak(d, entries)
    decreases |entries|
  {
    if entries == [] || Breaks(entries[0]) then st
    else RunDomain(d, entries[1..], Step(d, entries[0], st))
  }

  /** The whole script: the camera list, then the real list, from empty lists and zero counters. */
  function ConvertAll(cameraList: seq<ImageEntry>, realList: seq<ImageEntry>): ConvState
    requires ReadableUntilBreak(Camera, cameraList) && ReadableUntilBreak(Real, realList)
  {
    RunDomain(Real, realList, RunDomain(Camera, cameraList, Initial))
  }

  // ---------------------------------------------------------------------------
  // The output invariant

  predicate HasAnnotation(anns: seq<Annotation>, imageId: nat) {
    exists k :: 0 <= k < |anns| && anns[k].imageId == imageId
  }

  /**
   * The cross-reference rules of the output: both counters equal the lengths
   * of their lists, ids are dense from 0, every annotation's image_id names an
   * emitted image, every emitted image has an annotation, and no annotation has a
   * zero 3D-size component.
   */
  predicate Consistent(st: ConvState) {
    && st.imageId == |st.images|
    && st.annotationId == |st.annotations|
    && (forall j :: 0 <= j < |st.images| ==> st.images[j].id == j)
    && (forall k :: 0 <= k < |st.annotations| ==> st.annotations[k].id == k)
    && (forall k :: 0 <= k < |st.annotations| ==> st.annotations[k].imageId < |st.images|)
    && (forall j :: 0 <= j < |st.images| ==> HasAnnotation(st.annotations, j))
    && (forall k :: 0 <= k < |st.annotations| ==> !HasZero(st.annotations[k].bbox3dSize))
  }

  lemma InitialConsistent()
    ensures Consistent(Initial)
  {
  }

  lemma StepConsistent(d: Domain, e: ImageEntry, st: ConvState)
    requires EntryReadable(d, e) && !Breaks(e) && Consistent(st)
    ensures Consistent(Step(d, e, st))
  {
    if e.labelFile.Present? {
      var p := e.labelFile.payload;
      var anns := ImageAnns(d, p, |p.classIds|, st.imageId, st.annotationId);
      ImageAnnsShape(d, p, |p.classIds|, st.imageId, st.annotationId);
      if |anns| > 0 {
        var r := Step(d, e, st);
        assert r.annotations[|st.annotations|] == anns[0];
        assert HasAnnotation(r.annotations, st.imageId);
        forall j | 0 <= j < |r.images|
          ensures HasAnnotation(r.annotations, j)
        {
          if j < |st.images| {
            assert HasAnnotation(st.annotations, j);
            var k :| 0 <= k < |st.annotations| && st.annotations[k].imageId == j;
            assert r.annotations[k] == st.annotations[k];
          }
        }
      }
    }
  }

  /** The domain loop keeps the output consistent. */
  lemma {:induction false} RunDomainConsistent(d: Domain, entries: seq<ImageEntry>, st: ConvState)
    requires ReadableUntilBreak(d, entries)
    requires Consistent(st)
    ensures Consistent(RunDomain(d, entries, st))
    decreases |entries|
  {
    if entries != [] && !Breaks(entries[0]) {
      StepConsistent(d, entries[0], st);
      RunDomainConsistent(d, entries[1..], Step(d, entries[0], st));
    }
  }

  /**
   * The domain loop only appends: earlier records stay as they are, and every
   * new image record is tagged with the loop's domain and its intrinsics.
   */
  lemma {:induction false} RunDomainAppends(d: Domain, entries: seq<ImageEntry>, st: ConvState)
    requires ReadableUntilBreak(d, entries)
    ensures var r := RunDomain(d, entries, st);
      && |st.images| <= |r.images| && r.images[..|st.images|] == st.images
      && |st.annotations| <= |r.annotations| && r.annotations[..|st.annotations|] == st.annotations
      && st.imageId <= r.imageId && st.annotationId <= r.annotationId
      && forall j :: |st.images| <= j < |r.images| ==>
           r.images[j].domain == d && r.images[j].intrinsics == IntrinsicsOf(d)
    decreases |entries|
  {
    if entries != [] && !Breaks(entries[0]) {
      var st' := Step(d, entries[0], st);
      RunDomainAppends(d, entries[1..], st');
      var r := RunDomain(d, entries[1..], st');
      assert r.images[..|st.images|] == r.images[..|st'.images|][..|st.images|];
      assert r.annotations[..|st.annotations|] == r.annotations[..|st'.annotations|][..|st.annotations|];
    }
  }

  /** A missing label file skips only that image: the rest of the list is processed as if it were absent. */
  lemma {:induction false} MissingLabelSkipsOneImage(d: Domain, before: seq<ImageEntry>, e: ImageEntry, after: seq<ImageEntry>, st: ConvState)
    requires e.labelFile.Missing?
    requires ReadableUntilBreak(d, before + after)
    ensures ReadableUntilBreak(d, before + [e] + after)
    ensures RunDomain(d, before + [e] + after, st) == RunDomain(d, before + after, st)
    decreases |before|
  {
    if before == [] {
      assert ([] + [e] + after)[1..] == after;
      assert [] + after == after;
    } else if !Breaks(before[0]) {
      assert (before + [e] + after)[1..] == before[1..] + [e] + after;
      assert (before + after)[1..] == before[1..] + after;
      MissingLabelSkipsOneImage(d, before[1..], e, after, Step(d, before[0], st));
    }
  }

  /**
   * A payload without `size` ends the domain: whatever follows it, readable or
   * not, is never opened, and the run is that of the entries before it.
   */
  lemma {:induction false} MissingSizeEndsDomain(d: Domain, before: seq<ImageEntry>, e: ImageEntry, after: seq<ImageEntry>, st: ConvState)
    requires Breaks(e)
    requires ReadableUntilBreak(d, before)
    ensures ReadableUntilBreak(d, before + [e] + after)
    ensures RunDomain(d, before + [e] + after, st) == RunDomain(d, before, st)
    decreases |before|
  {
    if before == [] {
      assert (before + [e] + after)[0] == e;
    } else if !Breaks(before[0]) {
      assert (before + [e] + after)[1..] == before[1..] + [e] + after;
      MissingSizeEndsDomain(d, before[1..], e, after, Step(d, before[0], st));
    } else {
      assert (before + [e] + after)[0] == before[0];
    }
  }

  /**
   * A readable payload with `size` adds an image record exactly when one of its
   * instances survives the zero-size filter; otherwise neither list nor counter moves.
   */
  lemma ImageDroppedIffAllDropped(d: Domain, e: ImageEntry, st: ConvState)
    requires EntryReadable(d, e) && e.labelFile.Present? && !Breaks(e)
    ensures var p := e.labelFile.payload;
      |p.classIds| <= |p.size.value| && |p.classIds| <= |p.scales| &&
      (Step(d, e, st) == st <==> forall i :: 0 <= i < |p.classIds| ==> Dropped(p, i))
    ensures var p := e.labelFile.payload;
      Step(d, e, st) != st ==> Step(d, e, st).images == st.images + [ImageRecord(e.prefix + "_color.png", st.imageId, ImageWidth, ImageHeight, IntrinsicsOf(d), d)]
  {
    var p := e.labelFile.payload;
    ImageAnnsShape(d, p, |p.classIds|, st.imageId, st.annotationId);
    KeptCountZero(p, |p.classIds|);
  }

  /**
   * The converted file as a whole: consistent (so image ids run on from the
   * camera list into the real list, and every annotation's image exists), and
   * the camera images come first, the real images after them.
   */
  lemma ConvertAllProperties(cameraList: seq<ImageEntry>, realList: seq<ImageEntry>)
    requires ReadableUntilBreak(Camera, cameraList) && ReadableUntilBreak(Real, realList)
    ensures Consistent(ConvertAll(cameraList, realList))
    ensures var mid := RunDomain(Camera, cameraList, Initial);
      var r := ConvertAll(cameraList, realList);
      && |mid.images| <= |r.images|
      && (forall j :: 0 <= j < |mid.images| ==> r.images[j].domain == Camera)
      && (forall j :: |mid.images| <= j < |r.images| ==> r.images[j].domain == Real)
  {
    var mid := RunDomain(Camera, cameraList, Initial);
    RunDomainConsistent(Camera, cameraList, Initial);
    RunDomainConsistent(Real, realList, mid);
    RunDomainAppends(Camera, cameraList, Initial);
    RunDomainAppends(Real, realList, mid);
    var r := ConvertAll(cameraList, realList);
    forall j | 0 <= j < |mid.images|
      ensures r.images[j].domain == Camera
    {
      assert r.images[j] == r.images[..|mid.images|][j] == mid.images[j];
    }
  }

  // ---------------------------------------------------------------------------
  // The script's state and loops

  class Converter {
    var images: seq<ImageRecord>
    var annotations: seq<Annotation>
    var imageId: nat
    var annotationId: nat

    function State(): ConvState
      reads this
    {
      ConvState(images, annotations, imageId, annotationId)
    }

    /** `annotations = {'images': [], 'annotations': [], ...}`, `image_id = 0`, `annotation_id = 0`. */
    constructor ()
      ensures State() == Initial
    {
      images, annotations, imageId, annotationId := [], [], 0, 0;
    }

    /**
     * The inner `for i in range(len(class_ids))` loop for one payload: appends
     * the annotations of its kept instances and returns `img_annotation_counter`.
     */
    method AppendImageAnnotations(d: Domain, p: LabelPayload) returns (imgAnnotationCounter: nat)
      requires p.size.Some? && PayloadReadable(d, p)
      modifies this`annotations, this`annotationId
      ensures annotations == old(annotations) + ImageAnns(d, p, |p.classIds|, imageId, old(annotationId))
      ensures imgAnnotationCounter == |ImageAnns(d, p, |p.classIds|, imageId, old(annotationId))|
      ensures annotationId == old(annotationId) + imgAnnotationCounter
    {
      imgAnnotationCounter := 0;
      var n := 0;
      while n < |p.classIds|
        invariant 0 <= n <= |p.classIds|
        invariant annotations == old(annotations) + ImageAnns(d, p, n, imageId, old(annotationId))
        invariant imgAnnotationCounter == |ImageAnns(d, p, n, imageId, old(annotationId))|
        invariant annotationId == old(annotationId) + imgAnnotationCounter
      {
        var obj := ConvertInstance(d, p, n, imageId, annotationId);
        if obj.None? {
          n := n + 1;
          continue;
        }
        imgAnnotationCounter := imgAnnotationCounter + 1;
        annotations := annotations + [obj.value];
        annotationId := annotationId + 1;
        n := n + 1;
      }
    }

    /** One `for data_dir in ...` loop of the script, for the camera or the real image list. */
    method ConvertDomain(d: Domain, entries: seq<ImageEntry>)
      requires ReadableUntilBreak(d, entries)
      modifies this
      ensures State() == RunDomain(d, entries, old(State()))
    {
      var i := 0;
      while i < |entries|
        invariant 0 <= i <= |entries|
        invariant ReadableUntilBreak(d, entries[i..])
        invariant RunDomain(d, entries[i..], State()) == RunDomain(d, entries, old(State()))
      {
        var e := entries[i];
        assert entries[i..][0] == e && entries[i..][1..] == entries[i + 1..];
        if e.labelFile.Missing? {
          i := i + 1;
          continue;
        }
        var p := e.labelFile.payload;
        if p.size.None? {
          break;
        }
        ghost var before := State();
        var imgAnnotationCounter := AppendImageAnnotations(d, p);
        i := i + 1;
        if imgAnnotationCounter == 0 {
          assert State() == Step(d, e, before);
          continue;
        }
        var image := ImageRecord(e.prefix + "_color.png", imageId, ImageWidth, ImageHeight, IntrinsicsOf(d), d);
        images := images + [image];
        imageId := imageId + 1;
        assert State() == Step(d, e, before);
      }
    }
  }

  /**
   * The script end to end: the camera list, then the real list, into one
   * converter; returns the `images` and `annotations` lists it would dump.
   */
  method ConvertCameraReal(cameraList: seq<ImageEntry>, realList: seq<ImageEntry>)
    returns (images: seq<ImageRecord>, annotations: seq<Annotation>)
    requires ReadableUntilBreak(Camera, cameraList) && ReadableUntilBreak(Real, realList)
    ensures images == ConvertAll(cameraList, realList).images
    ensures annotations == ConvertAll(cameraList, realList).annotations
    ensures forall k :: 0 <= k < |annotations| ==> annotations[k].id == k && annotations[k].imageId < |images|
    ensures forall j :: 0 <= j < |images| ==> images[j].id == j && HasAnnotation(annotations, j)
  {
    var c := new Converter();
    c.ConvertDomain(Camera, cameraList);
    c.ConvertDomain(Real, realList);
    ConvertAllProperties(cameraList, realList);
    images, annotations := c.images, c.annotations;
  }
}
