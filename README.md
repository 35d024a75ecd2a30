# EPCPE pose-estimation bookkeeping, in Dafny

This project models three sequential, index-heavy pieces of the EPCPE category-level pose estimator, and proves their properties. It leaves out the neural network and the tensor framework around them.

- **The NOCS-to-COCO annotation converter** (`annotations/nocs/nocs2coco_camera_real.py`, module `NocsToCoco`).
  - It walks the synthetic "camera" image list, then the "real" one.
  - Each image has one pickled label payload, modelled as a record with optional fields.
  - It turns every instance into a COCO annotation, dropping instances with a zero scaled 3D size and images left without annotations.
  - It hands out dense image and annotation ids from two counters that run on across both lists.
  - The class `Converter` holds the two output lists and the two counters. Its loop methods are proved against the spec functions `Step`/`RunDomain`, and the output invariants are proved about those functions.
- **The pose-aware loader `LoadAnnotations3D`** (`mmdet/datasets/transforms/loading_3d.py`, module `Loading3D`).
  - The `results` dict is the class `Results`, one `Option` field per key.
  - Each loader method walks `instances` in order and writes per-instance arrays.
  - The mask validator rewrites `ignore_flag` of the instances in place.
  - scipy's Euler-angle extraction is a function parameter `yawOf`, and the decoded segmentation map is a parameter.
- **The target-assignment and decode bookkeeping of `SAMDABDETRHeadCascaded`** (`mmdet/models/dense_heads/sam_dab_detr_head_cascaded.py`, module `PoseDetrHead`).
  - Per-image targets are built from the matcher's `gt_inds`: 0 means background, k > 0 means ground truth k-1, and a negative value means ignored.
  - Also modelled: the batch positive/negative counts, the two loss normalisers, the per-layer loss-dict keys, and the decode of top-k indices into detections with boxes scaled and clamped to the image.
  - Tensors are sequences of rows of `real`.
- Module `BoxOps` defines `bbox_cxcywh_to_xyxy`/`bbox_xyxy_to_cxcywh` with their usual meaning. The module that defines them in the repository, `mmdet/structures/bbox`, is not part of this model.

Where the description of the converter and its code disagree, the model follows the code. A payload without `size` hits `break` at lines 93 and 192, which are in the per-image loop. So the break ends the whole camera (or real) list, not only the current image (`NocsToCoco.MissingSizeEndsDomain`).

## Model

| member | source | states |
|---|---|---|
| BoxOps.CxcywhToXyxy | mmdet/models/dense_heads/sam_dab_detr_head_cascaded.py:609 | the corner box has the given centre and the given width and height |
| BoxOps.XyxyToCxcywh | mmdet/models/dense_heads/sam_dab_detr_head_cascaded.py:488 | converting back to corners gives the input box: it inverts CxcywhToXyxy |
| BoxOps.CxcywhRoundTrip | mmdet/models/dense_heads/sam_dab_detr_head_cascaded.py:318-319 | centre form to corners and back is the identity |
| BoxOps.Clamp | mmdet/models/dense_heads/sam_dab_detr_head_cascaded.py:612-613 | the result lies in [lo, hi], equals x inside the range and the violated bound outside it |
| BoxOps.Normalize | mmdet/models/dense_heads/sam_dab_detr_head_cascaded.py:487 | dividing by (w, h, w, h) is undone by multiplying by it |
| NocsToCoco.ToXywh | annotations/nocs/nocs2coco_camera_real.py:102-103 | [y1, x1, y2, x2] becomes the [x, y, w, h] box whose corners are the input |
| NocsToCoco.XywhRoundTrip | annotations/nocs/nocs2coco_camera_real.py:102-103 | an [x, y, w, h] box survives corners-and-back unchanged |
| NocsToCoco.TruncateTowardZero | annotations/nocs/nocs2coco_camera_real.py:139 | Python `int()` on a float: rounds toward zero from either side |
| NocsToCoco.ConvertInstance | annotations/nocs/nocs2coco_camera_real.py:96-143 | the record one instance yields, or nothing for a zero scaled size; its contract is stated by ConvertInstanceFields |
| NocsToCoco.ConvertInstanceFields | annotations/nocs/nocs2coco_camera_real.py:94-147 | an instance yields nothing iff its scaled size has a zero component. Otherwise its annotation has: the xywh box; `area` = int(w*h); `category_id` = class id - 1; `rotation` = `rotation_norm` = the raw rotation; `iscrowd` 0; `handle_visibility` defaulting to 1; position from the pose matrix when poses exist (in the camera list only for non-mug categories), else from `translations` |
| NocsToCoco.ImageAnns | annotations/nocs/nocs2coco_camera_real.py:94-147 | the annotations the instance loop appends for one image; stated by ImageAnnsShape, ImageAnnsAt and ImageAnnsOrigin |
| NocsToCoco.KeptCount | annotations/nocs/nocs2coco_camera_real.py:104-145 | `img_annotation_counter`: the instances whose scaled size has no zero component; stated by KeptCountZero and ImageAnnsShape |
| NocsToCoco.ImageAnnsShape | annotations/nocs/nocs2coco_camera_real.py:94-147 | an image's annotations: one per kept instance, ids consecutive from the counter, all with the image's id and no zero size component |
| NocsToCoco.ImageAnnsAt | annotations/nocs/nocs2coco_camera_real.py:94-147 | one annotation per kept instance, in instance order: kept instance i is annotation number KeptCount(p, i) of the image, converted with the id of that position |
| NocsToCoco.ImageAnnsOrigin | annotations/nocs/nocs2coco_camera_real.py:104-146 | every emitted annotation is the conversion of some kept instance with its own id |
| NocsToCoco.KeptCountZero | annotations/nocs/nocs2coco_camera_real.py:104-151 | no instance is kept iff every instance has a zero size component |
| NocsToCoco.Step | annotations/nocs/nocs2coco_camera_real.py:78-161 | one iteration of the per-image loop (`continue` for a missing label file or no kept instance); stated by StepConsistent, ImageDroppedIffAllDropped and MissingLabelSkipsOneImage |
| NocsToCoco.RunDomain | annotations/nocs/nocs2coco_camera_real.py:78-161 | the whole per-image loop of one list, stopping at a payload without `size`; defined whenever the entries before that payload are readable (`ReadableUntilBreak`); stated by RunDomainConsistent, RunDomainAppends and MissingSizeEndsDomain |
| NocsToCoco.ConvertAll | annotations/nocs/nocs2coco_camera_real.py:52-258 | the camera loop followed by the real loop, counters running on; stated by ConvertAllProperties |
| NocsToCoco.InitialConsistent | annotations/nocs/nocs2coco_camera_real.py:49-53 | empty lists and zero counters satisfy the output invariant |
| NocsToCoco.StepConsistent | annotations/nocs/nocs2coco_camera_real.py:78-161 | one image of the loop keeps the invariant: dense ids; counters equal the list lengths; image refs valid; every image has an annotation; no zero sizes |
| NocsToCoco.RunDomainConsistent | annotations/nocs/nocs2coco_camera_real.py:177-258 | a whole domain loop keeps the output invariant |
| NocsToCoco.RunDomainAppends | annotations/nocs/nocs2coco_camera_real.py:152-160 | a domain loop only appends; counters never go back; every new image is tagged with the loop's domain and intrinsics |
| NocsToCoco.MissingLabelSkipsOneImage | annotations/nocs/nocs2coco_camera_real.py:85-87 | an entry without a label file changes nothing: the run equals the run without that entry |
| NocsToCoco.MissingSizeEndsDomain | annotations/nocs/nocs2coco_camera_real.py:91-93 | a payload without `size` ends the domain: entries after it, readable or not, are never opened, and the run equals the run of the entries before it |
| NocsToCoco.ImageDroppedIffAllDropped | annotations/nocs/nocs2coco_camera_real.py:149-161 | an image changes nothing (no record, no id) iff all its instances are dropped; otherwise exactly one record `<prefix>_color.png`, 640x480, with the next id, is appended |
| NocsToCoco.ConvertAllProperties | annotations/nocs/nocs2coco_camera_real.py:52-258 | the whole output satisfies the invariant, so ids run on from the camera list into the real list; camera images all precede real images |
| NocsToCoco.Converter.constructor | annotations/nocs/nocs2coco_camera_real.py:49-53 | empty output lists and both counters at 0 |
| NocsToCoco.Converter.AppendImageAnnotations | annotations/nocs/nocs2coco_camera_real.py:94-147 | the instance loop appends exactly the image's annotations, returns `img_annotation_counter` = their number, and advances `annotation_id` by it |
| NocsToCoco.Converter.ConvertDomain | annotations/nocs/nocs2coco_camera_real.py:78-161 | the per-image loop with `continue`/`break` leaves the state `RunDomain` specifies |
| NocsToCoco.ConvertCameraReal | annotations/nocs/nocs2coco_camera_real.py:78-258 | the two lists equal `ConvertAll`; annotation ids are 0..n-1 and name emitted images; image ids are 0..m-1 and every image has an annotation |
| Loading3D.KeepValidPolygons | mmdet/datasets/transforms/loading_3d.py:257-260 | every kept polygon is valid and from the input; no more polygons than the input |
| Loading3D.KeepValidPolygonsExactly | mmdet/datasets/transforms/loading_3d.py:257-260 | a polygon is kept iff it is in the input and has an even length of at least 6 |
| Loading3D.KeepValidPolygonsConcat | mmdet/datasets/transforms/loading_3d.py:257-260 | the filter keeps input order: filtering a concatenation concatenates the filtered parts |
| Loading3D.ProcessMaskAsWritten | mmdet/datasets/transforms/loading_3d.py:253-277 | one instance's step of the validator as written, which keeps a mask that is neither a list nor a dict unflagged when `poly2mask` is on; stated by ProcessMaskAsWrittenDiffers |
| Loading3D.ProcessMask | mmdet/datasets/transforms/loading_3d.py:253-277 | the validator step as intended, used by ProcessMasks; stated by ProcessMaskOutcome and ProcessedMaskUsable |
| Loading3D.ProcessMaskOutcome | mmdet/datasets/transforms/loading_3d.py:256-277 | an instance is marked ignored iff: no polygon survives; or the mask is a dict and `poly2mask` is off or its `counts`/`size` are unusable; or the mask is neither a list nor a dict. Ignored instances get the 6-zero placeholder; kept lists keep their valid polygons; kept dicts are unchanged |
| Loading3D.ProcessedMaskUsable | mmdet/datasets/transforms/loading_3d.py:256-298 | every mask the validator returns is a non-empty list of valid polygons or, with `poly2mask`, a dict `_poly2mask` can read |
| Loading3D.ProcessMaskAsWrittenDiffers | mmdet/datasets/transforms/loading_3d.py:256-277 | the two validators agree except on a non-list, non-dict mask with `poly2mask` on, which as written is kept unflagged and is not usable, and as intended is ignored |
| Loading3D.MasksProcessedNeverClears | mmdet/datasets/transforms/loading_3d.py:250-282 | either validator only ever sets `ignore_flag` to 1 and changes nothing else about an instance |
| Loading3D.MasksProcessedAsWrittenAgrees | mmdet/datasets/transforms/loading_3d.py:265-277 | with `poly2mask` off, or no mask that is neither a list nor a dict, `_process_masks` as written and as intended leave the same instances and masks |
| Loading3D.Box3d | mmdet/datasets/transforms/loading_3d.py:176-178 | the 3D box row has 9 values |
| Loading3D.DepthColumn | mmdet/datasets/transforms/loading_3d.py:187 | `depths` is the z of every position, in order |
| Loading3D.CenterColumns | mmdet/datasets/transforms/loading_3d.py:188 | `centers_2d` is the (x, y) of every position, in order |
| Loading3D.LoadAnnotations3D.constructor | mmdet/datasets/transforms/loading_3d.py:120-130 | the five loader flags and `poly2mask` are stored |
| Loading3D.LoadAnnotations3D.LoadBboxes | mmdet/datasets/transforms/loading_3d.py:140-152 | `gt_bboxes` and `gt_ignore_flags` hold one entry per instance, in instance order, flags as booleans |
| Loading3D.LoadAnnotations3D.LoadPoseArrays | mmdet/datasets/transforms/loading_3d.py:162-188 | for instances whose `rot` and `rot_norm` have 9 values each (what `reshape(3, 3)` and `reshape(-1, 9)` accept as one row per instance), per instance, in order: rot, pos, size, rot_norm, scale_norm and flag; `depths` = pos z; `centers_2d` = (pos x, pos y); the 3D rows are [pos, size*scale_norm, yaw, 0, 0] |
| Loading3D.LoadAnnotations3D.LoadPoseAsWritten | mmdet/datasets/transforms/loading_3d.py:189-194 | the arrays are written, then the call fails with NameError on `CameraInstance3DBoxes` |
| Loading3D.LoadAnnotations3D.LoadPose | mmdet/datasets/transforms/loading_3d.py:154-194 | the arrays, plus `gt_bboxes_3d` holding the 9-value row of every instance |
| Loading3D.LoadAnnotations3D.LoadLabels | mmdet/datasets/transforms/loading_3d.py:205-211 | `gt_bboxes_labels`, `gt_labels_3d` and `attr_labels` are all the per-instance `bbox_label`s in order |
| Loading3D.LoadAnnotations3D.ProcessMasks | mmdet/datasets/transforms/loading_3d.py:250-282 | with the validator as written (`ProcessMaskAsWritten`) or as intended (`ProcessMask`), as asked: one mask per instance in input order; instances flagged exactly where the mask is unusable; `gt_ignore_flags` rebuilt from the updated instances |
| Loading3D.LoadAnnotations3D.LoadMasks | mmdet/datasets/transforms/loading_3d.py:290-298 | with the corrected validator: `gt_masks` holds the validated masks, as bitmap source iff `poly2mask`, and `gt_ignore_flags` follows the updated instances |
| Loading3D.LoadAnnotations3D.Transform | mmdet/datasets/transforms/loading_3d.py:313-323 | with the pose loader as intended (`LoadPose`): with its flag on, each loader writes all its keys from the given instances: the bbox keys; the seven pose arrays and `gt_bboxes_3d`; the three label arrays; `gt_masks` and the rewritten instances; the seg map. With its flag off, each of those keys is left as it was. `gt_ignore_flags` comes from the mask loader when it runs |
| Loading3D.LoadAnnotations3D.TransformAsWritten | mmdet/datasets/transforms/loading_3d.py:313-323 | as written. With `with_pose` on: the bbox keys and pose arrays are written, then NameError ends the call, so `gt_bboxes_3d`, the labels, masks, instances and seg map are left as they were. With it off, `with_mask` and `poly2mask` on and some mask neither a list nor a dict: the bbox and label keys are written, the instances are flagged by the validator as written and `gt_ignore_flags` rebuilt, then TypeError at line 232 ends the call, so `gt_masks`, the pose keys and the seg map are left as they were. Otherwise exactly what Transform states |
| PoseDetrHead.NonzeroIndices | mmdet/models/dense_heads/sam_dab_detr_head_cascaded.py:447-450 | the true positions of a mask, strictly increasing, each once, as many as the mask has true entries |
| PoseDetrHead.PosMask | mmdet/models/dense_heads/sam_dab_detr_head_cascaded.py:447-448 | `gt_inds > 0` per query; counted by PosNegCount, PosNegDisjoint and GatedRowsCount |
| PoseDetrHead.NegMask | mmdet/models/dense_heads/sam_dab_detr_head_cascaded.py:449-450 | `gt_inds == 0` per query; counted by PosNegCount and PosNegDisjoint |
| PoseDetrHead.PosNegCount | mmdet/models/dense_heads/sam_dab_detr_head_cascaded.py:447-450 | positives plus negatives are at most the queries, and equal them iff no `gt_inds` entry is negative |
| PoseDetrHead.PosNegDisjoint | mmdet/models/dense_heads/sam_dab_detr_head_cascaded.py:447-451 | positive indices have `gt_inds > 0`, negative ones `gt_inds == 0`; no query is both |
| PoseDetrHead.BoxTarget | mmdet/models/dense_heads/sam_dab_detr_head_cascaded.py:487-488 | the target, converted to corners and multiplied back by (w, h, w, h), gives the ground-truth box |
| PoseDetrHead.GetTargetsSingle | mmdet/models/dense_heads/sam_dab_detr_head_cascaded.py:447-497 | returns the positive and negative index sets. Every query has label weight 1. A positive query gets its ground truth's label, box target, R, T and size rows, with weights of one. Every other query gets label `num_classes` and zero targets and weights |
| PoseDetrHead.GatedRowsCount | mmdet/models/dense_heads/sam_dab_detr_head_cascaded.py:465-482 | a row tensor set from the positive mask holds as many "positive" rows as there are positive queries, the rest "background" |
| PoseDetrHead.WeightRowsGated | mmdet/models/dense_heads/sam_dab_detr_head_cascaded.py:465-482 | each box, R, T and size weight row is all ones for a positive query and all zeros for every other query |
| PoseDetrHead.WeightRowsCount | mmdet/models/dense_heads/sam_dab_detr_head_cascaded.py:465-482 | with M positives out of N queries, each weight tensor has exactly M rows of ones and N-M rows of zeros |
| PoseDetrHead.TotalPosNegBound | mmdet/models/dense_heads/sam_dab_detr_head_cascaded.py:389-390 | summed over the batch, positives plus negatives are at most the queries |
| PoseDetrHead.TotalPos | mmdet/models/dense_heads/sam_dab_detr_head_cascaded.py:389 | `sum(num_total_pos)` over the batch; GetTargets returns it and TotalPosNegBound bounds it |
| PoseDetrHead.TotalNeg | mmdet/models/dense_heads/sam_dab_detr_head_cascaded.py:390 | `sum(num_total_neg)` over the batch; GetTargets returns it and TotalPosNegBound bounds it |
| PoseDetrHead.GetTargets | mmdet/models/dense_heads/sam_dab_detr_head_cascaded.py:381-392 | per-image targets as GetTargetsSingle states, in batch order; `num_total_pos`/`num_total_neg` are the sums of the per-image counts |
| PoseDetrHead.ClsAvgFactor | mmdet/models/dense_heads/sam_dab_detr_head_cascaded.py:289-294 | `pos + neg*bg_cls_weight` floored at 1: at least 1, at least the weighted sum, and one of the two |
| PoseDetrHead.RegAvgFactor | mmdet/models/dense_heads/sam_dab_detr_head_cascaded.py:301-302 | the positive count clamped to at least 1 |
| PoseDetrHead.NatToString | mmdet/models/dense_heads/sam_dab_detr_head_cascaded.py:231 | the decimal digits of a layer index: non-empty, digits only, at least two for 10 and above, and no leading zero (the first digit is '0' only for 0 itself); with NatToStringValue this is the one spelling `f'{i}'` gives |
| PoseDetrHead.DecimalValue | mmdet/models/dense_heads/sam_dab_detr_head_cascaded.py:231 | the number a digit string spells, most significant digit first |
| PoseDetrHead.NatToStringValue | mmdet/models/dense_heads/sam_dab_detr_head_cascaded.py:231 | `f'{i}'` spells i in decimal: reading its digits back gives i |
| PoseDetrHead.NatToStringInjective | mmdet/models/dense_heads/sam_dab_detr_head_cascaded.py:231-236 | distinct layer indices have distinct decimal spellings |
| PoseDetrHead.LayerKey | mmdet/models/dense_heads/sam_dab_detr_head_cascaded.py:231-236 | the key `d{i}.` + loss name of an auxiliary layer's loss; stated by LayerKeyLayout and LayerKeyInjective |
| PoseDetrHead.LayerKeyLayout | mmdet/models/dense_heads/sam_dab_detr_head_cascaded.py:231-236 | an auxiliary key is `d`, the digits, `.`, then the loss name |
| PoseDetrHead.LayerKeyInjective | mmdet/models/dense_heads/sam_dab_detr_head_cascaded.py:221-236 | distinct (layer, loss) pairs get distinct `d{i}.` keys, and no such key is one of the unprefixed names |
| PoseDetrHead.LossByFeat | mmdet/models/dense_heads/sam_dab_detr_head_cascaded.py:219-238 | the last layer's six losses sit under the plain names, layer i < L-1 under `d{i}.`, and the dict has 6·L keys |
| PoseDetrHead.DivModUnique | mmdet/models/dense_heads/sam_dab_detr_head_cascaded.py:594-595 | k = q*C + l with 0 <= l < C forces k // C = q and k % C = l |
| PoseDetrHead.DivModIff | mmdet/models/dense_heads/sam_dab_detr_head_cascaded.py:594-595 | (q, l) with k = q*C + l and 0 <= l < C iff q = k // C and l = k % C; read right to left, query q and class l sit at flat index q*C + l and decode back |
| PoseDetrHead.Flatten | mmdet/models/dense_heads/sam_dab_detr_head_cascaded.py:593 | `cls_score.view(-1)`: the rows laid end to end; stated by FlattenLength and FlattenAt |
| PoseDetrHead.FlattenLength | mmdet/models/dense_heads/sam_dab_detr_head_cascaded.py:593 | `view(-1)` of N rows of C scores has N*C entries |
| PoseDetrHead.FlattenAt | mmdet/models/dense_heads/sam_dab_detr_head_cascaded.py:593-595 | flat entry k is row k // C, column k % C of the score matrix |
| PoseDetrHead.ImageBox | mmdet/models/dense_heads/sam_dab_detr_head_cascaded.py:609-613 | the pixel box lies inside the image: x in [0, W], y in [0, H] |
| PoseDetrHead.ImageBoxInside | mmdet/models/dense_heads/sam_dab_detr_head_cascaded.py:612-613 | a scaled box already inside the image is not changed by the clamp |
| PoseDetrHead.OutputBox | mmdet/models/dense_heads/sam_dab_detr_head_cascaded.py:609-617 | with `rescale`, multiplying back by the scale factor gives the clamped pixel box; without it, it is the clamped pixel box |
| PoseDetrHead.DecodeOne | mmdet/models/dense_heads/sam_dab_detr_head_cascaded.py:591-617 | the detection of one top-k position is the detection of the (query, class) cell it names |
| PoseDetrHead.PredictByFeatSingle | mmdet/models/dense_heads/sam_dab_detr_head_cascaded.py:587-630 | detection j is the cell top-k position j names. Sigmoid: query k // C, class k % C, with that sigmoid score. Softmax: query k with its best class and score. Its box, R, T and size rows come from that query, the box scaled, clamped and optionally rescaled |
| PoseDetrHead.SigmoidCellUnique | mmdet/models/dense_heads/sam_dab_detr_head_cascaded.py:593-595 | a sigmoid top-k position names exactly one cell, (k // C, k % C), whose score is the flattened score at k |
| PoseDetrHead.DecodedBoxesInImage | mmdet/models/dense_heads/sam_dab_detr_head_cascaded.py:609-613 | without rescaling, every detected box lies inside the image |
| PoseDetrHead.PredictByFeat | mmdet/models/dense_heads/sam_dab_detr_head_cascaded.py:533-552 | only the last decoder layer is decoded: one result per image, in batch order, each as PredictByFeatSingle states |

## Left out

- File and console I/O of the converter are not modelled: `np.loadtxt` of the image lists, `osp.exists`, pickle loading, `print`, `tqdm` and `json.dump`. The image lists and payloads are an input sequence (`Missing` when the label file does not exist), and the result is the two output lists. The `K` matrices and the unused `rotation` read from the pose are not modelled.
- NocsToCoco.ConvertInstance: `float32` rounding of numpy arrays is not modelled; coordinates are exact reals.
- NocsToCoco: inputs that would raise IndexError, KeyError or a reshape error in the script are excluded, for the entries the loop actually opens, by `ReadableUntilBreak` (`EntryReadable` of every entry up to the first payload without `size`; entries after it are never read and may be anything) or by the payload's type, rather than modelled as crashes: arrays shorter than `class_ids`, rotations not of 9 values, poses not of 16, and a payload missing one of the keys read with `[...]` (`class_ids`, `bboxes`, `scales`, `rotations` at lines 94-123 and 193-222; every `LabelPayload` carries them). A missing `size` is modelled (the `break`).
- Loading3D: `_poly2mask` (pycocotools RLE decoding), the `BitmapMasks`/`PolygonMasks` containers, `get_box_type` box wrapping and the float32/bool dtype conversions are not modelled; `gt_masks` records only which container the validated masks go to.
- Loading3D: the loaders' KeyError paths are not modelled. Every `Instance` carries every key (`bbox`, `bbox_label`, `mask`, `ignore_flag`, `rot`, `pos`, `bbox_3d_size`, `rot_norm`, `scale_norm`), so a missing key (lines 143-144, 170-178, 207, 253) is not a case of the model. `_load_masks` reading `ori_shape` (line 290) is not modelled, since the shape only feeds the mask containers. A rotation that is not 9 values, which `reshape(3, 3)` at line 177 rejects, and a `rot_norm` that is not 9 values, which `reshape(-1, 9)` at line 185 rejects or splits into rows not aligned with the instances, are excluded by `PoseReadable`.
- Loading3D.LoadAnnotations3D.Transform: uses the corrected pose loader `LoadPose` and the corrected mask validator `ProcessMask`. The code as written stops with NameError once the pose loader runs, and with TypeError at line 232 when `poly2mask` is on and a mask is neither a list nor a dict; both paths are `TransformAsWritten`. For the validator as written, see `ProcessMaskAsWritten` under Findings.
- Loading3D: `_load_seg_map` reads and decodes an image file; the decoded map is a parameter of `Transform`.
- Loading3D.LoadPoseArrays: scipy's `R.from_matrix(...).as_euler('xyz')` is the parameter `yawOf`, so properties of the angle itself (such as yaw 0 for the identity rotation) are not proved.
- Loading3D.Box3d: states only the row length; its entries are given by its definition and used through `Boxes3dOf`.
- Loading3D: `CameraInstance3DBoxes` is a third-party class that is not part of this model. The corrected `LoadPose` stores the 9-value rows it would wrap.
- PoseDetrHead: the network (`_init_layers`, `init_weights`, `forward`, `rotation_6d_to_matrix`), sigmoid and softmax, and the `topk` ranking over float scores are not modelled. The decode takes the chosen top-k positions as input. The softmax branch takes each query's best foreground score and class as input.
- PoseDetrHead: the matcher `self.assigner.assign` is not modelled; its `gt_inds` is an input, required only to name existing ground truths.
- PoseDetrHead: the registry-built loss functions are not modelled; `loss_by_feat` takes each layer's six loss values as input.
- PoseDetrHead: `reduce_mean` across processes is not modelled; the avg factors are those of a single process.
- PoseDetrHead.PredictByFeatSingle: a zero `scale_factor` (division giving infinities) is excluded by `RescaleOk`; `assert len(cls_score) == len(bbox_pred_R)` is part of `OutputsShaped`. The `assert img_meta.get('scale_factor') is not None` at line 615 cannot fail in the model: every `ImagePrediction` carries a scale factor, so the AssertionError for a missing one is not modelled.
- Both `__init__.py` files only re-export names and are not modelled.

## Findings

| source | as written | input that shows it | evidently intended | confidence | as-written member | corrected member |
|---|---|---|---|---|---|---|
| mmdet/datasets/transforms/loading_3d.py:190 | `_load_pose` calls `CameraInstance3DBoxes`, but its import at line 20 is commented out, so the name is undefined | any `results` with `with_pose=True`, even with no instances: the arrays of lines 181-188 are written, then line 190 raises NameError and `gt_bboxes_3d` is never set | `gt_bboxes_3d` holds one 9-value row per instance, [pos, size*scale_norm, yaw, 0, 0] | not executed | Loading3D.LoadAnnotations3D.LoadPoseAsWritten | Loading3D.LoadAnnotations3D.LoadPose |
| mmdet/datasets/transforms/loading_3d.py:265-277 | `_process_masks` flags a mask that is not a list only when `poly2mask` is off or it is a dict without usable `counts`/`size`, so with `poly2mask` on a mask that is neither a list nor a dict passes unflagged | an instance whose `mask` is e.g. a tuple or None, with `poly2mask=True` and `with_mask=True`: it is kept with `ignore_flag` unchanged, then `_poly2mask` evaluates `mask_ann['counts']` at line 232 on it and raises | every mask `_poly2mask` cannot read is ignored and replaced by the placeholder, as the other invalid masks are | not executed; medium, the docstring only allows lists and dicts | Loading3D.ProcessMaskAsWritten | Loading3D.ProcessMask |
