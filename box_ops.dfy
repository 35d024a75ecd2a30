/**
 * Box-format helpers used by the detection head. The repository imports
 * `bbox_cxcywh_to_xyxy` and `bbox_xyxy_to_cxcywh` from a module that is not
 * part of this model; they are defined here with their usual meaning, on
 * tensor rows of four reals.
 */
module BoxOps {

  /** A row holds a box when it has exactly four coordinates. */
  predicate IsBoxRow(b: seq<real>) { |b| == 4 }

  /** (cx, cy, w, h) to (x1, y1, x2, y2). */
  function CxcywhToXyxy(b: seq<real>): (r: seq<real>)
    requires IsBoxRow(b)
    ensures IsBoxRow(r)
    ensures (r[0] + r[2]) / 2.0 == b[0] && (r[1] + r[3]) / 2.0 == b[1]
    ensures r[2] - r[0] == b[2] && r[3] - r[1] == b[3]
  {
    [b[0] - 0.5 * b[2], b[1] - 0.5 * b[3], b[0] + 0.5 * b[2], b[1] + 0.5 * b[3]]
  }

  /** (x1, y1, x2, y2) to (cx, cy, w, h); the inverse of CxcywhToXyxy. */
  function XyxyToCxcywh(b: seq<real>): (r: seq<real>)
    requires IsBoxRow(b)
    ensures IsBoxRow(r)
    ensures CxcywhToXyxy(r) == b
  {
    [(b[0] + b[2]) / 2.0, (b[1] + b[3]) / 2.0, b[2] - b[0], b[3] - b[1]]
  }

  lemma CxcywhRoundTrip(b: seq<real>)
    requires IsBoxRow(b)
    ensures XyxyToCxcywh(CxcywhToXyxy(b)) == b
  {
  }

  /** `Tensor.clamp_(min=lo, max=hi)` on one value. */
  function Clamp(x: real, lo: real, hi: real): (r: real)
    requires lo <= hi
    ensures lo <= r <= hi
    ensures lo <= x <= hi ==> r == x
    ensures x < lo ==> r == lo
    ensures hi < x ==> r == hi
  {
    if x < lo then lo else if hi < x then hi else x
  }

  /** Divide a box row by the image factor (w, h, w, h). */
  function Normalize(b: seq<real>, w: real, h: real): (r: seq<real>)
    requires IsBoxRow(b) && w != 0.0 && h != 0.0
    ensures IsBoxRow(r)
    ensures Scale(r, w, h) == b
  {
    var r := [b[0] / w, b[1] / h, b[2] / w, b[3] / h];
    var back := Scale(r, w, h);
    assert back[0] == b[0] && back[1] == b[1] && back[2] == b[2] && back[3] == b[3];
    assert back == b;
    r
  }

  /** Multiply a box row by the image factor (w, h, w, h): x coordinates by w, y coordinates by h. */
  function Scale(b: seq<real>, w: real, h: real): (r: seq<real>)
    requires IsBoxRow(b)
    ensures IsBoxRow(r)
  {
    [b[0] * w, b[1] * h, b[2] * w, b[3] * h]
  }
}
