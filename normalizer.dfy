/** What the annotation loop does to one raw annotation: the size filter,
    the optional `[x, y, w, h]` to `[l, t, r, b]` conversion, the optional
    division by the image size, and the category remap. */
module Normalizer {
  import opened CocoTypes
  import opened CategoryRemap
  import opened ImageSizes

  /** The filter keeps a box unless its ORIGINAL width or height is strictly
      below the threshold, so a side equal to the threshold is kept. */
  predicate Kept(bbox: seq<real>, threshold: real)
    requires |bbox| >= 4
  {
    !(bbox[2] < threshold || bbox[3] < threshold)
  }

  /** `bbox[2] += bbox[0]; bbox[3] += bbox[1];` */
  function ToLtrb(bbox: seq<real>): seq<real>
    requires |bbox| >= 4
  {
    bbox[2 := bbox[2] + bbox[0]][3 := bbox[3] + bbox[1]]
  }

  /** The inverse conversion, from right and bottom edges back to width and height. */
  function ToXywh(bbox: seq<real>): seq<real>
    requires |bbox| >= 4
  {
    bbox[2 := bbox[2] - bbox[0]][3 := bbox[3] - bbox[1]]
  }

  /** Components 0 and 2 divided by the width, 1 and 3 by the height. */
  function ToRatio(bbox: seq<real>, width: int, height: int): seq<real>
    requires |bbox| >= 4 && width != 0 && height != 0
  {
    bbox[0 := bbox[0] / width as real][1 := bbox[1] / height as real]
        [2 := bbox[2] / width as real][3 := bbox[3] / height as real]
  }

  /** The inverse scaling, back to pixel units. */
  function FromRatio(bbox: seq<real>, width: int, height: int): seq<real>
    requires |bbox| >= 4
  {
    bbox[0 := bbox[0] * width as real][1 := bbox[1] * height as real]
        [2 := bbox[2] * width as real][3 := bbox[3] * height as real]
  }

  /** The box stored for a kept annotation: the conversion first, then the
      division by the image's width and height. */
  function StoredBox(bbox: seq<real>, opts: Options, dims: (int, int)): seq<real>
    requires |bbox| >= 4
    requires opts.ratio ==> dims.0 != 0 && dims.1 != 0
  {
    var converted := if opts.ltrb then ToLtrb(bbox) else bbox;
    if opts.ratio then ToRatio(converted, dims.0, dims.1) else converted
  }

  /** The in-place steps of the annotation loop on its copy of `bbox`; the
      image size is read only under `ratio`. */
  method TransformBox(bbox: seq<real>, opts: Options, table: map<int, (int, int)>, imageId: int)
    returns (b: seq<real>)
    requires |bbox| >= 4
    requires opts.ratio ==> Scalable(table, imageId)
    ensures b == StoredBox(bbox, opts, DimsOf(table, imageId))
  {
    b := bbox;
    if opts.ltrb {
      b := b[2 := b[2] + b[0]];
      b := b[3 := b[3] + b[1]];
    }
    if opts.ratio {
      var wh := table[imageId];
      b := b[0 := b[0] / wh.0 as real];
      b := b[1 := b[1] / wh.1 as real];
      b := b[2 := b[2] / wh.0 as real];
      b := b[3 := b[3] / wh.1 as real];
    }
  }

  /** The annotation the loop stores for a raw annotation that passed the
      filter. Multiplying the stored box back by the dimensions read for its
      image gives the original `x`, `y` and either `w`, `h` or `x + w`, `y + h`:
      the conversion comes before the division. */
  function Normalize(raw: RawAnnotation, categories: map<int, int>, table: map<int, (int, int)>, opts: Options): (r: Annotation)
    requires |raw.bbox| >= 4
    requires opts.ratio ==> Scalable(table, raw.imageId)
    ensures r.category == CategoryOf(categories, raw.categoryId)
    ensures var (sx, sy) := if opts.ratio then DimsOf(table, raw.imageId) else (1, 1);
            var b := raw.bbox;
            && r.left * sx as real == b[0]
            && r.top * sy as real == b[1]
            && r.widthOrRight * sx as real == (if opts.ltrb then b[0] + b[2] else b[2])
            && r.heightOrBottom * sy as real == (if opts.ltrb then b[1] + b[3] else b[3])
  {
    var b := StoredBox(raw.bbox, opts, DimsOf(table, raw.imageId));
    Annotation(b[0], b[1], b[2], b[3], CategoryOf(categories, raw.categoryId))
  }

  /** The conversion loses nothing: converting back gives the original box. */
  lemma LtrbRoundTrip(bbox: seq<real>)
    requires |bbox| >= 4
    ensures |ToLtrb(bbox)| == |bbox|
    ensures ToXywh(ToLtrb(bbox)) == bbox
  {
  }

  /** Multiplying back by the image size recovers the pre-ratio box. */
  lemma RatioRoundTrip(bbox: seq<real>, width: int, height: int)
    requires |bbox| >= 4 && width != 0 && height != 0
    ensures |ToRatio(bbox, width, height)| == |bbox|
    ensures FromRatio(ToRatio(bbox, width, height), width, height) == bbox
  {
    var w, h := width as real, height as real;
    assert bbox[0] / w * w == bbox[0] && bbox[2] / w * w == bbox[2];
    assert bbox[1] / h * h == bbox[1] && bbox[3] / h * h == bbox[3];
    assert forall k :: 0 <= k < |bbox| ==> FromRatio(ToRatio(bbox, width, height), width, height)[k] == bbox[k];
  }

  /** A box that lies inside its image is stored, under `ratio`, with every
      coordinate in [0, 1], whichever convention `ltrb` picks. */
  lemma RatioWithinUnit(raw: RawAnnotation, categories: map<int, int>, table: map<int, (int, int)>, opts: Options)
    requires |raw.bbox| >= 4 && opts.ratio
    requires raw.imageId in table && table[raw.imageId].0 > 0 && table[raw.imageId].1 > 0
    requires var (w, h) := table[raw.imageId]; var b := raw.bbox;
             0.0 <= b[0] && 0.0 <= b[1] && 0.0 <= b[2] && 0.0 <= b[3]
             && b[0] + b[2] <= w as real && b[1] + b[3] <= h as real
    ensures var r := Normalize(raw, categories, table, opts);
            && 0.0 <= r.left <= 1.0 && 0.0 <= r.top <= 1.0
            && 0.0 <= r.widthOrRight <= 1.0 && 0.0 <= r.heightOrBottom <= 1.0
  {
    var b := raw.bbox;
    var (w, h) := table[raw.imageId];
    var converted := if opts.ltrb then ToLtrb(b) else b;
    assert 0.0 <= converted[0] <= w as real && 0.0 <= converted[2] <= w as real;
    assert 0.0 <= converted[1] <= h as real && 0.0 <= converted[3] <= h as real;
    RatioOfPartWithinUnit(converted[0], w as real);
    RatioOfPartWithinUnit(converted[1], h as real);
    RatioOfPartWithinUnit(converted[2], w as real);
    RatioOfPartWithinUnit(converted[3], h as real);
  }

  /** A part of a positive whole, divided by the whole, lies in [0, 1]. */
  lemma RatioOfPartWithinUnit(part: real, whole: real)
    requires whole > 0.0 && 0.0 <= part <= whole
    ensures 0.0 <= part / whole <= 1.0
  {
  }
}
