/** The typed records of one COCO-style annotations file, as the reader's
    constructor sees them once the JSON document has been parsed, and the
    options that steer the index builder. */
module CocoTypes {

  /** An entry of the `categories` array; only its `id` is read. */
  datatype Category = Category(id: int)

  /** An entry of the `images` array. */
  datatype Image = Image(id: int, width: int, height: int)

  /** An entry of the `annotations` array. `bbox` holds the numbers of the
      JSON array `[x, y, w, h]` in order; the builder reads its first four. */
  datatype RawAnnotation = RawAnnotation(imageId: int, categoryId: int, bbox: seq<real>)

  /** One parsed annotations file: its three top-level arrays. */
  datatype AnnotationFile = AnnotationFile(
    categories: seq<Category>,
    images: seq<Image>,
    annotations: seq<RawAnnotation>)

  /** A stored annotation. The third and fourth coordinates are the width and
      height of the box, or its right and bottom edges when `ltrb` is set. */
  datatype Annotation = Annotation(
    left: real,
    top: real,
    widthOrRight: real,
    heightOrBottom: real,
    category: int)

  /** The operator arguments `ltrb`, `ratio` and `size_threshold`. */
  datatype Options = Options(ltrb: bool, ratio: bool, sizeThreshold: real)

  /** The schema's defaults: `ltrb=false`, `ratio=false`, `size_threshold=0.1`. */
  const DefaultOptions: Options := Options(false, false, 0.1)
}
