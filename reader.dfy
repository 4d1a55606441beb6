/** The reader object whose constructor builds `annotations_multimap_`. */
module Reader {
  import opened CocoTypes
  import opened CategoryRemap
  import opened ImageSizes
  import opened Normalizer
  import opened AnnotationIndex

  class CocoCustomReader {
    /** `annotations_multimap_`: image id to its annotations. */
    var annotations: Index
    /** The files ingested so far, and the options they were ingested with. */
    ghost var files: seq<AnnotationFile>
    ghost var options: Options

    /** The index is exactly what the ingested files build. */
    ghost predicate Valid()
      reads this
    {
      AllWellFormed(files, options) && annotations == BuildIndex(files, options)
    }

    /** The constructor: every annotations file, in order, into one index. */
    constructor (annotationFiles: seq<AnnotationFile>, opts: Options)
      requires AllWellFormed(annotationFiles, opts)
      ensures Valid()
      ensures files == annotationFiles && options == opts
      ensures annotations == BuildIndex(annotationFiles, opts)
    {
      annotations := map[];
      files := [];
      options := opts;
      new;
      for i := 0 to |annotationFiles|
        invariant files == annotationFiles[..i] && options == opts
        invariant Valid()
      {
        AddFile(annotationFiles[i], opts);
      }
      assert annotationFiles[..|annotationFiles|] == annotationFiles;
    }

    /** One pass of the file loop: a fresh category map and image table for
        this file, then the annotation loop, which remaps the category, drops
        a box below the size threshold, converts and scales the rest, and
        inserts each under its image id. */
    method AddFile(f: AnnotationFile, opts: Options)
      requires Valid() && opts == options
      requires FileWellFormed(f, opts)
      modifies this
      ensures Valid() && options == old(options)
      ensures files == old(files) + [f]
      ensures annotations == IndexFile(old(annotations), f, opts)
    {
      var categories, counter := BuildCategoryMap(f.categories);
      var imageSizes := BuildImageTable(f.images);
      ghost var remap := categories;
      var anns := f.annotations;
      for i := 0 to |anns|
        invariant files == old(files) && options == old(options)
        invariant annotations == Ingest(old(annotations), anns[..i], remap, imageSizes, opts)
        invariant forall id :: CategoryOf(categories, id) == CategoryOf(remap, id)
      {
        var raw := anns[i];
        assert anns[..i + 1][..i] == anns[..i] && anns[..i + 1][i] == raw;
        ghost var next := Ingest(old(annotations), anns[..i + 1], remap, imageSizes, opts);
        var imageId := raw.imageId;
        // `operator[]` on the category map inserts 0 for an unknown id.
        var category: int;
        if raw.categoryId in categories {
          category := categories[raw.categoryId];
        } else {
          categories := categories[raw.categoryId := 0];
          category := 0;
        }
        if raw.bbox[2] < opts.sizeThreshold || raw.bbox[3] < opts.sizeThreshold {
          assert next == annotations;
          continue;
        }
        var bbox := TransformBox(raw.bbox, opts, imageSizes, imageId);
        var a := Annotation(bbox[0], bbox[1], bbox[2], bbox[3], category);
        assert next == Insert(annotations, imageId, a);
        annotations := Insert(annotations, imageId, a);
      }
      assert anns[..|anns|] == anns;
      ghost var grown := files + [f];
      assert grown[..|grown| - 1] == files && grown[|grown| - 1] == f;
      files := grown;
    }

    /** The annotations of one image: those that passed the filter in the
        first file, then in the second, and so on; as many as passed, and
        none for an image that has none. */
    function Lookup(imageId: int): (r: seq<Annotation>)
      reads this
      requires Valid()
      ensures r == AllEntries(files, options, imageId)
      ensures |r| == TotalKept(files, options, imageId)
    {
      BuildIndexLookup(files, options, imageId);
      BuildIndexCount(files, options, imageId);
      Get(annotations, imageId)
    }
  }
}
