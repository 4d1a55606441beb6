/** The annotation index `annotations_multimap_` as a value: what the
    annotation loop leaves in it after one file, after several files, and what
    a lookup by image id then returns. */
module AnnotationIndex {
  import opened CocoTypes
  import opened CategoryRemap
  import opened ImageSizes
  import opened Normalizer

  /** Image id to its annotations, in insertion order (a multimap keeps
      entries with equal keys in the order they were inserted). */
  type Index = map<int, seq<Annotation>>

  /** The annotations stored under an image id; none for an id never inserted. */
  function Get(index: Index, imageId: int): seq<Annotation>
  {
    if imageId in index then index[imageId] else []
  }

  /** The multimap's `insert`: appends under one id and touches no other id. */
  function Insert(index: Index, imageId: int, a: Annotation): (r: Index)
    ensures forall id :: Get(r, id) == if id == imageId then Get(index, id) + [a] else Get(index, id)
  {
    index[imageId := Get(index, imageId) + [a]]
  }

  /** What the annotation loop relies on: every `bbox` has the four entries it
      indexes, and under `ratio` every box that passes the filter is divided
      by non-zero dimensions (an unknown image id reads as (0, 0)). */
  predicate Ingestible(anns: seq<RawAnnotation>, table: map<int, (int, int)>, opts: Options)
  {
    forall k :: 0 <= k < |anns| ==>
      |anns[k].bbox| >= 4 &&
      (opts.ratio && Kept(anns[k].bbox, opts.sizeThreshold) ==> Scalable(table, anns[k].imageId))
  }

  /** One file satisfies that, with the image table it builds for itself. */
  predicate FileWellFormed(f: AnnotationFile, opts: Options)
  {
    Ingestible(f.annotations, ImageTable(f.images), opts)
  }

  /** Every file does. */
  predicate AllWellFormed(files: seq<AnnotationFile>, opts: Options)
  {
    forall i :: 0 <= i < |files| ==> FileWellFormed(files[i], opts)
  }

  /** The index after the annotation loop has walked `anns` in order. */
  function Ingest(index: Index, anns: seq<RawAnnotation>, categories: map<int, int>,
                  table: map<int, (int, int)>, opts: Options): Index
    requires Ingestible(anns, table, opts)
    decreases |anns|
  {
    if anns == [] then index
    else
      var before := Ingest(index, anns[..|anns| - 1], categories, table, opts);
      var a := anns[|anns| - 1];
      if Kept(a.bbox, opts.sizeThreshold)
      then Insert(before, a.imageId, Normalize(a, categories, table, opts))
      else before
  }

  /** The positions of the annotations of one image that pass the size filter. */
  function KeptPositions(anns: seq<RawAnnotation>, threshold: real, imageId: int): set<int>
  {
    set k | 0 <= k < |anns| && anns[k].imageId == imageId
                            && |anns[k].bbox| >= 4 && Kept(anns[k].bbox, threshold)
  }

  /** The normalized annotations of one image that pass the filter, in source order. */
  function Entries(anns: seq<RawAnnotation>, categories: map<int, int>,
                   table: map<int, (int, int)>, opts: Options, imageId: int): seq<Annotation>
    requires Ingestible(anns, table, opts)
    decreases |anns|
  {
    if anns == [] then []
    else
      var a := anns[|anns| - 1];
      Entries(anns[..|anns| - 1], categories, table, opts, imageId)
        + if a.imageId == imageId && Kept(a.bbox, opts.sizeThreshold)
          then [Normalize(a, categories, table, opts)] else []
  }

  /** Walking the annotations appends, under each image id, exactly that
      image's surviving annotations, after whatever the id held before. */
  lemma {:induction false} IngestLookup(index: Index, anns: seq<RawAnnotation>, categories: map<int, int>,
                                        table: map<int, (int, int)>, opts: Options, imageId: int)
    requires Ingestible(anns, table, opts)
    ensures Get(Ingest(index, anns, categories, table, opts), imageId)
         == Get(index, imageId) + Entries(anns, categories, table, opts, imageId)
    decreases |anns|
  {
    if anns != [] {
      IngestLookup(index, anns[..|anns| - 1], categories, table, opts, imageId);
    }
  }

  /** An image gets exactly as many entries as it has annotations that pass the filter. */
  lemma {:induction false} EntriesCount(anns: seq<RawAnnotation>, categories: map<int, int>,
                                        table: map<int, (int, int)>, opts: Options, imageId: int)
    requires Ingestible(anns, table, opts)
    ensures |Entries(anns, categories, table, opts, imageId)| == |KeptPositions(anns, opts.sizeThreshold, imageId)|
    decreases |anns|
  {
    if anns != [] {
      var n := |anns| - 1;
      var front := anns[..n];
      EntriesCount(front, categories, table, opts, imageId);
      var before := KeptPositions(front, opts.sizeThreshold, imageId);
      var after := KeptPositions(anns, opts.sizeThreshold, imageId);
      assert n !in before;
      if anns[n].imageId == imageId && Kept(anns[n].bbox, opts.sizeThreshold) {
        assert after == before + {n};
      } else {
        assert after == before;
      }
    }
  }

  /** Every entry is the normalized form of an annotation of that image that
      passed the filter. */
  lemma {:induction false} EntriesSound(anns: seq<RawAnnotation>, categories: map<int, int>,
                                        table: map<int, (int, int)>, opts: Options, imageId: int)
    requires Ingestible(anns, table, opts)
    ensures forall e :: e in Entries(anns, categories, table, opts, imageId) ==>
              exists k :: k in KeptPositions(anns, opts.sizeThreshold, imageId)
                       && e == Normalize(anns[k], categories, table, opts)
    decreases |anns|
  {
    if anns != [] {
      var n := |anns| - 1;
      var front := anns[..n];
      EntriesSound(front, categories, table, opts, imageId);
      forall k | k in KeptPositions(front, opts.sizeThreshold, imageId)
        ensures k in KeptPositions(anns, opts.sizeThreshold, imageId) && front[k] == anns[k]
      {
      }
    }
  }

  /** Every annotation of that image that passes the filter is there. */
  lemma {:induction false} EntriesComplete(anns: seq<RawAnnotation>, categories: map<int, int>,
                                           table: map<int, (int, int)>, opts: Options, imageId: int)
    requires Ingestible(anns, table, opts)
    ensures forall k :: k in KeptPositions(anns, opts.sizeThreshold, imageId) ==>
              Normalize(anns[k], categories, table, opts) in Entries(anns, categories, table, opts, imageId)
    decreases |anns|
  {
    if anns != [] {
      var n := |anns| - 1;
      var front := anns[..n];
      EntriesComplete(front, categories, table, opts, imageId);
      forall k | k in KeptPositions(anns, opts.sizeThreshold, imageId) && k < n
        ensures k in KeptPositions(front, opts.sizeThreshold, imageId) && front[k] == anns[k]
      {
      }
    }
  }

  /** Order and multiplicity: the entries are the kept positions enumerated in
      increasing order, each once, the `j`-th entry normalized from the `j`-th
      kept position. */
  lemma {:induction false} EntriesInOrder(anns: seq<RawAnnotation>, categories: map<int, int>,
                                          table: map<int, (int, int)>, opts: Options, imageId: int)
    returns (ps: seq<int>)
    requires Ingestible(anns, table, opts)
    ensures |ps| == |Entries(anns, categories, table, opts, imageId)|
    ensures forall j :: 0 <= j < |ps| ==>
              && 0 <= ps[j] < |anns| && anns[ps[j]].imageId == imageId
              && Kept(anns[ps[j]].bbox, opts.sizeThreshold)
              && Entries(anns, categories, table, opts, imageId)[j] == Normalize(anns[ps[j]], categories, table, opts)
    ensures forall j1, j2 :: 0 <= j1 < j2 < |ps| ==> ps[j1] < ps[j2]
    ensures forall k :: k in KeptPositions(anns, opts.sizeThreshold, imageId) ==> k in ps
    decreases |anns|
  {
    if anns == [] {
      ps := [];
    } else {
      var n := |anns| - 1;
      var front := anns[..n];
      var before := EntriesInOrder(front, categories, table, opts, imageId);
      var es := Entries(anns, categories, table, opts, imageId);
      var esFront := Entries(front, categories, table, opts, imageId);
      assert forall j :: 0 <= j < |esFront| ==> es[j] == esFront[j];
      assert forall j :: 0 <= j < |before| ==> front[before[j]] == anns[before[j]];
      if anns[n].imageId == imageId && Kept(anns[n].bbox, opts.sizeThreshold) {
        ps := before + [n];
        assert es[|before|] == Normalize(anns[n], categories, table, opts);
      } else {
        ps := before;
      }
      forall k | k in KeptPositions(anns, opts.sizeThreshold, imageId)
        ensures k in ps
      {
        if k < n {
          assert k in KeptPositions(front, opts.sizeThreshold, imageId);
        }
      }
    }
  }

  /** The index after one file: its own category map and image table, then its annotations. */
  function IndexFile(index: Index, f: AnnotationFile, opts: Options): Index
    requires FileWellFormed(f, opts)
  {
    Ingest(index, f.annotations, CategoryMap(f.categories), ImageTable(f.images), opts)
  }

  /** The index after every file, in order, starting from an empty one. */
  function BuildIndex(files: seq<AnnotationFile>, opts: Options): Index
    requires AllWellFormed(files, opts)
    decreases |files|
  {
    if files == [] then map[]
    else IndexFile(BuildIndex(files[..|files| - 1], opts), files[|files| - 1], opts)
  }

  /** The surviving annotations of one image in one file, numbered with that file's categories. */
  function FileEntries(f: AnnotationFile, opts: Options, imageId: int): seq<Annotation>
    requires FileWellFormed(f, opts)
  {
    Entries(f.annotations, CategoryMap(f.categories), ImageTable(f.images), opts, imageId)
  }

  /** Those of every file, file after file. */
  function AllEntries(files: seq<AnnotationFile>, opts: Options, imageId: int): seq<Annotation>
    requires AllWellFormed(files, opts)
    decreases |files|
  {
    if files == [] then []
    else AllEntries(files[..|files| - 1], opts, imageId) + FileEntries(files[|files| - 1], opts, imageId)
  }

  /** How many annotations of one image pass the filter, summed over all files. */
  function TotalKept(files: seq<AnnotationFile>, opts: Options, imageId: int): nat
    decreases |files|
  {
    if files == [] then 0
    else TotalKept(files[..|files| - 1], opts, imageId)
         + |KeptPositions(files[|files| - 1].annotations, opts.sizeThreshold, imageId)|
  }

  /** A lookup in the finished index returns the image's surviving annotations
      of the first file, then of the second, and so on. */
  lemma {:induction false} BuildIndexLookup(files: seq<AnnotationFile>, opts: Options, imageId: int)
    requires AllWellFormed(files, opts)
    ensures Get(BuildIndex(files, opts), imageId) == AllEntries(files, opts, imageId)
    decreases |files|
  {
    if files != [] {
      var f := files[|files| - 1];
      BuildIndexLookup(files[..|files| - 1], opts, imageId);
      IngestLookup(BuildIndex(files[..|files| - 1], opts), f.annotations,
                   CategoryMap(f.categories), ImageTable(f.images), opts, imageId);
    }
  }

  /** The number of entries of an image is the number of its annotations that
      pass the filter, over all files; an image with none has an empty list. */
  lemma {:induction false} BuildIndexCount(files: seq<AnnotationFile>, opts: Options, imageId: int)
    requires AllWellFormed(files, opts)
    ensures |Get(BuildIndex(files, opts), imageId)| == TotalKept(files, opts, imageId)
    ensures TotalKept(files, opts, imageId) == 0 ==> Get(BuildIndex(files, opts), imageId) == []
    decreases |files|
  {
    BuildIndexLookup(files, opts, imageId);
    AllEntriesCount(files, opts, imageId);
  }

  lemma {:induction false} AllEntriesCount(files: seq<AnnotationFile>, opts: Options, imageId: int)
    requires AllWellFormed(files, opts)
    ensures |AllEntries(files, opts, imageId)| == TotalKept(files, opts, imageId)
    decreases |files|
  {
    if files != [] {
      var f := files[|files| - 1];
      AllEntriesCount(files[..|files| - 1], opts, imageId);
      EntriesCount(f.annotations, CategoryMap(f.categories), ImageTable(f.images), opts, imageId);
    }
  }

  /** Later files only append: what an image held after the first `i` files is
      a prefix of what it holds at the end. */
  lemma {:induction false} BuildIndexAppendOnly(files: seq<AnnotationFile>, i: int, opts: Options, imageId: int)
    requires AllWellFormed(files, opts) && 0 <= i <= |files|
    ensures AllWellFormed(files[..i], opts)
    ensures Get(BuildIndex(files[..i], opts), imageId) <= Get(BuildIndex(files, opts), imageId)
    decreases |files|
  {
    if i < |files| {
      var front := files[..|files| - 1];
      var f := files[|files| - 1];
      assert front[..i] == files[..i];
      BuildIndexAppendOnly(front, i, opts, imageId);
      IngestLookup(BuildIndex(front, opts), f.annotations,
                   CategoryMap(f.categories), ImageTable(f.images), opts, imageId);
    } else {
      assert files[..i] == files;
    }
  }

  /** Every entry of the finished index comes from one annotation of that
      image, in some file, that passed the filter, normalized with that
      file's own category map and image table. */
  lemma {:induction false} BuildIndexSound(files: seq<AnnotationFile>, opts: Options, imageId: int)
    requires AllWellFormed(files, opts)
    ensures forall e :: e in Get(BuildIndex(files, opts), imageId) ==>
              exists i, k :: 0 <= i < |files|
                          && k in KeptPositions(files[i].annotations, opts.sizeThreshold, imageId)
                          && e == Normalize(files[i].annotations[k], CategoryMap(files[i].categories),
                                            ImageTable(files[i].images), opts)
    decreases |files|
  {
    BuildIndexLookup(files, opts, imageId);
    if files != [] {
      var n := |files| - 1;
      var f := files[n];
      BuildIndexSound(files[..n], opts, imageId);
      BuildIndexLookup(files[..n], opts, imageId);
      EntriesSound(f.annotations, CategoryMap(f.categories), ImageTable(f.images), opts, imageId);
      forall e | e in FileEntries(f, opts, imageId)
        ensures exists k :: k in KeptPositions(files[n].annotations, opts.sizeThreshold, imageId)
                         && e == Normalize(files[n].annotations[k], CategoryMap(files[n].categories),
                                           ImageTable(files[n].images), opts)
      {
      }
    }
  }

  /** Every annotation, in any file, that passes the filter is in the finished
      index under its own image id. */
  lemma {:induction false} BuildIndexComplete(files: seq<AnnotationFile>, opts: Options, i: int, k: int)
    requires AllWellFormed(files, opts) && 0 <= i < |files|
    requires 0 <= k < |files[i].annotations|
    requires Kept(files[i].annotations[k].bbox, opts.sizeThreshold)
    ensures Normalize(files[i].annotations[k], CategoryMap(files[i].categories), ImageTable(files[i].images), opts)
            in Get(BuildIndex(files, opts), files[i].annotations[k].imageId)
  {
    var f := files[i];
    var imageId := f.annotations[k].imageId;
    assert k in KeptPositions(f.annotations, opts.sizeThreshold, imageId);
    EntriesComplete(f.annotations, CategoryMap(f.categories), ImageTable(f.images), opts, imageId);
    var upTo := files[..i + 1];
    assert upTo[..i] == files[..i] && upTo[i] == f;
    BuildIndexAppendOnly(files, i + 1, opts, imageId);
    assert BuildIndex(upTo, opts) == IndexFile(BuildIndex(files[..i], opts), f, opts);
    IngestLookup(BuildIndex(files[..i], opts), f.annotations,
                 CategoryMap(f.categories), ImageTable(f.images), opts, imageId);
    var e := Normalize(f.annotations[k], CategoryMap(f.categories), ImageTable(f.images), opts);
    var partial, whole := Get(BuildIndex(upTo, opts), imageId), Get(BuildIndex(files, opts), imageId);
    assert e in partial;
    var j :| 0 <= j < |partial| && partial[j] == e;
    assert whole[j] == e;
  }
}
