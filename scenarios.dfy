/** Concrete inputs run through the specification functions. */
module Scenarios {
  import opened CocoTypes
  import opened CategoryRemap
  import opened ImageSizes
  import opened Normalizer
  import opened AnnotationIndex

  /** Two categories (raw ids 7 and 3), one 100x200 image, one box of category 3. */
  const OneBoxFile: AnnotationFile :=
    AnnotationFile([Category(7), Category(3)], [Image(1, 100, 200)],
                   [RawAnnotation(1, 3, [10.0, 20.0, 50.0, 60.0])])

  /** The single box of OneBoxFile under the three output conventions: raw id 3
      becomes dense category 1; `ltrb` gives right and bottom edges; `ratio`
      divides x and w by 100 and y and h by 200. */
  lemma OneBoxLookups()
    ensures AllWellFormed([OneBoxFile], DefaultOptions)
    ensures Get(BuildIndex([OneBoxFile], DefaultOptions), 1) == [Annotation(10.0, 20.0, 50.0, 60.0, 1)]
    ensures Get(BuildIndex([OneBoxFile], Options(true, false, 0.1)), 1) == [Annotation(10.0, 20.0, 60.0, 80.0, 1)]
    ensures AllWellFormed([OneBoxFile], Options(false, true, 0.1))
    ensures Get(BuildIndex([OneBoxFile], Options(false, true, 0.1)), 1) == [Annotation(0.1, 0.1, 0.5, 0.3, 1)]
    ensures Get(BuildIndex([OneBoxFile], DefaultOptions), 2) == []
  {
  }

  /** Three boxes of image 1 at the default threshold 0.1: one with both
      sides exactly at it, one with a narrower width, and one with a shorter
      height. Its raw category 5 is not among the file's categories. */
  const BoundaryFile: AnnotationFile :=
    AnnotationFile([], [Image(1, 1, 1)],
                   [RawAnnotation(1, 5, [0.0, 0.0, 0.1, 0.1]),
                    RawAnnotation(1, 5, [0.0, 0.0, 0.05, 0.1]),
                    RawAnnotation(1, 5, [0.0, 0.0, 0.1, 0.05])])

  /** A side equal to the threshold is kept and a side below it is dropped,
      whichever side it is; the unknown category is stored as 0. */
  lemma ThresholdBoundary()
    ensures AllWellFormed([BoundaryFile], DefaultOptions)
    ensures Get(BuildIndex([BoundaryFile], DefaultOptions), 1) == [Annotation(0.0, 0.0, 0.1, 0.1, 0)]
  {
    var anns := BoundaryFile.annotations;
    assert anns[..2][..1] == anns[..1] && anns[..1][..0] == [];
    assert anns[..2] == anns[..3][..2] && anns[..3] == anns;
    var cats := CategoryMap([]);
    var table := ImageTable(BoundaryFile.images);
    assert Entries(anns[..1], cats, table, DefaultOptions, 1) == [Annotation(0.0, 0.0, 0.1, 0.1, 0)];
    assert Entries(anns[..2], cats, table, DefaultOptions, 1) == [Annotation(0.0, 0.0, 0.1, 0.1, 0)];
    assert Entries(anns, cats, table, DefaultOptions, 1) == [Annotation(0.0, 0.0, 0.1, 0.1, 0)];
    assert FileEntries(BoundaryFile, DefaultOptions, 1) == [Annotation(0.0, 0.0, 0.1, 0.1, 0)];
    BuildIndexLookup([BoundaryFile], DefaultOptions, 1);
  }

  /** Category numbering is per file: the same raw id 7 is stored as category
      0 from a file that lists it first and as 1 from a file that lists it second. */
  lemma CategoriesNumberedPerFile()
    ensures var first := AnnotationFile([Category(7), Category(3)], [], [RawAnnotation(1, 7, [0.0, 0.0, 1.0, 1.0])]);
            var second := AnnotationFile([Category(3), Category(7)], [], [RawAnnotation(1, 7, [0.0, 0.0, 1.0, 1.0])]);
            AllWellFormed([first, second], DefaultOptions)
            && Get(BuildIndex([first, second], DefaultOptions), 1)
               == [Annotation(0.0, 0.0, 1.0, 1.0, 0), Annotation(0.0, 0.0, 1.0, 1.0, 1)]
  {
    var first := AnnotationFile([Category(7), Category(3)], [], [RawAnnotation(1, 7, [0.0, 0.0, 1.0, 1.0])]);
    var second := AnnotationFile([Category(3), Category(7)], [], [RawAnnotation(1, 7, [0.0, 0.0, 1.0, 1.0])]);
    assert first.annotations[..0] == [] && second.annotations[..0] == [];
    assert CategoryMap(first.categories) == map[7 := 0, 3 := 1] by {
      assert first.categories[..1] == [Category(7)];
      assert [Category(7)][..0] == [];
    }
    assert CategoryMap(second.categories) == map[3 := 0, 7 := 1] by {
      assert second.categories[..1] == [Category(3)];
      assert [Category(3)][..0] == [];
    }
    var files := [first, second];
    assert files[..1] == [first] && [first][..0] == [];
    assert AllWellFormed(files, DefaultOptions);
    assert FileEntries(first, DefaultOptions, 1) == [Annotation(0.0, 0.0, 1.0, 1.0, 0)];
    assert FileEntries(second, DefaultOptions, 1) == [Annotation(0.0, 0.0, 1.0, 1.0, 1)];
    assert AllEntries([first], DefaultOptions, 1) == [Annotation(0.0, 0.0, 1.0, 1.0, 0)];
    BuildIndexLookup(files, DefaultOptions, 1);
  }
}
