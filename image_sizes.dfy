/** The per-file image-size table: image `id` to its (width, height). */
module ImageSizes {
  import opened CocoTypes

  /** The table the image loop leaves behind. The loop adds entries with
      `insert`, which leaves an id already present untouched, so the first
      dimensions seen for an id are the ones kept. */
  function ImageTable(images: seq<Image>): map<int, (int, int)>
    decreases |images|
  {
    if images == [] then map[]
    else
      var table := ImageTable(images[..|images| - 1]);
      var image := images[|images| - 1];
      if image.id in table then table else table[image.id := (image.width, image.height)]
  }

  /** The dimensions the annotation loop reads for an image id: `operator[]`
      yields (0, 0) for an id the table does not hold. */
  function DimsOf(table: map<int, (int, int)>, id: int): (int, int)
  {
    if id in table then table[id] else (0, 0)
  }

  /** Dividing by the dimensions read for `id` is defined. */
  predicate Scalable(table: map<int, (int, int)>, id: int)
  {
    DimsOf(table, id).0 != 0 && DimsOf(table, id).1 != 0
  }

  /** The image loop: one `insert` per entry. */
  method BuildImageTable(images: seq<Image>) returns (table: map<int, (int, int)>)
    ensures table == ImageTable(images)
  {
    table := map[];
    for i := 0 to |images|
      invariant table == ImageTable(images[..i])
    {
      assert images[..i + 1][..i] == images[..i];
      var image := images[i];
      if image.id !in table {
        table := table[image.id := (image.width, image.height)];
      }
    }
    assert images[..|images|] == images;
  }

  /** The table holds exactly the image ids of the array. */
  lemma {:induction false} ImageTableKeys(images: seq<Image>)
    ensures ImageTable(images).Keys == set i | 0 <= i < |images| :: images[i].id
    decreases |images|
  {
    if images != [] {
      var front := images[..|images| - 1];
      ImageTableKeys(front);
      assert forall i :: 0 <= i < |front| ==> front[i] == images[i];
      assert (set i | 0 <= i < |images| :: images[i].id)
          == (set i | 0 <= i < |front| :: front[i].id) + {images[|images| - 1].id};
    }
  }

  /** The entry at the FIRST occurrence of an id gives that id's dimensions;
      later entries with the same id change nothing. */
  lemma {:induction false} ImageTableFirstWins(images: seq<Image>, i: int)
    requires 0 <= i < |images|
    requires forall j :: 0 <= j < i ==> images[j].id != images[i].id
    ensures images[i].id in ImageTable(images)
    ensures ImageTable(images)[images[i].id] == (images[i].width, images[i].height)
    decreases |images|
  {
    var front := images[..|images| - 1];
    if i < |images| - 1 {
      ImageTableFirstWins(front, i);
    } else {
      ImageTableKeys(front);
      assert forall j :: 0 <= j < |front| ==> front[j].id != images[i].id;
    }
  }
}
