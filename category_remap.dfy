/** The per-file category remap: every raw category `id` of the
    `categories` array is assigned the value of a running counter. */
module CategoryRemap {
  import opened CocoTypes

  /** The map the category loop leaves behind. The loop assigns with
      `operator[]`, so a repeated id is overwritten by its later position. */
  function CategoryMap(cats: seq<Category>): map<int, int>
    decreases |cats|
  {
    if cats == [] then map[]
    else CategoryMap(cats[..|cats| - 1])[cats[|cats| - 1].id := |cats| - 1]
  }

  /** The dense category an annotation gets for a raw id: `operator[]`
      yields 0 for an id the map does not hold. */
  function CategoryOf(categories: map<int, int>, id: int): int
  {
    if id in categories then categories[id] else 0
  }

  /** No raw id occurs twice in the array. */
  predicate DistinctIds(cats: seq<Category>)
  {
    forall i, j :: 0 <= i < j < |cats| ==> cats[i].id != cats[j].id
  }

  /** The category loop: one assignment and one counter increment per entry. */
  method BuildCategoryMap(cats: seq<Category>) returns (categories: map<int, int>, counter: int)
    ensures categories == CategoryMap(cats)
    ensures counter == |cats|
  {
    categories := map[];
    counter := 0;
    for i := 0 to |cats|
      invariant counter == i
      invariant categories == CategoryMap(cats[..i])
    {
      assert cats[..i + 1][..i] == cats[..i];
      categories := categories[cats[i].id := counter];
      counter := counter + 1;
    }
    assert cats[..|cats|] == cats;
  }

  /** The map holds exactly the raw ids of the array. */
  lemma {:induction false} CategoryMapKeys(cats: seq<Category>)
    ensures CategoryMap(cats).Keys == set i | 0 <= i < |cats| :: cats[i].id
    decreases |cats|
  {
    if cats != [] {
      var front := cats[..|cats| - 1];
      CategoryMapKeys(front);
      assert forall i :: 0 <= i < |front| ==> front[i] == cats[i];
      assert (set i | 0 <= i < |cats| :: cats[i].id)
          == (set i | 0 <= i < |front| :: front[i].id) + {cats[|cats| - 1].id};
    }
  }

  /** Every raw id maps to the position of its LAST occurrence in the array. */
  lemma {:induction false} CategoryMapLastOccurrence(cats: seq<Category>, id: int)
    requires id in CategoryMap(cats)
    ensures 0 <= CategoryMap(cats)[id] < |cats|
    ensures cats[CategoryMap(cats)[id]].id == id
    ensures forall j :: CategoryMap(cats)[id] < j < |cats| ==> cats[j].id != id
    decreases |cats|
  {
    var front := cats[..|cats| - 1];
    if cats[|cats| - 1].id != id {
      CategoryMapLastOccurrence(front, id);
    }
  }

  /** A repeated raw id takes the later position: an entry at `j` that is the
      last one with its id wins over every earlier entry `i` with that id. */
  lemma RepeatedIdTakesLastPosition(cats: seq<Category>, i: int, j: int)
    requires 0 <= i < j < |cats| && cats[i].id == cats[j].id
    requires forall k :: j < k < |cats| ==> cats[k].id != cats[j].id
    ensures cats[i].id in CategoryMap(cats) && CategoryMap(cats)[cats[i].id] == j
  {
  }

  /** With distinct raw ids the map is a bijection from those ids onto
      [0, |cats|) that numbers the ids in array order. */
  lemma CategoryMapDense(cats: seq<Category>)
    requires DistinctIds(cats)
    ensures forall i :: 0 <= i < |cats| ==> cats[i].id in CategoryMap(cats) && CategoryMap(cats)[cats[i].id] == i
    ensures forall v :: v in CategoryMap(cats).Values <==> 0 <= v < |cats|
  {
    var m := CategoryMap(cats);
    CategoryMapKeys(cats);
    forall i | 0 <= i < |cats|
      ensures cats[i].id in m && m[cats[i].id] == i
    {
      assert cats[i].id in set k | 0 <= k < |cats| :: cats[k].id;
      CategoryMapLastOccurrence(cats, cats[i].id);
    }
    forall v | v in m.Values
      ensures 0 <= v < |cats|
    {
      var id :| id in m && m[id] == v;
      CategoryMapLastOccurrence(cats, id);
    }
    forall v | 0 <= v < |cats|
      ensures v in m.Values
    {
      assert m[cats[v].id] == v;
    }
  }
}
