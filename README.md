# COCOCustomReader annotation index, modelled in Dafny

This project models how the `COCOCustomReader` operator of the RetinaNet
training code builds its annotation index. The constructor reads one or more
COCO-style annotations files and fills the member `annotations_multimap_`,
which maps an image id to that image's bounding boxes. It does four things for
each file, and files are processed in order:

1. **Category remap.** Every raw category `id` of the `categories` array is
   assigned a running counter. The map is rebuilt for every file.
2. **Image-size table.** Every image `id` is mapped to `(width, height)`.
   This table is also rebuilt for every file.
3. **Annotation loop.** Each entry of `annotations`, in order, goes through
   these steps:
   - its category is remapped;
   - its box is dropped when its original width or height is strictly below
     `size_threshold`;
   - its box is optionally converted from `[x, y, w, h]` to
     `[left, top, right, bottom]` (`ltrb`);
   - its box is optionally divided by the image's width and height (`ratio`).
4. **Index insert.** Each surviving annotation is appended to the index under
   its `image_id`, after the entries that earlier files and earlier
   annotations put there.

Modules:

- `CocoTypes` (`coco_types.dfy`): the parsed records, the stored `Annotation`
  and the options. The defaults from the operator schema are `ltrb=false`,
  `ratio=false` and `size_threshold=0.1`.
- `CategoryRemap` (`category_remap.dfy`): the function `CategoryMap`, the
  loop `BuildCategoryMap`, and the lemmas that describe the map.
- `ImageSizes` (`image_sizes.dfy`): the function `ImageTable`, the loop
  `BuildImageTable`, and the lemmas that describe the table.
- `Normalizer` (`normalizer.dfy`): the size filter `Kept`, the conversions
  and their inverses, the in-place box steps `TransformBox`, and `Normalize`,
  the annotation that gets stored.
- `AnnotationIndex` (`annotation_index.dfy`): the index as a value. `Ingest`
  covers one annotation loop, `IndexFile` one file, and `BuildIndex` all
  files. `Entries` is a per-image reference definition, and the lemmas
  connect the two.
- `Reader` (`reader.dfy`): the class `CocoCustomReader`. Its field
  `annotations` is the multimap. The constructor loops over the files, and
  `AddFile` is one pass of that loop, with the annotation loop run in place
  on the field.
- `Scenarios` (`scenarios.dfy`): concrete inputs worked through the
  specification.

Behaviour of the code that the model keeps:

- **Repeated category ids.** The code assigns with `operator[] =`, so a
  repeated id gets the position of its last occurrence. The counter still
  advances for every entry.
- **Repeated image ids.** The code adds entries with `insert`, so a repeated
  id keeps its first dimensions.
- **Unknown `category_id`.** This is not an error. `operator[]` inserts 0 and
  returns it (`CategoryRemap.CategoryOf`). `AddFile` models that insertion
  into its local copy of the map, and its loop invariant shows that the
  insertion changes no later lookup.
- **Unknown `image_id` under `ratio`.** `operator[]` reads it as `(0, 0)`
  (`ImageSizes.DimsOf`), and the code then divides by zero. The model
  requires non-zero dimensions for every kept box under `ratio`
  (`Ingestible`).
- **`ratio` divides every component.** Under `ratio`, the box
  `[10, 20, 50, 60]` on a 100x200 image is stored as `[0.1, 0.1, 0.5, 0.3]`,
  because `x` and `w` are divided by the width and `y` and `h` by the height
  (`Scenarios.OneBoxLookups`).

## Model

| member | source | states |
|---|---|---|
| `CategoryRemap.BuildCategoryMap` | csrc/dali/coco_custom_reader.h:70-74 | the category loop leaves exactly the map `CategoryMap(categories)`, and the counter ends at the length of the `categories` array |
| `CategoryRemap.CategoryMapKeys` | csrc/dali/coco_custom_reader.h:72-74 | the map's keys are exactly the raw ids in the array |
| `CategoryRemap.CategoryMapLastOccurrence` | csrc/dali/coco_custom_reader.h:73 | every id maps to a position in `[0, n)` that holds that id, and no later position holds it (assignment overwrites, so the last occurrence wins) |
| `CategoryRemap.RepeatedIdTakesLastPosition` | csrc/dali/coco_custom_reader.h:73 | an id at positions `i < j`, where `j` is its last occurrence, maps to `j`, not `i` |
| `CategoryRemap.CategoryMapDense` | csrc/dali/coco_custom_reader.h:70-74 | with distinct raw ids, the id at position `i` maps to `i`, and the values are exactly `[0, n)`: a bijection assigned in array order |
| `ImageSizes.BuildImageTable` | csrc/dali/coco_custom_reader.h:77-81 | the image loop, using `insert`, leaves exactly the table `ImageTable(images)` |
| `ImageSizes.ImageTableKeys` | csrc/dali/coco_custom_reader.h:78-80 | the table's keys are exactly the image ids in the array |
| `ImageSizes.ImageTableFirstWins` | csrc/dali/coco_custom_reader.h:79-80 | the first occurrence of an id gives that id's `(width, height)`, and later duplicates change nothing |
| `Normalizer.TransformBox` | csrc/dali/coco_custom_reader.h:97-108 | the in-place `+=` and `/=` steps on the copied box give exactly `StoredBox`: the `ltrb` conversion, then under `ratio` the division by the image's width and height (`ImageSizes.DimsOf`, `(0, 0)` for an unknown id), which is read only in that case |
| `Normalizer.Normalize` | csrc/dali/coco_custom_reader.h:86-111 | the stored category is `CategoryRemap.CategoryOf`: the remapped id, or 0 for an unknown id. Multiplying the stored box back by the image size (1 without `ratio`) gives `x`, `y` and either `w`, `h`, or `x+w`, `y+h` with `ltrb`. So the conversion comes before the division |
| `Normalizer.LtrbRoundTrip` | csrc/dali/coco_custom_reader.h:97-100 | the `ltrb` conversion is undone by subtracting `x` and `y` back out |
| `Normalizer.RatioRoundTrip` | csrc/dali/coco_custom_reader.h:102-108 | multiplying back by width and height recovers the box from before the division |
| `Normalizer.RatioWithinUnit` | csrc/dali/coco_custom_reader.h:102-108 | under `ratio`, a box that lies inside its image is stored with every coordinate in `[0, 1]`, with or without `ltrb` |
| `AnnotationIndex.Insert` | csrc/dali/coco_custom_reader.h:110-111 | an insert appends the annotation under its own image id and leaves every other id's list unchanged |
| `AnnotationIndex.IngestLookup` | csrc/dali/coco_custom_reader.h:84-112 | after the annotation loop, each image id's list is its old list followed by that image's surviving annotations in source order (`Entries`) |
| `AnnotationIndex.EntriesCount` | csrc/dali/coco_custom_reader.h:93-95 | an image gets exactly as many entries as it has annotations whose original `w` and `h` are both at least the threshold (the filter `Normalizer.Kept`, strict `<` rejects) |
| `AnnotationIndex.EntriesSound` | csrc/dali/coco_custom_reader.h:84-111 | every entry is the normalized form of an annotation of that image that passed the filter |
| `AnnotationIndex.EntriesComplete` | csrc/dali/coco_custom_reader.h:84-111 | every annotation of that image that passed the filter has its normalized form among the entries |
| `AnnotationIndex.EntriesInOrder` | csrc/dali/coco_custom_reader.h:84-111 | order and multiplicity: there is a strictly increasing sequence of positions, covering every kept position of that image, whose `j`-th element is the annotation the `j`-th entry is normalized from, so each kept annotation appears once and in source order |
| `AnnotationIndex.BuildIndexLookup` | csrc/dali/coco_custom_reader.h:61-113 | after all files, an image id's list is that image's surviving annotations from the first file, then the second, and so on |
| `AnnotationIndex.AllEntriesCount` | csrc/dali/coco_custom_reader.h:61-112 | the concatenated per-file entries number the kept annotations summed over files |
| `AnnotationIndex.BuildIndexCount` | csrc/dali/coco_custom_reader.h:84-112 | an image id has exactly as many entries as it has kept annotations over all files, and an id with none has an empty list |
| `AnnotationIndex.BuildIndexAppendOnly` | csrc/dali/coco_custom_reader.h:61-113 | what an image id held after the first `i` files is a prefix of what it holds at the end: later files never remove or change entries |
| `AnnotationIndex.BuildIndexSound` | csrc/dali/coco_custom_reader.h:61-111 | every entry of the finished index comes from a kept annotation of that image in some file, normalized with that file's own category map and image table |
| `AnnotationIndex.BuildIndexComplete` | csrc/dali/coco_custom_reader.h:61-111 | every kept annotation in every file is in the finished index, under its own image id |
| `Reader.CocoCustomReader.constructor` | csrc/dali/coco_custom_reader.h:50-113 | starting from an empty index, the file loop leaves `annotations == BuildIndex(files, options)` |
| `Reader.CocoCustomReader.AddFile` | csrc/dali/coco_custom_reader.h:61-112 | one pass of the file loop builds a fresh category map and image table, then runs the annotation loop in place on the index, inserting 0 into its copy of the category map for an unknown id; it leaves `annotations == IndexFile(old(annotations), file, options)` and appends the file to the ingested ones |
| `Reader.CocoCustomReader.Lookup` | csrc/dali/coco_custom_reader.h:110-111 | reading the index by image id gives that image's surviving annotations over all ingested files, in order, as many as passed the filter |
| `Scenarios.OneBoxLookups` | csrc/dali/coco_custom_reader.h:70-111 | categories `[7, 3]`, one 100x200 image, and box `[10, 20, 50, 60]` of category 3 give `[10, 20, 50, 60]` with category 1. With `ltrb` they give `[10, 20, 60, 80]`, and with `ratio` `[0.1, 0.1, 0.5, 0.3]`. An image id with no annotations gives `[]` |
| `Scenarios.ThresholdBoundary` | csrc/dali/coco_custom_reader.h:84-111 | of three boxes of one image run through `BuildIndex` at the default threshold 0.1, only the one with both sides equal to 0.1 is stored; a width or a height of 0.05 drops the box, and its unknown category is stored as 0 |
| `Scenarios.CategoriesNumberedPerFile` | csrc/dali/coco_custom_reader.h:61-74 | the same raw category id is stored as 0 from one file and as 1 from another that lists it second |

## Left out

- Reading and parsing the JSON files (csrc/dali/coco_custom_reader.h:63-67) is not modelled. The model takes already-parsed, typed records as input. json11's defaults for missing or ill-typed fields (`int_value()` giving 0, for example) are not modelled either.
- The `push_back` loop that copies the JSON `bbox` array into a vector is modelled as copying the sequence.
- `RunImpl` and the handoff of the index to `COCOParser` (csrc/dali/coco_custom_reader.h:115-120) are reader plumbing. Their sources are not part of this model.
- The `skip_cached_images` check and the unused `shuffle_after_epoch` argument (csrc/dali/coco_custom_reader.h:52, 58-59) do not affect the index. The same goes for the `save_img_ids` output and the operator registration in csrc/dali/coco_custom_reader.cpp.
- Coordinates are `real`, not 32-bit floats. So the model has no rounding in `+=` and `/=`, no double-to-float conversion of JSON numbers, and no gap between `0.1f` and 0.1.
- Under `ratio`, the source divides by zero when an image is unknown (read as `(0, 0)`) or has a zero side, and stores infinities or NaN. Over the reals this division is undefined. `Ingestible`, which `AddFile` and the constructor require, therefore asks that every kept box under `ratio` have non-zero dimensions.
- `Ingestible` also asks that every `bbox` have at least four entries. The source indexes `bbox[2]` and `bbox[3]` without checking, which is undefined behaviour for a shorter array.
- The index is a `map` from image id to a sequence. The multimap's order between different image ids is not modelled. Only the insertion order within one id is, and that is what a lookup returns.
- `operator[]` on the image-size table inserts `(0, 0)` for an unknown id. This insertion is not modelled, because the requirement above rules out reaching that lookup with an unknown id.
