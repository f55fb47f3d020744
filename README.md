# PickNik shelf, order loader and tactile cache — a verified model

This project models three sequential parts of the PickNik Amazon Picking
Challenge software and proves properties of them.

- **The shelf inventory database** (`picknik_main/src/shelf.cpp`):
  - The shelf's `bins_` map goes from bin name to a possibly null bin handle. It is kept as the `std::map`'s entries in ascending key order, so that `getAllProducts`' order is the real one.
  - Each bin holds an ordered vector of product handles. Products are objects: `deleteProduct` compares handles by identity, while the lookups compare names.
  - `operator[]` inserts a null entry for an unknown name. This side effect of `getBin`, `getProduct` and the loader is part of the model.
  - The layout part of `initialize`:
    - the wall loop, which appends four walls and builds three columns of four bins with `insertBinHelper`;
    - the surface loop, which appends five surfaces.

    It is exact arithmetic on reals, over the dimensions `initialize` reads.
- **The order loader** (`picknik_main/src/amazon_json_parser.cpp`):
  - `parse`, `parseBins` and `parseWorkOrders` walk an already parsed JSON tree: null, string, array or object.
  - `parseBins` pushes one fresh product per listed name onto the end of its bin.
  - `parseWorkOrders` appends one `WorkOrder` per element of `"work_order"`.
  - Each failure is an early `false` that keeps what was already done. Where jsoncpp would throw (`asString` on an array, `operator[]` on an array), the model's outcome is `Raised`.
- **The tactile sample cache** (`picknik_main/src/tactile_feedback.cpp`):
  - `dataCallback` is a single-slot, last-write-wins cell. It drops samples shorter than `ALWAYS_AT_END`; an accepted sample replaces the cache, redraws the sheer angle and fires the optional user callback once.
  - Alongside it are the pixel-to-metre scaling, the sheer-arrow clamp and the line-angle fold.

Modules:
- `Wrappers`: Option.
- `StringOrder`: `std::string`'s `<`, as a strict total order.
- `ShelfLayout`: names and geometry as pure functions.
- `Shelf`: the `ProductObject`, `BinObject` and `ShelfObject` classes.
- `AmazonJson`: the JSON tree and the loader.
- `Tactile`: the `TactileFeedback` class and its formulas.

Methods that change state are stated against pure functions:
- `Concat` for `getAllProducts`;
- `RemoveAt`/`IndexOf` for `deleteProduct`;
- `Built`/`ExpectedBinBox` for the layout;
- `RunOrders`/`Decide` for the work-order loop;
- `Receive`/`ReceiveAll` for the cache.

Lemmas state what those functions mean.

Where the code does something a reader might not expect, the model follows the code as written:
- The surfaces' top-left corner is set to (shelf width, shelf depth, z), as the source writes it.
- The wall loop advances `previous_y` by the whole current wall width. So a column is flush with the next wall only when the two walls are equally wide; `ShelfLayout.ColumnMeetsNextWall` states the gap exactly.
- `parse` treats a null `"bin_contents"` or `"work_order"` as missing, because jsoncpp's `operator!` tests for null.

## Model

| member | source | states |
|---|---|---|
| ShelfLayout.ByteCharInjective | picknik_main/src/shelf.cpp:444-446 | two letter values in the signed `char` range -128..127 that convert to the same `char` are equal |
| ShelfLayout.BinName | picknik_main/src/shelf.cpp:441-446 | the name of bin `id` is `"bin_"` followed by the single character `65 + num_bins - id - 1` (mod 256) |
| ShelfLayout.GetBinName | picknik_main/src/shelf.cpp:636-641 | `getBin(id)` looks up `"bin_"` followed by the character `64 + id` (mod 256) |
| ShelfLayout.GetBinFindsInsertedBin | picknik_main/src/shelf.cpp:636-641 | `getBin(num_bins - id)` asks for exactly the name `insertBinHelper` gave bin `id` |
| ShelfLayout.BinNamesDistinct | picknik_main/src/shelf.cpp:441-446 | distinct ids whose letters fit a `char` get distinct names |
| ShelfLayout.TwelveBinLetters | picknik_main/src/shelf.cpp:441-446 | with 12 bins, ids 0..11 are named `bin_L` down to `bin_A` |
| ShelfLayout.ColumnNames | picknik_main/src/shelf.cpp:295-307 | column `wall_id` holds the bins with ids `wall_id + 0, 3, 6, 9`, bottom row first |
| ShelfLayout.ColumnNamesDistinct | picknik_main/src/shelf.cpp:295-307 | the four bins of a column get four different names |
| ShelfLayout.ColumnNamesDisjoint | picknik_main/src/shelf.cpp:255-309 | no bin of one column is named like a bin of another column |
| ShelfLayout.PreviousY | picknik_main/src/shelf.cpp:251-291 | `previous_y` at the start of wall iteration `wall_id`: half an outer wall, then each iteration adds its column's width and its wall's width; its properties are `ColumnStartsAtWall`, `ColumnMeetsNextWall` and `ShelfSpan` |
| ShelfLayout.WallBox | picknik_main/src/shelf.cpp:266-278 | wall `wall_id` is centred in y on `previous_y`, as wide as its wall width, from the front to `shelf_depth` and from `first_bin_from_bottom` to `shelf_height` |
| ShelfLayout.BinZ | picknik_main/src/shelf.cpp:296-306 | `bin_z` of each row of a column: `first_bin_from_bottom`, then a tall and two short rows stacked; `RowsStack` states the stacking |
| ShelfLayout.BinBox | picknik_main/src/shelf.cpp:453-468 | the corners `insertBinHelper` gives a bin from `wall_y`, `bin_z`, width and height; `BinShape` states its extent |
| ShelfLayout.ColumnBoxes | picknik_main/src/shelf.cpp:295-307 | each bin of a column gets `bin_z` of its row (tall, short, short, tall stacking) and its row's height |
| ShelfLayout.BinShape | picknik_main/src/shelf.cpp:453-468 | a bin's bottom right is `(0, wall_y, bin_z)`, its top left is `bin_depth` deep, it spans the column width in y, and in z it spans the row height less the surface thickness |
| ShelfLayout.SurfaceZ | picknik_main/src/shelf.cpp:311-338 | `previous_z` at the start of surface iteration `i`: `first_bin_from_bottom`, then each iteration adds its row's height; `BinsSitBetweenSurfaces` and `TopSurface` state where it lands |
| ShelfLayout.SurfacePart | picknik_main/src/shelf.cpp:312-330 | surface `i` is named `surface_i`, has its top-left corner at (shelf width, shelf depth, `previous_z`) and its underside one surface thickness lower |
| ShelfLayout.Digit | picknik_main/src/shelf.cpp:257 | `lexical_cast` of a one-digit index is a single character, the decimal digit whose value is the index |
| ShelfLayout.DigitsDistinct | picknik_main/src/shelf.cpp:257 | different one-digit indices are written as different digits |
| ShelfLayout.PartNamesDistinct | picknik_main/src/shelf.cpp:255-340 | the four walls get four different names `wall_i`, and the five surfaces five different names `surface_i` |
| ShelfLayout.BinIdsDistinct | picknik_main/src/shelf.cpp:295-307 | `wall_id + 3 * row` over 3 columns and 4 rows stays below 12 and gives different ids to different places |
| ShelfLayout.BinIdsCover | picknik_main/src/shelf.cpp:295-307 | every id in 0..11 is `wall_id + 3 * row` for some column and row, so with the lemma above each id is used exactly once |
| ShelfLayout.TwelveBinNames | picknik_main/src/shelf.cpp:295-307 | with 12 bins every letter fits a `char`, and the layout's bin names are exactly `bin_A` to `bin_L` |
| ShelfLayout.RowsStack | picknik_main/src/shelf.cpp:296-306 | each row's `bin_z` is the row below's `bin_z` plus that row's height |
| ShelfLayout.BinsSitBetweenSurfaces | picknik_main/src/shelf.cpp:312-340 | every bin starts at the top of the surface of its row, and ends at the underside of the surface above |
| ShelfLayout.TopSurface | picknik_main/src/shelf.cpp:312-340 | the top surface lies two tall and two short rows above the first bin |
| ShelfLayout.ColumnStartsAtWall | picknik_main/src/shelf.cpp:266-279 | each column starts at the left face of the wall to its right |
| ShelfLayout.ColumnMeetsNextWall | picknik_main/src/shelf.cpp:291 | between a column's end and the next wall the gap is half this wall's width less half the next one's; between a column's end and the next column's start it is half of both walls' widths |
| ShelfLayout.ShelfSpan | picknik_main/src/shelf.cpp:251-291 | the last wall's far face is at two outer walls, two inner walls and the three column widths |
| Shelf.FirstIndex | picknik_main/src/shelf.cpp:84-96 | the index of the first element meeting a test, with none before it; None exactly when no element meets it |
| Shelf.FirstIndexIs | picknik_main/src/shelf.cpp:84-96 | any index meeting the test with none before it is the first index |
| Shelf.FirstNamed | picknik_main/src/shelf.cpp:84-96 | the product `getProduct` finds by name: the first one so named, null if none; `FirstNamedMeaning` states it |
| Shelf.FirstNamedMeaning | picknik_main/src/shelf.cpp:84-96 | the first product of a name is null exactly when no product has that name; otherwise it is a product of that name with none of that name before it |
| Shelf.BinObject.GetProduct | picknik_main/src/shelf.cpp:84-96 | `getProduct(name)` returns the first product named `name`, null when there is none |
| Shelf.BinObject.GetProductNames | picknik_main/src/shelf.cpp:75-82 | `getProducts(names)` yields exactly one name per product, in stored order |
| Shelf.RemoveAt | picknik_main/src/shelf.cpp:683-694 | erasing position `i` drops that element and shifts the rest down by one, in order |
| Shelf.IndexOf | picknik_main/src/shelf.cpp:687-689 | the position of the first handle identical to the one to delete; `RemoveFirstOccurrence` and `DeleteProduct` state what erasing there does |
| Shelf.RemoveFirstOccurrence | picknik_main/src/shelf.cpp:683-694 | erasing the first identical handle removes exactly one copy of it and keeps every other handle |
| Shelf.ShelfObject.DeleteProduct | picknik_main/src/shelf.cpp:683-700 | succeeds exactly when the handle is in the bin, and then erases its first occurrence; otherwise it fails and leaves the products unchanged |
| Shelf.ConcatLength | picknik_main/src/shelf.cpp:668-681 | the flattened list is as long as all bins together |
| Shelf.ConcatSplit | picknik_main/src/shelf.cpp:668-681 | flattening splits at any bin boundary, so the bins appear in order |
| Shelf.Concat | picknik_main/src/shelf.cpp:668-681 | the bins' product lists joined in order; `ConcatLength` and `ConcatSplit` state its length and order |
| Shelf.ShelfObject.GetAllProducts | picknik_main/src/shelf.cpp:668-681 | on a map whose entries all hold a bin it returns true; the output is every bin's products concatenated, bins in ascending key order |
| Shelf.KeyIndexAt | picknik_main/src/shelf.cpp:639-640 | in a key-ascending map, the entry at a position is the one found under its key |
| Shelf.InsertNewKeyMap | picknik_main/src/shelf.cpp:451 | inserting a new key at its place in the order keeps the keys ascending and adds exactly that key |
| Shelf.MapOfMeaning | picknik_main/src/shelf.cpp:639-640 | the map holds a key exactly when an entry has it, with that entry's handle |
| Shelf.ShelfObject.LowerBound | picknik_main/src/shelf.cpp:639-640 | the position of a key in the ordered map: smaller keys before it, larger after it, and the key itself there exactly when it is present |
| Shelf.ShelfObject.Subscript | picknik_main/src/shelf.cpp:639-640 | `bins_[key]` returns the stored handle; an absent key is inserted with a null handle and nothing else changes |
| Shelf.ShelfObject.GetBin | picknik_main/src/shelf.cpp:636-641 | `getBin(id)` is `bins_["bin_" + char(64 + id)]`, with the same insertion of a null entry |
| Shelf.ShelfObject.GetProduct | picknik_main/src/shelf.cpp:643-666 | null when the bin is unknown (which leaves a null entry under that name) or has no product of that name; otherwise the bin's first product of that name |
| Shelf.ShelfObject.InsertBinHelper | picknik_main/src/shelf.cpp:441-471 | builds a bin with the reversed letter name and the corners from `wall_y`, `bin_z`, width and height, and inserts it unless the name is taken |
| Shelf.InsertKeepsBinsDistinct | picknik_main/src/shelf.cpp:451 | inserting a fresh bin or a null keeps every bin under a single name |
| Shelf.DistinctNamesDistinctBins | picknik_main/src/amazon_json_parser.cpp:110 | two different names of the map never share a bin, so filling one bin leaves the others alone |
| Shelf.ColumnPlaced | picknik_main/src/shelf.cpp:295-307 | four new distinct names add exactly those keys, keep every other entry, and each name holds its own bin, the one stored under it |
| Shelf.NextColumnFree | picknik_main/src/shelf.cpp:255-309 | after `c` columns, none of column `c`'s names is taken |
| Shelf.ColumnStep | picknik_main/src/shelf.cpp:255-309 | placing column `c` takes the map from `c` built columns to `c + 1` |
| Shelf.ShelfObject.InsertColumn | picknik_main/src/shelf.cpp:295-307 | the four `insertBinHelper` calls add exactly the column's four names, each holding a bin with its row's corners, and keep every other entry; the four bins are new and hold no products |
| Shelf.ShelfObject.AppendSurfaces | picknik_main/src/shelf.cpp:311-340 | appends the five surfaces `surface_0` to `surface_4` in order, each at its running `previous_z`, and leaves the map alone |
| Shelf.ShelfObject.Initialize | picknik_main/src/shelf.cpp:250-340 | appends the four walls, then the five surfaces, to `shelf_parts_`; the map then holds exactly the twelve layout names, each with the bin of the expected corners, and every one of those bins is new and holds no products |
| AmazonJson.Member | picknik_main/src/amazon_json_parser.cpp:51 | `value[key]` gives the stored member on an object that has the key, and null on null or when the key is absent; on any other kind it raises |
| AmazonJson.AsString | picknik_main/src/amazon_json_parser.cpp:102 | `asString()` gives a string's own text and `""` for null; on an array or object it raises |
| AmazonJson.ProductNames | picknik_main/src/amazon_json_parser.cpp:100-102 | a bin's list gives `size()` names, element `i` being `bin[i].asString()` |
| AmazonJson.HandlesAreBins | picknik_main/src/amazon_json_parser.cpp:110 | the handles the shelf's map holds are its bins, all allocated |
| AmazonJson.FillBin | picknik_main/src/amazon_json_parser.cpp:100-111 | pushes one new product per listed name, in list order, onto the end of the bin, keeping the products already there; the new products are fresh and pairwise different objects |
| AmazonJson.FillRecorded | picknik_main/src/amazon_json_parser.cpp:100-111 | the same pushes, recording for each new product the bin and position it went to, so that no product is added twice |
| AmazonJson.Visit | picknik_main/src/amazon_json_parser.cpp:88-112 | one pass of the loop over the bin names: the named bin, when the shelf has it, gets its listed products; no other bin changes and the bins already visited keep theirs |
| AmazonJson.VisitAll | picknik_main/src/amazon_json_parser.cpp:88-112 | after the loop every named bin of the shelf holds its products from before the loop followed by its listed products, and every other bin is as before |
| AmazonJson.FillBins | picknik_main/src/amazon_json_parser.cpp:88-112 | the loop over bins that no two names share yields `Filled`: the listed products appended, each a different new object, across all bins, and unlisted bins unchanged |
| AmazonJson.ParseBins | picknik_main/src/amazon_json_parser.cpp:82-115 | every bin named under `"bin_contents"` gets its listed products appended, each a new product different from every other new one; every other bin is unchanged, and an empty entry may name a bin the shelf does not have |
| AmazonJson.Decide | picknik_main/src/amazon_json_parser.cpp:123-157 | a non-object element is rejected; a `"bin"` or `"item"` that is not a string or null raises; an unknown or null bin is `UnknownBin`; a bin without a product of that name is `UnknownProduct`; otherwise the order is that bin and its first product so named |
| AmazonJson.RunOrders | picknik_main/src/amazon_json_parser.cpp:121-163 | the orders appended are the orders of the elements before the first failing one, in array order; that element's outcome ends the run, and the run is Parsed with one order per element when none fails |
| AmazonJson.RunStopsAtFailure | picknik_main/src/amazon_json_parser.cpp:125-154 | after a failing element nothing more is read: the run equals the run of the prefix |
| AmazonJson.RunExtends | picknik_main/src/amazon_json_parser.cpp:157-160 | one more element either appends its order or ends the run with its outcome |
| AmazonJson.RunEndsAt | picknik_main/src/amazon_json_parser.cpp:125-154 | the first element that yields no order fixes the whole run: the earlier orders, then its outcome |
| AmazonJson.RunSucceedsIffEveryOrder | picknik_main/src/amazon_json_parser.cpp:121-163 | the run succeeds exactly when every element yields an order, and then order `j` is element `j`'s |
| AmazonJson.RunSucceedsIffFulfillable | picknik_main/src/amazon_json_parser.cpp:121-163 | the run succeeds exactly when every element is an object whose `"bin"` names a bin of the shelf holding a product named by its `"item"` |
| AmazonJson.ReadOrder | picknik_main/src/amazon_json_parser.cpp:123-154 | one loop pass yields what Decide says; only an unknown bin name changes the map, by adding a null entry |
| AmazonJson.ParseWorkOrders | picknik_main/src/amazon_json_parser.cpp:117-164 | returns the run's outcome, appends its orders after the existing ones, and changes the map only by the null entry of an unknown bin name |
| AmazonJson.Parse | picknik_main/src/amazon_json_parser.cpp:50-80 | missing `"bin_contents"` fails before anything is read; once loaded, the bins stay filled whatever happens next; a missing or non-array `"work_order"` fails with no orders and the same map; otherwise the outcome and orders are those of the work-order run, and the map changes only by the null entry of an unknown bin name |
| Tactile.Trunc | picknik_main/src/tactile_feedback.cpp:165-166 | passing a double as an `int` truncates toward zero |
| Tactile.PixelToMeters | picknik_main/src/tactile_feedback.cpp:224-241 | x scales by 0.01595 over the image width and y by 0.01668 over the image height; z is unchanged |
| Tactile.PixelToMetersRoundTrip | picknik_main/src/tactile_feedback.cpp:224-241 | scaling back by the image size over the pad size restores the pixel position |
| Tactile.PixelToMetersLinear | picknik_main/src/tactile_feedback.cpp:176-177 | differences of converted points are the converted differences |
| Tactile.ArrowLength | picknik_main/src/tactile_feedback.cpp:190-194 | the sheer arrow's length: the force capped at 20, scaled by 0.5/20; `ArrowLengthClamped` and `ArrowLengthMonotone` state its bounds |
| Tactile.ArrowLengthClamped | picknik_main/src/tactile_feedback.cpp:190-195 | the arrow is `min(20, force) * 0.5/20`: proportional below 20, 0.5 from 20 on, and never longer than 0.5 |
| Tactile.ArrowLengthMonotone | picknik_main/src/tactile_feedback.cpp:193-194 | a larger force never draws a shorter arrow |
| Tactile.FoldLineAngle | picknik_main/src/tactile_feedback.cpp:122-126 | an angle above π/2 is turned back by π; `FoldLineAngleBounded` and `FoldLineAngleIdempotent` state what that gives |
| Tactile.FoldLineAngleBounded | picknik_main/src/tactile_feedback.cpp:122-130 | for an angle in atan2's range, the folded angle is at most π/2, differs from the input by 0 or π, and equals the input exactly when the input is at most π/2 |
| Tactile.FoldLineAngleIdempotent | picknik_main/src/tactile_feedback.cpp:122-126 | folding an angle in atan2's range a second time changes nothing |
| Tactile.LineAngle | picknik_main/src/tactile_feedback.cpp:117-130 | the drawn line angle lies between -π and π/2 |
| Tactile.SheerTheta | picknik_main/src/tactile_feedback.cpp:146-180 | the sheer angle from the image centre and the sheer point, both converted to metres; `SheerThetaScaled` states it in pixels |
| Tactile.SheerThetaScaled | picknik_main/src/tactile_feedback.cpp:146-180 | the sheer angle is atan2 of the pixel displacement from the image centre, each axis scaled to metres |
| Tactile.Receive | picknik_main/src/tactile_feedback.cpp:49-58 | one sample arriving: a sample shorter than `ALWAYS_AT_END` is dropped, any other replaces the cache |
| Tactile.ReceiveAll | picknik_main/src/tactile_feedback.cpp:49-58 | a stream of samples arriving, the first one first; the three lemmas below state the cache it leaves |
| Tactile.NothingAcceptedKeepsCache | picknik_main/src/tactile_feedback.cpp:49-55 | a stream of samples that are all too short leaves the cache as it was |
| Tactile.LastAcceptedWins | picknik_main/src/tactile_feedback.cpp:49-58 | after a stream, the cache is the last accepted sample |
| Tactile.ReceiveAllKeepsLength | picknik_main/src/tactile_feedback.cpp:26-58 | a cache with at least `ALWAYS_AT_END` entries keeps that many, whatever arrives |
| Tactile.AcceptedCount | picknik_main/src/tactile_feedback.cpp:49-65 | the number of accepted samples of a stream, at most one per sample; with a callback registered it is how often the callback fires |
| Tactile.AcceptedCountStep | picknik_main/src/tactile_feedback.cpp:49-65 | the count of a stream grows by the count of each sample as it arrives, which is what each `dataCallback` call adds to the callback counter |
| Tactile.AcceptedCountNone | picknik_main/src/tactile_feedback.cpp:49-65 | the callback never fires exactly when no sample is accepted, and fires once per sample exactly when all are accepted |
| Tactile.TactileFeedback.constructor | picknik_main/src/tactile_feedback.cpp:24-27 | the cache starts as `ALWAYS_AT_END` zeros and the sheer angle as 0 |
| Tactile.TactileFeedback.DisplaySheerForce | picknik_main/src/tactile_feedback.cpp:144-197 | stores the sheer angle of the cached sample and draws an arrow of the clamped length, leaving the cache alone |
| Tactile.TactileFeedback.DataCallback | picknik_main/src/tactile_feedback.cpp:46-66 | a short sample changes nothing and fires no callback; any other replaces the cache exactly, redraws the sheer angle and fires a registered callback once; the callback counter grows by the sample's `AcceptedCount` when a callback is registered |

## Left out

- Parameter loading in `initialize` (shelf.cpp:120-204) goes through the ROS parameter server. The dimensions are a `ShelfParams` value fixed when the shelf is built.
- The rest of `initialize` is not modelled. This covers the base part, the goal bin, meshes and collision bodies. It is Eigen geometry and rviz I/O.
- Only the translations of the layout's transforms are modelled. A surface's bottom-right x and y keep the `RectangleObject` defaults, which are not part of this model.
- Shelf.ShelfObject.GetAllProducts requires every entry of the map to hold a bin. The source dereferences each entry's handle, so a null entry left by `operator[]` for an unknown name (in `getBin`, `getProduct` or the order loader) crashes it; that crash is not modelled.
- `getWorldPose`, `getBinToWorld` and transform composition are 3-D floating-point geometry and are not modelled.
- The `visualize*` and `publish*` code is not modelled. It is rviz I/O.
- File opening and `Json::Reader` text parsing in `parse` (amazon_json_parser.cpp:32-48) are not modelled; the model starts from the parsed tree. JSON numbers and booleans are not in the tree.
- `parseBins` visits members in `getMemberNames` order. The model visits them in an unspecified order, which does not show in the result, because each member names a different bin.
- AmazonJson.ParseBins requires that every entry under `"bin_contents"` is readable, and that an entry listing at least one product names a non-null bin of the shelf. Otherwise the source throws in jsoncpp or dereferences a null handle; neither is modelled. Empty entries may name any bin.
- `displayLineDirection`'s line points and arrow (tactile_feedback.cpp:68-117) are not modelled, because `dataCallback` does not call it (its call at line 60 is commented out). Only its angle fold is modelled.
- Tactile.TactileFeedback.DataCallback requires the image size of an accepted sample to truncate to nonzero integers. With a zero, the source divides by zero, and floating-point infinities and NaN are not modelled.
- Tactile.PixelToMeters requires a nonzero width and height, for the same reason.
- All doubles are modelled as exact reals, so rounding is not modelled. `num_bins` is a double in the source and an integer here.
- `ALWAYS_AT_END` and the channel indices come from `tactile_feedback.h`, which is not part of this model. They are a `Channels` value, given when the object is built.
- `atan2`, `getSheerForce`, the pose conversions and the arrow and sphere publishing are not modelled. The angle function and the force are inputs.
- The ROS subscription and publication, `recalibrateTactileSensor`, and the callback's thread context (tactile_feedback.cpp:29-44) are not modelled.
- The user callback is modelled by a count of how often it fired.
