# CustomLayout: a verified model of a hand-written collection view layout

This project models `CustomLayout`, the layout class in
`CollectionView/CustomCollectionViewController.swift`. The class computes
layout attributes for a collection view by hand and caches them. It also
models the composed supplementary-view factory that sits beside it in the
same file.

With UIKit removed, the layout is a small geometry engine with a cache:

- `prepare()` reads the number of items in each section and the screen width.
  It computes:
  - a content size;
  - two supplementary frames, "Left" and "Right", side by side in a
    200-point band at the top;
  - one full-width row per item, 40 points high (`Cell.debugHeight`,
    `CollectionView/ViewController.swift:111-113`), below the band.
- The results live in a `LayoutInfo` struct. It holds three optional
  dictionaries keyed by index path: items, left and right.
- `clear()`, `invalidateLayout()` and the no-data paths of `prepare()` empty
  the dictionaries that are present. Absent dictionaries stay absent.
- `layoutAttributesForElements(in:)` returns the stored attributes whose
  frame intersects a rectangle. Items come first, then the right view, then
  the left view.
- `layoutAttributesForItem(at:)` and
  `layoutAttributesForSupplementaryView(ofKind:at:)` are dictionary lookups.
  An unknown kind is a fatal error.
- `ComposedCollectionSupplementaryViewFactory` reports one reuse identifier,
  "Supplementary". It routes "Left" views to one factory and "Right" views to
  the other. Any other kind is a fatal error.

Files:

- `Options.dfy`: Swift optionals.
- `Geometry.dfy`: rectangles and sizes with exact `real` coordinates, and the
  model's reading of `CGRect.intersects`.
- `Layout.dfy`:
  - the attributes and the `LayoutInfo` value with its clear and lookup
    operations;
  - the functions that say what `prepare()` computes;
  - the rect query, as a method over one dictionary;
  - the `CustomLayout` class, whose fields `layoutInfo` and `contentSize`
    are updated in place by `Prepare` and `Invalidate`.
- `LayoutProperties.dfy`: lemmas about the frames, the band, the lookups and
  the query.
- `SupplementaryFactory.dfy`: the composed factory and its dispatch rule.

Modelling choices:

- UIKit inputs become parameters:
  - `collectionView` is the optional per-section counts. `None` means there
    is no collection view.
  - `UIScreen.main.bounds.width` is the `screenWidth` parameter.
- `CGRect.intersects` is read as "the x intervals and the y intervals
  overlap strictly". Two rectangles that share only an edge do not
  intersect. A rectangle of zero width or height that lies strictly inside
  another does intersect it. CoreGraphics' exact edge rule is not part of
  this model.
- A fatal error on an unknown kind becomes a precondition.
- Swift dictionaries iterate in an unspecified order. The query method picks
  entries in an arbitrary order, and its contract holds for every order. A
  ghost sequence of keys records the order that was taken.
- The row `y` uses the item index within its section, not a running count
  (line 144). With more than one section, rows with the same item index land
  on the same frame, while the content height counts every item.
  `RowsCollideAcrossSections`, `RowsEndAboveContent` and `TwoSectionsShareARow` state this. The
  app's fetched-results controller has no section key path, so it always
  has one section.

## Model

| member | source | states |
|---|---|---|
| `Geometry.Intersects` | CollectionView/CustomCollectionViewController.swift:165 | The model's reading of `CGRect.intersects`: the x intervals and the y intervals overlap strictly, so rectangles sharing only an edge do not intersect. When both rectangles have non-negative size, intersecting rectangles share a point: the larger origin x with the larger origin y. |
| `Geometry.StackedDoNotIntersect` | CollectionView/CustomCollectionViewController.swift:165 | Under the intersection reading, a rectangle that ends at or above another's top does not intersect it, in either order. |
| `Layout.ClearMap` | CollectionView/CustomCollectionViewController.swift:67-69 | `?.removeAll()` on one dictionary: a present dictionary becomes empty and an absent one stays absent. |
| `Layout.LayoutInfo.Cleared` | CollectionView/CustomCollectionViewController.swift:66-70 | `clear()` leaves every dictionary empty, keeps a present dictionary present, and keeps an absent one absent. |
| `Layout.LayoutInfo.ItemAt` | CollectionView/CustomCollectionViewController.swift:179-182 | An item lookup returns the stored attributes exactly when the item dictionary exists and holds the key; otherwise it returns nil. |
| `Layout.LayoutInfo.SupplementaryAt` | CollectionView/CustomCollectionViewController.swift:184-194 | "Left" reads the left dictionary and "Right" reads the right one, with nil for an absent dictionary or key. Any other kind is excluded, as it is a fatal error. |
| `Layout.Total` | CollectionView/CustomCollectionViewController.swift:94-102 | `totalNumberOfObjects`, the sum of the per-section counts. It is zero exactly when every section is empty, which is the no-data exit at lines 104-108. |
| `Layout.RowFrame` | CollectionView/CustomCollectionViewController.swift:144-145 | The frame of item i's row: x = 0, full width, 40 high, y = i*40 + 200, ending at (i+1)*40 + 200. The section plays no part. A row of a non-negative index starts at or below the band. |
| `Layout.CellAttributes` | CollectionView/CustomCollectionViewController.swift:142-147 | The attributes of a cell: its own index path, the cell category, the row frame of its item index, and zIndex = item. |
| `Layout.LeftAttributes` | CollectionView/CustomCollectionViewController.swift:122-132 | The "Left" view at (section 0, item 0) fills the left half of the band: x from 0 to w/2 and y from 0 to 200. |
| `Layout.RightAttributes` | CollectionView/CustomCollectionViewController.swift:122-133 | The "Right" view at (section 0, item 0) fills the right half of the band: x from w/2 to w and y from 0 to 200. |
| `Layout.ItemKeys` | CollectionView/CustomCollectionViewController.swift:137-142 | The nested loops visit exactly the index paths (s, i) with s < number of sections and i < count of section s. |
| `Layout.ItemMap` | CollectionView/CustomCollectionViewController.swift:137-152 | The item dictionary has exactly those keys. Each entry is a cell at x = 0, y = item*40 + 200, full width, 40 high, with zIndex = item. |
| `Layout.PreparedInfo` | CollectionView/CustomCollectionViewController.swift:120-152 | The cache a non-empty prepare stores. All three dictionaries are present. The item dictionary's keys are exactly the collection's index paths, and the left and right dictionaries each hold the single key (0, 0). |
| `Layout.PreparedSize` | CollectionView/CustomCollectionViewController.swift:110-127 | The content size of a non-empty prepare: the screen width, and a height of total*40 + 200. The height always covers the band, and covers the band plus one row when there is an item. |
| `Layout.MatchingKeys` | CollectionView/CustomCollectionViewController.swift:160-169 | The keys whose stored frame intersects the rect. An absent dictionary has none. |
| `Layout.IntersectingIn` | CollectionView/CustomCollectionViewController.swift:160-169 | Whatever order the entries are visited in, the result holds only stored attributes that intersect the rect. It holds every one of them, and its length equals the number of matching keys. The ghost key order lists each matching key once, and the result is the values under those keys in that order. An absent dictionary yields nothing. |
| `Layout.EnumeratedValuesFilter` | CollectionView/CustomCollectionViewController.swift:164-168 | Appending the value of each matching key once, in any order, produces exactly such a filter result. |
| `Layout.CustomLayout.constructor` | CollectionView/CustomCollectionViewController.swift:73-79 | A new layout has no dictionaries and a zero content size. |
| `Layout.CustomLayout.Invalidate` | CollectionView/CustomCollectionViewController.swift:85-88 | Invalidation clears the cache as `clear()` does and leaves the content size unchanged. |
| `Layout.CustomLayout.Prepare` | CollectionView/CustomCollectionViewController.swift:90-154 | With no collection view or zero items, the content size becomes zero and the cache is cleared. Otherwise the content size is (screen width, total*40 + 200). The three dictionaries are replaced wholesale by the prepared ones, so no earlier entry survives. |
| `Layout.CustomLayout.ElementsIn` | CollectionView/CustomCollectionViewController.swift:156-177 | The result splits into three parts. First come the intersecting items, then the intersecting right views, then the intersecting left views. The part lengths are the numbers of matching keys in each dictionary. Each part is a filter result of its dictionary, and absent dictionaries contribute nothing. The layout is not changed. |
| `LayoutProperties.TotalCoversSection` | CollectionView/CustomCollectionViewController.swift:100-102 | The total summed over all sections is at least the count of any single section. |
| `LayoutProperties.TotalCoversTwoSections` | CollectionView/CustomCollectionViewController.swift:100-102 | The total is at least the sum of the counts of any two distinct sections. |
| `LayoutProperties.RowInsideContent` | CollectionView/CustomCollectionViewController.swift:114-145 | Every row starts at or below the band and ends within the prepared content height. |
| `LayoutProperties.RowsAdjacentInSection` | CollectionView/CustomCollectionViewController.swift:144-145 | Within a section, row i+1 starts exactly where row i ends. |
| `LayoutProperties.RowsDisjointInSection` | CollectionView/CustomCollectionViewController.swift:141-148 | Within a section, two distinct rows do not intersect. |
| `LayoutProperties.RowsCollideAcrossSections` | CollectionView/CustomCollectionViewController.swift:141-148 | Items with equal item index in different sections get identical frames, and with a positive width these frames intersect. |
| `LayoutProperties.RowsEndAboveContent` | CollectionView/CustomCollectionViewController.swift:101-144 | Once two distinct sections are non-empty, every row ends strictly above the content height. The height (lines 101, 114, 127) counts all items, but a row's y (line 144) counts only its item index within its section. |
| `LayoutProperties.TwoSectionsShareARow` | CollectionView/CustomCollectionViewController.swift:100-148 | For counts [1, 1] and width 320, items (0,0) and (1,0) both get the frame (0, 200, 320, 40), while the content height is 280. |
| `LayoutProperties.BandTiled` | CollectionView/CustomCollectionViewController.swift:122-136 | For a non-negative width, the left frame (0, 0, w/2, 200) and the right frame (w/2, 0, w/2, 200) do not overlap. They meet at w/2, and together they cover exactly the band [0,w]x[0,200]. |
| `LayoutProperties.RowsBelowBand` | CollectionView/CustomCollectionViewController.swift:122-148 | No item row intersects either supplementary frame. |
| `LayoutProperties.PreparedItemLookup` | CollectionView/CustomCollectionViewController.swift:141-152 | After a non-empty prepare, an item lookup returns the cell attributes exactly for the items of the collection and nil for every other index path. |
| `LayoutProperties.PreparedSupplementaryLookup` | CollectionView/CustomCollectionViewController.swift:129-136 | After a non-empty prepare, each kind has exactly one entry, at (section 0, item 0), holding that kind's frame. |
| `LayoutProperties.ClearedLookups` | CollectionView/CustomCollectionViewController.swift:66-70 | After clearing, every item lookup and every supplementary lookup returns nil. |
| `LayoutProperties.ClearedIdempotent` | CollectionView/CustomCollectionViewController.swift:66-70 | Clearing an already cleared cache changes nothing. |
| `LayoutProperties.BandQueryHasNoRows` | CollectionView/CustomCollectionViewController.swift:156-177 | For a query rect that ends within the band, no item of a prepared layout matches. Every filter result of the item dictionary is then empty. |
| `LayoutProperties.WholeContentQueryFindsAll` | CollectionView/CustomCollectionViewController.swift:156-177 | For a positive width, a query over the whole content rect matches every item of the collection. It also matches each supplementary view at (0, 0). |
| `SupplementaryFactory.ComposedFactory.ReuseIdentifierFor` | CollectionView/CustomCollectionViewController.swift:27-29 | The reuse identifier is "Supplementary", the `SupplementaryCell` identifier, for every view type and index path. |
| `SupplementaryFactory.ReuseIdentifierMatchesConfigured` | CollectionView/CustomCollectionViewController.swift:27-43 | For a known kind, the composed identifier equals the identifier of the factory the view is routed to exactly when that factory also uses "Supplementary". So the two agree when both parts carry "Supplementary", as the factories built at lines 252-260 do. They disagree whenever the factory the view is routed to carries another identifier. |
| `SupplementaryFactory.ComposedFactory.Configure` | CollectionView/CustomCollectionViewController.swift:31-44 | A "Left" supplementary view goes to the left factory and a "Right" one to the right factory. Every other view type is excluded, as it is a fatal error. |
| `SupplementaryFactory.ConfigureMatchesBuiltKind` | CollectionView/CustomCollectionViewController.swift:36-40 | Take a left factory built for "Left" views and a right factory built for "Right" views, as at lines 252-262. Then each known kind is routed to the factory built for that very kind. |
| `SupplementaryFactory.PreparedSupplementariesRouted` | CollectionView/CustomCollectionViewController.swift:36-43 | Every supplementary attribute of a prepared layout carries the kind it was looked up by. The composed factory routes that kind to the factory of the same side. |

## Left out

- `collectionViewContentSize` returns the `contentSize` field unchanged. The model reads the `CustomLayout.contentSize` field directly instead.
- UIKit view machinery is not modelled: cell and supplementary view classes, labels, constraints, view registration and `viewDidLoad` wiring. These are framework calls with no visible logic.
- `prepare(forCollectionViewUpdates:)` and `finalizeCollectionViewUpdates` only call the superclass and log, so they are not modelled.
- Core Data and JSQDataSourcesKit are not modelled: the fetch request, the fetched-results controller, the persistent container and the `Item` entity. Their behaviour belongs to foreign libraries.
- The view factories' configuration closures, which set the label text, are not modelled. A factory is reduced to its reuse identifier and view type.
- `CollectionViewLayout` in `CollectionView/ViewController.swift` is not modelled. It only adjusts results that `UICollectionViewFlowLayout` computes out of sight.
- The hard-coded array data source in `CollectionView/ViewController.swift` is not modelled.
- Debug `print` calls are not modelled.
- `Layout.CustomLayout.Prepare` takes the per-section counts as one fixed input. The collection view cannot disappear halfway through, so the fatal error inside the second loop (lines 138-140) cannot be reached in the model.
- `Layout.CustomLayout.Prepare` counts are natural numbers. Swift's `Int` overflow of the running total is not modelled.
- `Layout.CustomLayout.Prepare` does not keep the screen height, which the source assigns and then overwrites at once (lines 112-116).
- `Geometry.Intersects` uses exact real arithmetic instead of `CGFloat` rounding. It does not model CoreGraphics' handling of null, infinite or negative-size rectangles.
- `UICollectionViewLayoutAttributes` is a reference type: the cache stores the objects (lines 135-136, 148) and the queries return those same objects (lines 166, 181, 188, 190), so a caller that mutated a returned object would change the cache. The model's `Attributes` is a value, so this aliasing is not captured; nothing in the layout mutates an object after storing it.
- Attributes carry only the index path, category, frame and zIndex. Other `UICollectionViewLayoutAttributes` properties keep their framework defaults and are not modelled. The supplementary views' zIndex is that default, 0.
