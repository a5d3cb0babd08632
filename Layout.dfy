/**
 The hand-written collection view layout `CustomLayout`: two supplementary
 views ("Left" and "Right") side by side in a band at the top, then one
 full-width row per item, and a cache of the computed attributes keyed by
 index path.
 */
module Layout {
  import opened Options
  import opened Geometry

  /** `Cell.debugHeight`: the height of every item row. */
  const CellHeight: real := 40.0
  /** The height of the band that holds the two supplementary views. */
  const SupplementaryHeight: real := 200.0

  const LeftKind: string := "Left"
  const RightKind: string := "Right"

  /** The supplementary view kinds the layout and the data source know about. */
  predicate IsKnownKind(kind: string)
  {
    kind == LeftKind || kind == RightKind
  }

  datatype IndexPath = IndexPath(section: int, item: int)

  /** Both supplementary views sit at item 0 of section 0. */
  const SupplementaryIndexPath: IndexPath := IndexPath(0, 0)

  /** What an attributes object describes: a cell, or a supplementary view of some kind. */
  datatype Category = CellCategory | SupplementaryCategory(kind: string)

  /** A `UICollectionViewLayoutAttributes` reduced to what this layout sets. */
  datatype Attributes = Attributes(indexPath: IndexPath, category: Category, frame: Rect, zIndex: int)

  type AttributeMap = map<IndexPath, Attributes>

  /** Empties a dictionary that is present and leaves an absent one absent (`m?.removeAll()`). */
  function ClearMap(m: Option<AttributeMap>): (r: Option<AttributeMap>)
    ensures r.Some? == m.Some?
    ensures r.Some? ==> r.value == map[]
  {
    if m.Some? then Some(map[]) else None
  }

  /**
   The attribute cache (`CustomLayout.LayoutInfo`). It is a Swift struct, that
   is a value, so clearing it yields a new value.
   */
  datatype LayoutInfo = LayoutInfo(items: Option<AttributeMap>, left: Option<AttributeMap>, right: Option<AttributeMap>)
  {
    /** Every dictionary that is present is empty. */
    predicate IsEmpty()
    {
      && (items.Some? ==> items.value == map[])
      && (left.Some? ==> left.value == map[])
      && (right.Some? ==> right.value == map[])
    }

    /** `clear()`: empties the present dictionaries, keeps absent ones absent. */
    function Cleared(): (r: LayoutInfo)
      ensures r.IsEmpty()
      ensures r.items.Some? == items.Some? && r.left.Some? == left.Some? && r.right.Some? == right.Some?
    {
      LayoutInfo(ClearMap(items), ClearMap(left), ClearMap(right))
    }

    /** `layoutAttributesForItem(at:)`: nil when the dictionary or the key is absent. */
    function ItemAt(ip: IndexPath): (r: Option<Attributes>)
      ensures r.Some? <==> items.Some? && ip in items.value
      ensures r.Some? ==> r.value == items.value[ip]
    {
      if items.Some? && ip in items.value then Some(items.value[ip]) else None
    }

    /**
     `layoutAttributesForSupplementaryView(ofKind:at:)`: reads the left
     dictionary for "Left", the right one for "Right"; any other kind is a
     fatal error, hence the precondition.
     */
    function SupplementaryAt(kind: string, ip: IndexPath): (r: Option<Attributes>)
      requires IsKnownKind(kind)
      ensures var m := if kind == LeftKind then left else right;
              (r.Some? <==> m.Some? && ip in m.value) && (r.Some? ==> r.value == m.value[ip])
    {
      var m := if kind == LeftKind then left else right;
      if m.Some? && ip in m.value then Some(m.value[ip]) else None
    }
  }

  /** A freshly created layout caches nothing. */
  const InitialInfo: LayoutInfo := LayoutInfo(None, None, None)

  // ---------------------------------------------------------------------
  // What `prepare()` computes, as functions of its inputs

  /** The number of items over all sections (`totalNumberOfObjects`); zero exactly when every section is empty. */
  function Total(counts: seq<nat>): (total: nat)
    ensures total == 0 <==> forall s :: 0 <= s < |counts| ==> counts[s] == 0
  {
    if |counts| == 0 then 0 else Total(counts[..|counts| - 1]) + counts[|counts| - 1]
  }

  /** `ip` names an item of a collection with these per-section counts. */
  predicate InLayout(counts: seq<nat>, ip: IndexPath)
  {
    0 <= ip.section < |counts| && 0 <= ip.item < counts[ip.section]
  }

  function ItemKeys(counts: seq<nat>): (keys: set<IndexPath>)
    ensures forall ip :: ip in keys <==> InLayout(counts, ip)
  {
    set s, i | 0 <= s < |counts| && 0 <= i < counts[s] :: IndexPath(s, i)
  }

  /** The frame of the row of item `item`; the section plays no part. */
  function RowFrame(item: int, width: real): (r: Rect)
    ensures r.x == 0.0 && r.MaxX() == width && r.height == CellHeight
    ensures r.MaxY() == ((item + 1) as real) * CellHeight + SupplementaryHeight
    ensures item >= 0 ==> r.y >= SupplementaryHeight
  {
    Rect(0.0, (item as real) * CellHeight + SupplementaryHeight, width, CellHeight)
  }

  /** The attributes of a cell: its own index path, its row, and the item index as zIndex. */
  function CellAttributes(ip: IndexPath, width: real): (a: Attributes)
    ensures a.indexPath == ip && a.category == CellCategory && a.zIndex == ip.item
    ensures ip.item >= 0 ==> a.frame.y >= SupplementaryHeight
  {
    Attributes(ip, CellCategory, RowFrame(ip.item, width), ip.item)
  }

  /** The "Left" view fills the left half of the band. */
  function LeftAttributes(width: real): (a: Attributes)
    ensures a.indexPath == SupplementaryIndexPath && a.category == SupplementaryCategory(LeftKind)
    ensures a.frame.x == 0.0 && a.frame.MaxX() == width / 2.0
    ensures a.frame.y == 0.0 && a.frame.MaxY() == SupplementaryHeight
  {
    Attributes(SupplementaryIndexPath, SupplementaryCategory(LeftKind), Rect(0.0, 0.0, width / 2.0, SupplementaryHeight), 0)
  }

  /** The "Right" view fills the right half of the band. */
  function RightAttributes(width: real): (a: Attributes)
    ensures a.indexPath == SupplementaryIndexPath && a.category == SupplementaryCategory(RightKind)
    ensures a.frame.x == width / 2.0 && a.frame.MaxX() == width
    ensures a.frame.y == 0.0 && a.frame.MaxY() == SupplementaryHeight
  {
    Attributes(SupplementaryIndexPath, SupplementaryCategory(RightKind), Rect(width / 2.0, 0.0, width / 2.0, SupplementaryHeight), 0)
  }

  /** The item dictionary `prepare()` builds: one row per item of the collection. */
  function ItemMap(counts: seq<nat>, width: real): (m: AttributeMap)
    ensures m.Keys == ItemKeys(counts)
    ensures forall ip :: ip in m ==> InLayout(counts, ip) && m[ip] == CellAttributes(ip, width)
  {
    map ip | ip in ItemKeys(counts) :: CellAttributes(ip, width)
  }

  /** The cache after a `prepare()` over a non-empty collection. */
  function PreparedInfo(counts: seq<nat>, width: real): (info: LayoutInfo)
    ensures info.items.Some? && info.left.Some? && info.right.Some?
    ensures info.items.value.Keys == ItemKeys(counts)
    ensures info.left.value.Keys == {SupplementaryIndexPath} && info.right.value.Keys == {SupplementaryIndexPath}
  {
    LayoutInfo(Some(ItemMap(counts, width)),
               Some(map[SupplementaryIndexPath := LeftAttributes(width)]),
               Some(map[SupplementaryIndexPath := RightAttributes(width)]))
  }

  /** The content size after a `prepare()` over a non-empty collection. */
  function PreparedSize(counts: seq<nat>, width: real): (size: Size)
    ensures size.width == width
    ensures size.height >= SupplementaryHeight
    ensures Total(counts) > 0 ==> size.height >= SupplementaryHeight + CellHeight
  {
    Size(width, (Total(counts) as real) * CellHeight + SupplementaryHeight)
  }

  // ---------------------------------------------------------------------
  // The rect query

  /** The keys of `m` whose frame intersects `rect`; none when `m` is absent. */
  function MatchingKeys(m: Option<AttributeMap>, rect: Rect): (keys: set<IndexPath>)
    ensures forall ip :: ip in keys <==> m.Some? && ip in m.value && Intersects(m.value[ip].frame, rect)
  {
    if m.None? then {} else set ip | ip in m.value && Intersects(m.value[ip].frame, rect)
  }

  /**
   `found` is what filtering `m` by `rect` returns: only stored attributes
   that intersect `rect`, every one of them, and one element per matching key.
   */
  ghost predicate IsFilter(found: seq<Attributes>, m: Option<AttributeMap>, rect: Rect)
  {
    && |found| == |MatchingKeys(m, rect)|
    && (forall a :: a in found ==> m.Some? && a in m.value.Values && Intersects(a.frame, rect))
    && (forall ip :: ip in MatchingKeys(m, rect) ==> m.value[ip] in found)
  }

  /** `keys` lists, each once, exactly the keys of `m` whose frame intersects `rect`. */
  ghost predicate Enumerates(keys: seq<IndexPath>, m: Option<AttributeMap>, rect: Rect)
  {
    && (forall j, k :: 0 <= j < k < |keys| ==> keys[j] != keys[k])
    && (forall ip :: ip in keys <==> ip in MatchingKeys(m, rect))
  }

  /** The attributes stored under `keys`, in the order of `keys`. */
  function ValuesAt(m: Option<AttributeMap>, keys: seq<IndexPath>): seq<Attributes>
    requires forall ip :: ip in keys ==> m.Some? && ip in m.value
  {
    seq(|keys|, j requires 0 <= j < |keys| => assert keys[j] in keys; m.value[keys[j]])
  }

  /** A sequence without repetitions has as many elements as the set of its elements. */
  lemma {:induction false} DistinctKeysCount(keys: seq<IndexPath>)
    requires forall j, k :: 0 <= j < k < |keys| ==> keys[j] != keys[k]
    ensures |(set ip | ip in keys)| == |keys|
  {
    if keys != [] {
      var rest := keys[1..];
      DistinctKeysCount(rest);
      assert keys[0] !in rest by {
        forall k | 0 <= k < |rest| ensures rest[k] != keys[0] {
          assert rest[k] == keys[k + 1];
        }
      }
      assert (set ip | ip in keys) == {keys[0]} + (set ip | ip in rest) by {
        assert keys == [keys[0]] + rest;
      }
    }
  }

  /** Listing the values under an enumeration of the matching keys filters the dictionary. */
  lemma {:induction false} EnumeratedValuesFilter(m: Option<AttributeMap>, keys: seq<IndexPath>, rect: Rect)
    requires Enumerates(keys, m, rect)
    ensures IsFilter(ValuesAt(m, keys), m, rect)
  {
    var vs := ValuesAt(m, keys);
    DistinctKeysCount(keys);
    assert (set ip | ip in keys) == MatchingKeys(m, rect);
    forall a | a in vs
      ensures m.Some? && a in m.value.Values && Intersects(a.frame, rect)
    {
      var j :| 0 <= j < |vs| && vs[j] == a;
      assert keys[j] in keys;
    }
    forall ip | ip in MatchingKeys(m, rect)
      ensures m.value[ip] in vs
    {
      var j :| 0 <= j < |keys| && keys[j] == ip;
      assert vs[j] == m.value[ip];
    }
  }

  /**
   `appendIntersectingAttributes(comparing:)`: visits the dictionary's entries
   in an unspecified order and keeps those whose frame intersects `rect`;
   an absent dictionary contributes nothing. `keys` records the order taken.
   */
  method IntersectingIn(attributes: Option<AttributeMap>, rect: Rect) returns (found: seq<Attributes>, ghost keys: seq<IndexPath>)
    ensures IsFilter(found, attributes, rect)
    ensures Enumerates(keys, attributes, rect) && found == ValuesAt(attributes, keys)
  {
    found, keys := [], [];
    if attributes.None? {
      return;
    }
    var m := attributes.value;
    var remaining := m.Keys;
    while remaining != {}
      invariant remaining <= m.Keys
      invariant forall j, k :: 0 <= j < k < |keys| ==> keys[j] != keys[k]
      invariant forall ip :: ip in keys <==> ip in m && ip !in remaining && Intersects(m[ip].frame, rect)
      invariant found == ValuesAt(attributes, keys)
      decreases remaining
    {
      var ip :| ip in remaining;
      if Intersects(m[ip].frame, rect) {
        found := found + [m[ip]];
        keys := keys + [ip];
      }
      remaining := remaining - {ip};
    }
    EnumeratedValuesFilter(attributes, keys, rect);
  }

  // ---------------------------------------------------------------------
  // The layout object

  class CustomLayout {
    var layoutInfo: LayoutInfo
    /** Read back unchanged by `collectionViewContentSize`. */
    var contentSize: Size

    constructor ()
      ensures layoutInfo == InitialInfo && contentSize == ZeroSize
    {
      layoutInfo := InitialInfo;
      contentSize := ZeroSize;
    }

    /** `invalidateLayout()`: clears the cache and leaves the content size alone. */
    method Invalidate()
      modifies this
      ensures layoutInfo == old(layoutInfo).Cleared()
      ensures contentSize == old(contentSize)
    {
      layoutInfo := layoutInfo.Cleared();
    }

    /**
     `prepare()`. `counts` is the collection view's per-section item counts,
     None when there is no collection view; `screenWidth` is the width of the
     main screen's bounds.
     */
    method Prepare(counts: Option<seq<nat>>, screenWidth: real)
      modifies this
      ensures counts.None? || Total(counts.value) == 0 ==>
                contentSize == ZeroSize && layoutInfo == old(layoutInfo).Cleared()
      ensures counts.Some? && Total(counts.value) > 0 ==>
                contentSize == PreparedSize(counts.value, screenWidth) &&
                layoutInfo == PreparedInfo(counts.value, screenWidth)
    {
      if counts.None? {
        contentSize := ZeroSize;
        layoutInfo := layoutInfo.Cleared();
        return;
      }
      var sections := counts.value;
      var total := 0;
      for s := 0 to |sections|
        invariant total == Total(sections[..s])
      {
        assert sections[..s + 1][..s] == sections[..s];
        total := total + sections[s];
      }
      assert sections[..|sections|] == sections;
      if total == 0 {
        contentSize := ZeroSize;
        layoutInfo := layoutInfo.Cleared();
        return;
      }

      contentSize := Size(screenWidth, (total as real) * CellHeight);
      var width := contentSize.width;
      var supplementaryWidth := width / 2.0;
      contentSize := contentSize.(height := contentSize.height + SupplementaryHeight);
      var leftAttributes := Attributes(SupplementaryIndexPath, SupplementaryCategory(LeftKind),
                                       Rect(0.0, 0.0, supplementaryWidth, SupplementaryHeight), 0);
      var rightAttributes := Attributes(SupplementaryIndexPath, SupplementaryCategory(RightKind),
                                        Rect(supplementaryWidth, 0.0, supplementaryWidth, SupplementaryHeight), 0);
      layoutInfo := layoutInfo.(right := Some(map[SupplementaryIndexPath := rightAttributes]));
      layoutInfo := layoutInfo.(left := Some(map[SupplementaryIndexPath := leftAttributes]));

      var all: AttributeMap := map[];
      for s := 0 to |sections|
        invariant forall ip :: ip in all <==> InLayout(sections, ip) && ip.section < s
        invariant forall ip :: ip in all ==> all[ip] == CellAttributes(ip, width)
      {
        for i := 0 to sections[s]
          invariant forall ip :: ip in all <==> InLayout(sections, ip) && (ip.section < s || (ip.section == s && ip.item < i))
          invariant forall ip :: ip in all ==> all[ip] == CellAttributes(ip, width)
        {
          var ip := IndexPath(s, i);
          var y := (i as real) * CellHeight + SupplementaryHeight;
          all := all[ip := Attributes(ip, CellCategory, Rect(0.0, y, width, CellHeight), i)];
        }
      }
      assert all == ItemMap(sections, width);
      layoutInfo := layoutInfo.(items := Some(all));
    }

    /**
     `layoutAttributesForElements(in:)`: the item attributes that intersect
     `rect`, then the right supplementary ones, then the left ones; within
     each dictionary the order is unspecified and is recorded in the ghost
     key sequences.
     */
    method ElementsIn(rect: Rect) returns (result: seq<Attributes>, ghost itemKeys: seq<IndexPath>,
                                            ghost rightKeys: seq<IndexPath>, ghost leftKeys: seq<IndexPath>)
      ensures var i := |MatchingKeys(layoutInfo.items, rect)|;
              var j := i + |MatchingKeys(layoutInfo.right, rect)|;
              && |result| == j + |MatchingKeys(layoutInfo.left, rect)|
              && IsFilter(result[..i], layoutInfo.items, rect)
              && IsFilter(result[i..j], layoutInfo.right, rect)
              && IsFilter(result[j..], layoutInfo.left, rect)
      ensures Enumerates(itemKeys, layoutInfo.items, rect)
      ensures Enumerates(rightKeys, layoutInfo.right, rect)
      ensures Enumerates(leftKeys, layoutInfo.left, rect)
      ensures result == ValuesAt(layoutInfo.items, itemKeys) + ValuesAt(layoutInfo.right, rightKeys)
                        + ValuesAt(layoutInfo.left, leftKeys)
    {
      var items, right, left;
      items, itemKeys := IntersectingIn(layoutInfo.items, rect);
      right, rightKeys := IntersectingIn(layoutInfo.right, rect);
      left, leftKeys := IntersectingIn(layoutInfo.left, rect);
      result := items + right + left;
      assert result[..|items|] == items;
      assert result[|items|..|items| + |right|] == right;
      assert result[|items| + |right|..] == left;
    }
  }
}
