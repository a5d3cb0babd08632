/**
 What `CustomLayout.prepare()`, `clear()` and the queries promise, stated
 over the functions in module Layout.
 */
module LayoutProperties {
  import opened Options
  import opened Geometry
  import opened Layout

  /** The band `[0, width] x [0, 200]` at the top of the content. */
  function Band(width: real): Rect
  {
    Rect(0.0, 0.0, width, SupplementaryHeight)
  }

  /** No section holds more items than the whole collection. */
  lemma {:induction false} TotalCoversSection(counts: seq<nat>, s: int)
    requires 0 <= s < |counts|
    ensures counts[s] <= Total(counts)
  {
    var n := |counts|;
    if s < n - 1 {
      TotalCoversSection(counts[..n - 1], s);
    }
  }

  /** Two distinct sections together hold no more items than the whole collection. */
  lemma {:induction false} TotalCoversTwoSections(counts: seq<nat>, s: int, t: int)
    requires 0 <= s < |counts| && 0 <= t < |counts| && s != t
    ensures counts[s] + counts[t] <= Total(counts)
  {
    var n := |counts|;
    var init := counts[..n - 1];
    if s == n - 1 {
      TotalCoversSection(init, t);
    } else if t == n - 1 {
      TotalCoversSection(init, s);
    } else {
      TotalCoversTwoSections(init, s, t);
    }
  }

  // ---------------------------------------------------------------------
  // The content size and the rows

  /** Every row of a prepared layout lies below the band and inside the content height. */
  lemma RowInsideContent(counts: seq<nat>, width: real, ip: IndexPath)
    requires InLayout(counts, ip)
    ensures var frame := ItemMap(counts, width)[ip].frame;
            SupplementaryHeight <= frame.y && frame.MaxY() <= PreparedSize(counts, width).height
  {
    TotalCoversSection(counts, ip.section);
  }

  /** Within a section, each row starts where the previous one ends. */
  lemma RowsAdjacentInSection(counts: seq<nat>, width: real, a: IndexPath, b: IndexPath)
    requires InLayout(counts, a) && InLayout(counts, b)
    requires a.section == b.section && b.item == a.item + 1
    ensures ItemMap(counts, width)[b].frame.y == ItemMap(counts, width)[a].frame.MaxY()
  {
  }

  /** Within a section, distinct rows do not intersect. */
  lemma RowsDisjointInSection(counts: seq<nat>, width: real, a: IndexPath, b: IndexPath)
    requires InLayout(counts, a) && InLayout(counts, b)
    requires a.section == b.section && a != b
    ensures !Intersects(ItemMap(counts, width)[a].frame, ItemMap(counts, width)[b].frame)
  {
    var fa, fb := ItemMap(counts, width)[a].frame, ItemMap(counts, width)[b].frame;
    if a.item < b.item {
      StackedDoNotIntersect(fa, fb);
    } else {
      StackedDoNotIntersect(fb, fa);
    }
  }

  /**
   The row position depends on the item index only: items with the same
   index in different sections get the same frame, so with a positive width
   their rows overlap.
   */
  lemma RowsCollideAcrossSections(counts: seq<nat>, width: real, a: IndexPath, b: IndexPath)
    requires InLayout(counts, a) && InLayout(counts, b)
    requires a.item == b.item
    ensures ItemMap(counts, width)[a].frame == ItemMap(counts, width)[b].frame
    ensures width > 0.0 ==> Intersects(ItemMap(counts, width)[a].frame, ItemMap(counts, width)[b].frame)
  {
  }

  /**
   The content height counts the items of every section, but a row's place
   counts only the items before it in its own section: as soon as two
   sections are non-empty, every row ends strictly above the content height.
   */
  lemma RowsEndAboveContent(counts: seq<nat>, width: real, s: int, t: int, ip: IndexPath)
    requires 0 <= s < |counts| && 0 <= t < |counts| && s != t
    requires counts[s] > 0 && counts[t] > 0
    requires InLayout(counts, ip)
    ensures ItemMap(counts, width)[ip].frame.MaxY() < PreparedSize(counts, width).height
  {
    var other := if ip.section == s then t else s;
    TotalCoversTwoSections(counts, ip.section, other);
  }

  /** A concrete instance: two sections of one item each put both rows at y = 200. */
  lemma TwoSectionsShareARow()
    ensures IndexPath(0, 0) in ItemMap([1, 1], 320.0) && IndexPath(1, 0) in ItemMap([1, 1], 320.0)
    ensures ItemMap([1, 1], 320.0)[IndexPath(0, 0)].frame == Rect(0.0, 200.0, 320.0, 40.0)
    ensures ItemMap([1, 1], 320.0)[IndexPath(1, 0)].frame == Rect(0.0, 200.0, 320.0, 40.0)
    ensures PreparedSize([1, 1], 320.0).height == 280.0
  {
    assert InLayout([1, 1], IndexPath(0, 0)) && InLayout([1, 1], IndexPath(1, 0));
    assert [1, 1][..1] == [1];
    assert [1, 1][..1][..0] == [];
  }

  // ---------------------------------------------------------------------
  // The supplementary band

  /** The left and right frames split the band in two halves that do not overlap and cover it. */
  lemma BandTiled(width: real)
    requires width >= 0.0
    ensures !Intersects(LeftAttributes(width).frame, RightAttributes(width).frame)
    ensures LeftAttributes(width).frame.MaxX() == RightAttributes(width).frame.x
    ensures forall px: real, py: real :: Contains(Band(width), px, py) <==>
              Contains(LeftAttributes(width).frame, px, py) || Contains(RightAttributes(width).frame, px, py)
  {
  }

  /** No row intersects either supplementary frame. */
  lemma RowsBelowBand(counts: seq<nat>, width: real, ip: IndexPath)
    requires InLayout(counts, ip)
    ensures !Intersects(ItemMap(counts, width)[ip].frame, LeftAttributes(width).frame)
    ensures !Intersects(ItemMap(counts, width)[ip].frame, RightAttributes(width).frame)
  {
    var frame := ItemMap(counts, width)[ip].frame;
    StackedDoNotIntersect(LeftAttributes(width).frame, frame);
    StackedDoNotIntersect(RightAttributes(width).frame, frame);
  }

  // ---------------------------------------------------------------------
  // Lookups

  /** After a non-empty prepare, an item lookup finds exactly the items of the collection, with their row. */
  lemma PreparedItemLookup(counts: seq<nat>, width: real, ip: IndexPath)
    ensures PreparedInfo(counts, width).ItemAt(ip) ==
            if InLayout(counts, ip) then Some(CellAttributes(ip, width)) else None
  {
  }

  /** After a non-empty prepare, each kind has one supplementary view, at (0, 0). */
  lemma PreparedSupplementaryLookup(counts: seq<nat>, width: real, kind: string, ip: IndexPath)
    requires IsKnownKind(kind)
    ensures PreparedInfo(counts, width).SupplementaryAt(kind, ip) ==
            if ip != SupplementaryIndexPath then None
            else if kind == LeftKind then Some(LeftAttributes(width))
            else Some(RightAttributes(width))
  {
  }

  /** A cleared cache answers every lookup with nil. */
  lemma ClearedLookups(info: LayoutInfo, kind: string, ip: IndexPath)
    requires IsKnownKind(kind)
    ensures info.Cleared().ItemAt(ip) == None
    ensures info.Cleared().SupplementaryAt(kind, ip) == None
  {
  }

  /** Clearing twice is clearing once. */
  lemma ClearedIdempotent(info: LayoutInfo)
    ensures info.Cleared().Cleared() == info.Cleared()
  {
  }

  // ---------------------------------------------------------------------
  // The rect query

  /** A query confined to the band matches no row of a prepared layout, so the query reports none. */
  lemma BandQueryHasNoRows(counts: seq<nat>, width: real, rect: Rect)
    requires rect.MaxY() <= SupplementaryHeight
    ensures MatchingKeys(PreparedInfo(counts, width).items, rect) == {}
    ensures forall found :: IsFilter(found, PreparedInfo(counts, width).items, rect) ==> found == []
  {
    forall ip | ip in ItemMap(counts, width)
      ensures !Intersects(ItemMap(counts, width)[ip].frame, rect)
    {
      StackedDoNotIntersect(rect, ItemMap(counts, width)[ip].frame);
    }
  }

  /**
   A query over the whole content of a prepared layout of positive width
   matches every row and both supplementary views.
   */
  lemma WholeContentQueryFindsAll(counts: seq<nat>, width: real)
    requires width > 0.0
    ensures var content := Rect(0.0, 0.0, width, PreparedSize(counts, width).height);
            && MatchingKeys(PreparedInfo(counts, width).items, content) == ItemKeys(counts)
            && MatchingKeys(PreparedInfo(counts, width).left, content) == {SupplementaryIndexPath}
            && MatchingKeys(PreparedInfo(counts, width).right, content) == {SupplementaryIndexPath}
  {
    var content := Rect(0.0, 0.0, width, PreparedSize(counts, width).height);
    forall ip | InLayout(counts, ip)
      ensures ip in MatchingKeys(PreparedInfo(counts, width).items, content)
    {
      RowInsideContent(counts, width, ip);
    }
  }
}
