/**
 `ComposedCollectionSupplementaryViewFactory`: the data source's factory for
 supplementary views, which hands "Left" views to one factory and "Right"
 views to another.
 */
module SupplementaryFactory {
  import opened Layout

  /** `SupplementaryCell.reuseIdentifier()`. */
  const SupplementaryReuseIdentifier: string := "Supplementary"

  /** The kind of view a factory is asked for (`ReusableViewType`). */
  datatype ReusableViewType = CellView | SupplementaryView(kind: string)

  /**
   A view factory, reduced to what the composed factory can observe of it:
   its reuse identifier and the view type it was built for. The closure that
   configures the view is not part of this model.
   */
  datatype ViewFactory = ViewFactory(reuseIdentifier: string, viewType: ReusableViewType)

  datatype ComposedFactory = ComposedFactory(left: ViewFactory, right: ViewFactory)
  {
    /** `reuseIdentiferFor(item:type:indexPath:)`: one identifier for every view, whatever is asked. */
    function ReuseIdentifierFor(viewType: ReusableViewType, ip: IndexPath): (id: string)
      ensures id == SupplementaryReuseIdentifier
    {
      SupplementaryReuseIdentifier
    }

    /**
     `configure(view:item:type:parentView:indexPath:)`: the factory the view
     is handed to. Anything but a "Left" or "Right" supplementary view is a
     fatal error, hence the precondition.
     */
    function Configure(viewType: ReusableViewType): (chosen: ViewFactory)
      requires viewType.SupplementaryView? && IsKnownKind(viewType.kind)
      ensures viewType.kind == LeftKind ==> chosen == left
      ensures viewType.kind == RightKind ==> chosen == right
    {
      if viewType.kind == LeftKind then left else right
    }
  }

  /**
   The composed factory reports its own identifier and ignores those of its
   parts: for a known kind, it agrees with the identifier of the factory the
   view is handed to exactly when that factory also uses "Supplementary", as
   both factories built for the composed one do.
   */
  lemma ReuseIdentifierMatchesConfigured(f: ComposedFactory, kind: string, ip: IndexPath)
    requires IsKnownKind(kind)
    ensures f.ReuseIdentifierFor(SupplementaryView(kind), ip) == f.Configure(SupplementaryView(kind)).reuseIdentifier
            <==> f.Configure(SupplementaryView(kind)).reuseIdentifier == SupplementaryReuseIdentifier
    ensures f.left.reuseIdentifier == SupplementaryReuseIdentifier && f.right.reuseIdentifier == SupplementaryReuseIdentifier ==>
            f.ReuseIdentifierFor(SupplementaryView(kind), ip) == f.Configure(SupplementaryView(kind)).reuseIdentifier
  {
  }

  /**
   For factories built for "Left" and "Right" views, as the two handed to the
   composed factory are, a known kind is routed to the factory built for
   that very kind.
   */
  lemma ConfigureMatchesBuiltKind(f: ComposedFactory, kind: string)
    requires f.left.viewType == SupplementaryView(LeftKind) && f.right.viewType == SupplementaryView(RightKind)
    requires IsKnownKind(kind)
    ensures f.Configure(SupplementaryView(kind)).viewType == SupplementaryView(kind)
  {
  }

  /**
   Every supplementary view a prepared layout hands out carries the kind it
   was asked for, and the composed factory routes that kind to the factory of
   the same side, without reaching its fatal branch.
   */
  lemma PreparedSupplementariesRouted(f: ComposedFactory, counts: seq<nat>, width: real, kind: string, ip: IndexPath)
    requires IsKnownKind(kind)
    requires PreparedInfo(counts, width).SupplementaryAt(kind, ip).Some?
    ensures var a := PreparedInfo(counts, width).SupplementaryAt(kind, ip).value;
            && a.category == SupplementaryCategory(kind)
            && f.Configure(SupplementaryView(a.category.kind)) == if kind == LeftKind then f.left else f.right
  {
  }
}
