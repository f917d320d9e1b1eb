// The session store (lib/store.ts): the deals of the last upload and the
// time of that upload. Both fields are overwritten together.

module Store {
  import opened Wrappers
  import opened DealTypes

  class CrmStore {
    var deals: seq<Deal>
    /** The time of the last upload; None is `null`, nothing uploaded. */
    var uploadedAt: Option<Millis>

    /** Deals are only ever present together with an upload time. */
    ghost predicate Valid()
      reads this
    {
      uploadedAt.None? ==> deals == []
    }

    /** Nothing loaded yet. */
    constructor ()
      ensures deals == [] && uploadedAt == None
      ensures Valid()
    {
      deals := [];
      uploadedAt := None;
    }

    /** setDeals: the new deals replace the old ones wholesale, stamped with
        the current time. */
    method SetDeals(ds: seq<Deal>, now: Millis)
      modifies this
      ensures deals == ds && uploadedAt == Some(now)
      ensures Valid()
    {
      deals := ds;
      uploadedAt := Some(now);
    }

    /** clear: back to the initial state, whatever came before. */
    method Clear()
      modifies this
      ensures deals == [] && uploadedAt == None
      ensures Valid()
    {
      deals := [];
      uploadedAt := None;
    }
  }
}
