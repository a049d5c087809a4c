/** The suburbs table: the active listing, the lookups by slug and by parent, and `create`. */
module Suburbs {
  import opened Wrappers
  import opened Text
  import opened Records
  import opened Database

  /** `getAll`: the active suburbs, in table order. */
  function GetAll(suburbs: seq<Suburb>): (r: seq<Suburb>)
    ensures forall s :: s in r <==> s in suburbs && s.active
    ensures IsSubseq(r, suburbs)
  {
    Filter(suburbs, (s: Suburb) => s.active)
  }

  /** `getBySlug`: the first active suburb carrying the slug, or null. */
  function GetBySlug(suburbs: seq<Suburb>, slug: string): (r: Option<Suburb>)
    ensures r.Some? ==> r.value in suburbs && r.value.active && r.value.slug == slug
    ensures r.None? <==> forall s :: s in suburbs ==> !(s.active && s.slug == slug)
    ensures r.Some? ==> exists i :: (0 <= i < |suburbs| && suburbs[i] == r.value
                                  && forall j :: 0 <= j < i ==> !(suburbs[j].active && suburbs[j].slug == slug))
  {
    Find(suburbs, (s: Suburb) => s.active && s.slug == slug)
  }

  /** `getByLocation`: the active suburbs whose parent is `locationId`, in table order. */
  function GetByLocation(suburbs: seq<Suburb>, locationId: Id): (r: seq<Suburb>)
    ensures forall s :: s in r <==> s in suburbs && s.active && s.parentLocationId == locationId
    ensures IsSubseq(r, suburbs)
  {
    Filter(suburbs, (s: Suburb) => s.active && s.parentLocationId == locationId)
  }

  /** The suburbs of one location are the active listing narrowed to that parent, so always part of it. */
  lemma ByLocationWithinAll(suburbs: seq<Suburb>, locationId: Id)
    ensures GetByLocation(suburbs, locationId)
      == Filter(GetAll(suburbs), (s: Suburb) => s.parentLocationId == locationId)
    ensures IsSubseq(GetByLocation(suburbs, locationId), GetAll(suburbs))
  {
    FilterFilter(suburbs, (s: Suburb) => s.active, (s: Suburb) => s.parentLocationId == locationId,
                 (s: Suburb) => s.active && s.parentLocationId == locationId);
  }

  /** `create`: the arguments are stored as given, whatever the parent, and the new id returned. */
  method Create(db: Db, doc: Suburb) returns (id: Id)
    requires db.Valid()
    modifies db
    ensures db.Valid()
    ensures id == IdOf(old(db.nextId)) && id !in Issued(old(db.nextId))
    ensures db.suburbs == old(db.suburbs) + [doc.(id := id)]
    ensures db.services == old(db.services) && db.locations == old(db.locations) && db.quotes == old(db.quotes)
  {
    NextIdIsFresh(db.nextId);
    id := db.InsertSuburb(doc);
  }

  /**
   * A created suburb joins its parent's list when it is active, whether or not that parent exists or is
   * active; every other parent's list is unchanged.
   */
  lemma ByLocationAfterCreate(suburbs: seq<Suburb>, doc: Suburb, locationId: Id)
    ensures GetByLocation(suburbs + [doc], locationId)
      == GetByLocation(suburbs, locationId) + (if doc.active && doc.parentLocationId == locationId then [doc] else [])
  {
    FilterSnoc(suburbs, doc, (s: Suburb) => s.active && s.parentLocationId == locationId);
  }
}
