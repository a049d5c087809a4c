/** The locations table: the active listing, the lookup by slug and `create`. */
module Locations {
  import opened Wrappers
  import opened Text
  import opened Records
  import opened Database

  /** `getAll`: the active locations, in table order. */
  function GetAll(locations: seq<Location>): (r: seq<Location>)
    ensures forall l :: l in r <==> l in locations && l.active
    ensures IsSubseq(r, locations)
  {
    Filter(locations, (l: Location) => l.active)
  }

  /**
   * `getBySlug`: the first active location carrying the slug, or null. Rows sharing a slug sit in the
   * `by_slug` index in creation order, which is table order here.
   */
  function GetBySlug(locations: seq<Location>, slug: string): (r: Option<Location>)
    ensures r.Some? ==> r.value in locations && r.value.active && r.value.slug == slug
    ensures r.None? <==> forall l :: l in locations ==> !(l.active && l.slug == slug)
    ensures r.Some? ==> exists i :: (0 <= i < |locations| && locations[i] == r.value
                                  && forall j :: 0 <= j < i ==> !(locations[j].active && locations[j].slug == slug))
  {
    Find(locations, (l: Location) => l.active && l.slug == slug)
  }

  /** The lookup by slug is the first row of the active listing that carries the slug. */
  lemma BySlugIsFirstActive(locations: seq<Location>, slug: string)
    ensures GetBySlug(locations, slug)
      == (var m := Filter(GetAll(locations), (l: Location) => l.slug == slug);
          if m == [] then None else Some(m[0]))
  {
    var both := (l: Location) => l.active && l.slug == slug;
    FindIsFirstKept(locations, both);
    FilterFilter(locations, (l: Location) => l.active, (l: Location) => l.slug == slug, both);
  }

  /** `create`: the arguments are stored as given and the new id returned. */
  method Create(db: Db, doc: Location) returns (id: Id)
    requires db.Valid()
    modifies db
    ensures db.Valid()
    ensures id == IdOf(old(db.nextId)) && id !in Issued(old(db.nextId))
    ensures db.locations == old(db.locations) + [doc.(id := id)]
    ensures db.services == old(db.services) && db.suburbs == old(db.suburbs) && db.quotes == old(db.quotes)
  {
    NextIdIsFresh(db.nextId);
    id := db.InsertLocation(doc);
  }

  /**
   * Nothing checks that a slug is new: a second location with a taken slug is stored, listed when
   * active, and never returned by the lookup, which keeps finding the older row.
   */
  lemma DuplicateSlugShadowed(locations: seq<Location>, doc: Location)
    requires GetBySlug(locations, doc.slug).Some?
    ensures GetBySlug(locations + [doc], doc.slug) == GetBySlug(locations, doc.slug)
    ensures doc.active ==> doc in GetAll(locations + [doc])
  {
    var p := (l: Location) => l.active && l.slug == doc.slug;
    FindIsFirstKept(locations, p);
    FindIsFirstKept(locations + [doc], p);
    FilterSnoc(locations, doc, p);
  }
}
