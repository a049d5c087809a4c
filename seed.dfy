/** `seedDatabase`: the one-time load of the default catalog. */
module Seed {
  import opened Wrappers
  import opened Text
  import opened Records
  import opened Slug
  import opened Database

  import opened Catalog

  const AlreadySeeded := "Database already seeded"
  const Seeded := "Database seeded successfully"

  // ---------------------------------------------------------------- what the loops insert

  /** The number of suburb rows a list of locations produces. */
  function SuburbCount(locs: seq<Location>): nat
  {
    if locs == [] then 0 else SuburbCount(locs[..|locs| - 1]) + |NamesOf(locs[|locs| - 1])|
  }

  const SuburbBlurb: string := ". Expert pool cleaning, maintenance, and repairs with same-day service availability."

  function SuburbDescription(name: string, region: string): string
  {
    "Professional pool services in " + name + ", " + region + SuburbBlurb
  }

  /** The services as stored when the first one receives the counter value `first`. */
  function StampedServices(docs: seq<Service>, first: nat): (r: seq<Service>)
    ensures |r| == |docs|
    ensures forall k :: 0 <= k < |docs| ==> r[k] == docs[k].(id := IdOf(first + k))
  {
    seq(|docs|, k requires 0 <= k < |docs| => docs[k].(id := IdOf(first + k)))
  }

  /** The suburb document the inner loop inserts for one listed name; the store fills in the id. */
  function SuburbDoc(name: string, region: string, parentId: Id, slugify: string -> string): Suburb
  {
    Suburb("", name, slugify(name), region, parentId, SuburbDescription(name, region), None, true)
  }

  /** The suburb rows made from one location's names, the first receiving the counter value `first`. */
  function SuburbRows(names: seq<string>, region: string, parentId: Id, first: nat, slugify: string -> string): (r: seq<Suburb>)
    ensures |r| == |names|
    ensures forall k :: 0 <= k < |names| ==> r[k] == SuburbDoc(names[k], region, parentId, slugify).(id := IdOf(first + k))
  {
    seq(|names|, k requires 0 <= k < |names| => SuburbDoc(names[k], region, parentId, slugify).(id := IdOf(first + k)))
  }

  /** One turn of the suburb loop appends the next row. */
  lemma SuburbRowsSnoc(before: seq<Suburb>, names: seq<string>, region: string, parentId: Id, first: nat, j: nat, slugify: string -> string)
    requires j < |names|
    ensures before + SuburbRows(names[..j + 1], region, parentId, first, slugify)
         == (before + SuburbRows(names[..j], region, parentId, first, slugify))
            + [SuburbDoc(names[j], region, parentId, slugify).(id := IdOf(first + j))]
  {
    var r := SuburbRows(names[..j], region, parentId, first, slugify);
    var r' := SuburbRows(names[..j + 1], region, parentId, first, slugify);
    assert r' == r + [SuburbDoc(names[j], region, parentId, slugify).(id := IdOf(first + j))];
  }

  /** What the location loop has inserted: the two tables and the id counter. */
  datatype Plan = Plan(locations: seq<Location>, suburbs: seq<Suburb>, next: nat)

  /** One turn of the location loop: the location, then the suburbs it lists, each taking the next id. */
  function Extend(p: Plan, loc: Location, slugify: string -> string): Plan
  {
    var id := IdOf(p.next);
    Plan(p.locations + [loc.(id := id)],
         p.suburbs + SuburbRows(NamesOf(loc), loc.region, id, p.next + 1, slugify),
         p.next + 1 + |NamesOf(loc)|)
  }

  /** The tables and counter after the location loop has run over `locs`, starting from `init`. */
  function PlanFor(init: Plan, locs: seq<Location>, slugify: string -> string): (r: Plan)
    ensures |r.locations| == |init.locations| + |locs|
  {
    if locs == [] then init
    else Extend(PlanFor(init, locs[..|locs| - 1], slugify), locs[|locs| - 1], slugify)
  }

  lemma PlanForSnoc(init: Plan, locs: seq<Location>, i: nat, slugify: string -> string)
    requires i < |locs|
    ensures PlanFor(init, locs[..i + 1], slugify) == Extend(PlanFor(init, locs[..i], slugify), locs[i], slugify)
  {
    assert locs[..i + 1][..i] == locs[..i];
  }

  /** The part of the store the location loop writes. */
  ghost function Snapshot(db: Db): Plan
    reads db
  {
    Plan(db.locations, db.suburbs, db.nextId)
  }

  // ---------------------------------------------------------------- the mutation

  /** The services loop: each document is inserted in order. */
  method InsertServices(db: Db, docs: seq<Service>)
    requires db.Valid()
    modifies db
    ensures db.Valid()
    ensures db.services == old(db.services) + StampedServices(docs, old(db.nextId))
    ensures db.nextId == old(db.nextId) + |docs|
    ensures db.locations == old(db.locations) && db.suburbs == old(db.suburbs) && db.quotes == old(db.quotes)
  {
    var first := db.nextId;
    for i := 0 to |docs|
      invariant db.Valid()
      invariant db.services == old(db.services) + StampedServices(docs[..i], first)
      invariant db.nextId == first + i
      invariant db.locations == old(db.locations) && db.suburbs == old(db.suburbs)
      invariant db.quotes == old(db.quotes)
    {
      var _ := db.InsertService(docs[i]);
    }
    assert docs[..|docs|] == docs;
  }

  /** The suburbs loop of one location: one row per listed name, all pointing at `parentId`. */
  method InsertSuburbRows(db: Db, names: seq<string>, region: string, parentId: Id, slugify: string -> string)
    requires db.Valid()
    modifies db
    ensures db.Valid()
    ensures db.suburbs == old(db.suburbs) + SuburbRows(names, region, parentId, old(db.nextId), slugify)
    ensures db.nextId == old(db.nextId) + |names|
    ensures db.services == old(db.services) && db.locations == old(db.locations) && db.quotes == old(db.quotes)
  {
    var first := db.nextId;
    for j := 0 to |names|
      invariant db.Valid()
      invariant db.suburbs == old(db.suburbs) + SuburbRows(names[..j], region, parentId, first, slugify)
      invariant db.nextId == first + j
      invariant db.services == old(db.services) && db.locations == old(db.locations)
      invariant db.quotes == old(db.quotes)
    {
      SuburbRowsSnoc(old(db.suburbs), names, region, parentId, first, j, slugify);
      var _ := db.InsertSuburb(SuburbDoc(names[j], region, parentId, slugify));
    }
    assert names[..|names|] == names;
  }

  /** One turn of the location loop: insert the location, then the suburbs it lists. */
  method InsertLocationAndSuburbs(db: Db, loc: Location, slugify: string -> string)
    requires db.Valid()
    modifies db
    ensures db.Valid()
    ensures Snapshot(db) == Extend(old(Snapshot(db)), loc, slugify)
    ensures db.services == old(db.services) && db.quotes == old(db.quotes)
  {
    var locationId := db.InsertLocation(loc);
    if loc.suburbs.Some? {
      InsertSuburbRows(db, loc.suburbs.value, loc.region, locationId, slugify);
    }
  }

  /** The locations loop. */
  method InsertLocations(db: Db, locs: seq<Location>, slugify: string -> string)
    requires db.Valid()
    modifies db
    ensures db.Valid()
    ensures Snapshot(db) == PlanFor(old(Snapshot(db)), locs, slugify)
    ensures db.services == old(db.services) && db.quotes == old(db.quotes)
  {
    ghost var init := Snapshot(db);
    for i := 0 to |locs|
      invariant db.Valid()
      invariant Snapshot(db) == PlanFor(init, locs[..i], slugify)
      invariant db.services == old(db.services) && db.quotes == old(db.quotes)
    {
      PlanForSnoc(init, locs, i, slugify);
      InsertLocationAndSuburbs(db, locs[i], slugify);
    }
    assert locs[..|locs|] == locs;
  }

  /**
   * `seedDatabase`: if any service exists, nothing changes; otherwise the default services,
   * then every location followed by its suburbs, are inserted.
   */
  method SeedDatabase(db: Db) returns (message: string)
    requires db.Valid()
    modifies db
    ensures db.Valid()
    ensures old(db.services) != [] ==>
      message == AlreadySeeded && db.services == old(db.services) && db.locations == old(db.locations)
      && db.suburbs == old(db.suburbs) && db.quotes == old(db.quotes) && db.nextId == old(db.nextId)
    ensures old(db.services) == [] ==>
      && message == Seeded
      && db.services == StampedServices(DefaultServices(), old(db.nextId))
      && Snapshot(db) == PlanFor(Plan(old(db.locations), old(db.suburbs), old(db.nextId) + ServiceCount),
                                 DefaultLocations(), Slugify)
      && db.quotes == old(db.quotes)
  {
    if db.services != [] {
      return AlreadySeeded;
    }
    InsertServices(db, DefaultServices());
    InsertLocations(db, DefaultLocations(), Slugify);
    return Seeded;
  }

  // ---------------------------------------------------------------- what seeding produces

  /** The counts add up: one location row per location and one suburb row per listed name. */
  lemma {:induction false} PlanCounts(init: Plan, locs: seq<Location>, slugify: string -> string)
    ensures var p := PlanFor(init, locs, slugify);
      && |p.suburbs| == |init.suburbs| + SuburbCount(locs)
      && p.next == init.next + |locs| + SuburbCount(locs)
  {
    if locs != [] {
      PlanCounts(init, locs[..|locs| - 1], slugify);
    }
  }

  /** `s` is a suburb row made from one of the names `parent` lists, and points at `parent`. */
  predicate ChildOf(s: Suburb, parent: Location, slugify: string -> string)
  {
    && s.parentLocationId == parent.id
    && s.region == parent.region
    && s.name in NamesOf(parent)
    && s.slug == slugify(s.name)
  }

  /** Some location of `locs` is the parent of `s`. */
  predicate HasParent(s: Suburb, locs: seq<Location>, slugify: string -> string)
  {
    exists i :: 0 <= i < |locs| && ChildOf(s, locs[i], slugify)
  }

  /** Some row of `suburbs` carries `name` and points at `parentId`. */
  predicate HasRow(suburbs: seq<Suburb>, name: string, parentId: Id)
  {
    exists j :: 0 <= j < |suburbs| && suburbs[j].name == name && suburbs[j].parentLocationId == parentId
  }

  /** Every suburb row points at a stored location that lists its name. */
  ghost predicate ParentsStored(p: Plan, slugify: string -> string)
  {
    forall j :: 0 <= j < |p.suburbs| ==> HasParent(p.suburbs[j], p.locations, slugify)
  }

  /** Every name a stored location lists has a suburb row pointing at that location. */
  ghost predicate NamesCovered(p: Plan)
  {
    forall i, k :: 0 <= i < |p.locations| && 0 <= k < |NamesOf(p.locations[i])| ==>
      HasRow(p.suburbs, NamesOf(p.locations[i])[k], p.locations[i].id)
  }

  /** One turn of the location loop keeps both invariants. */
  lemma ExtendKeepsParents(q: Plan, loc: Location, slugify: string -> string)
    requires ParentsStored(q, slugify)
    ensures ParentsStored(Extend(q, loc, slugify), slugify)
  {
    var p := Extend(q, loc, slugify);
    var stored := loc.(id := IdOf(q.next));
    var rows := SuburbRows(NamesOf(loc), loc.region, stored.id, q.next + 1, slugify);
    assert p.locations == q.locations + [stored];
    assert p.suburbs == q.suburbs + rows;
    forall j | 0 <= j < |p.suburbs|
      ensures HasParent(p.suburbs[j], p.locations, slugify)
    {
      if j < |q.suburbs| {
        assert HasParent(q.suburbs[j], q.locations, slugify);
        var i :| 0 <= i < |q.locations| && ChildOf(q.suburbs[j], q.locations[i], slugify);
        assert p.locations[i] == q.locations[i];
        assert ChildOf(p.suburbs[j], p.locations[i], slugify);
      } else {
        var k := j - |q.suburbs|;
        assert p.suburbs[j] == rows[k];
        assert NamesOf(stored) == NamesOf(loc);
        assert ChildOf(p.suburbs[j], p.locations[|q.locations|], slugify);
      }
    }
  }

  lemma ExtendKeepsNamesCovered(q: Plan, loc: Location, slugify: string -> string)
    requires NamesCovered(q)
    ensures NamesCovered(Extend(q, loc, slugify))
  {
    var p := Extend(q, loc, slugify);
    var stored := loc.(id := IdOf(q.next));
    var rows := SuburbRows(NamesOf(loc), loc.region, stored.id, q.next + 1, slugify);
    assert p.locations == q.locations + [stored];
    assert p.suburbs == q.suburbs + rows;
    forall i, k | 0 <= i < |p.locations| && 0 <= k < |NamesOf(p.locations[i])|
      ensures HasRow(p.suburbs, NamesOf(p.locations[i])[k], p.locations[i].id)
    {
      if i < |q.locations| {
        assert p.locations[i] == q.locations[i];
        assert HasRow(q.suburbs, NamesOf(q.locations[i])[k], q.locations[i].id);
        var j :| 0 <= j < |q.suburbs|
          && q.suburbs[j].name == NamesOf(q.locations[i])[k]
          && q.suburbs[j].parentLocationId == q.locations[i].id;
        assert p.suburbs[j] == q.suburbs[j];
      } else {
        assert p.locations[i] == stored;
        assert NamesOf(stored) == NamesOf(loc);
        var j := |q.suburbs| + k;
        assert p.suburbs[j] == rows[k];
      }
    }
  }

  /**
   * Referential integrity after the location loop: starting from a store where it holds (an empty one,
   * say), every suburb row points at a stored location listing its name, and every listed name has a row.
   */
  lemma {:induction false} PlanKeepsIntegrity(init: Plan, locs: seq<Location>, slugify: string -> string)
    requires ParentsStored(init, slugify) && NamesCovered(init)
    ensures ParentsStored(PlanFor(init, locs, slugify), slugify)
    ensures NamesCovered(PlanFor(init, locs, slugify))
  {
    if locs != [] {
      var front := locs[..|locs| - 1];
      PlanKeepsIntegrity(init, front, slugify);
      ExtendKeepsParents(PlanFor(init, front, slugify), locs[|locs| - 1], slugify);
      ExtendKeepsNamesCovered(PlanFor(init, front, slugify), locs[|locs| - 1], slugify);
    }
  }

  /** Each stored location is the listed one, with the id the store gave it. */
  lemma ExtendLocations(q: Plan, loc: Location, slugify: string -> string)
    ensures Extend(q, loc, slugify).locations == q.locations + [loc.(id := IdOf(q.next))]
  {
  }

  lemma {:induction false} PlanLocations(init: Plan, locs: seq<Location>, slugify: string -> string)
    ensures var p := PlanFor(init, locs, slugify);
      forall i :: 0 <= i < |locs| ==>
        p.locations[|init.locations| + i] == locs[i].(id := p.locations[|init.locations| + i].id)
  {
    if locs != [] {
      var front := locs[..|locs| - 1];
      var q := PlanFor(init, front, slugify);
      var p := PlanFor(init, locs, slugify);
      PlanLocations(init, front, slugify);
      ExtendLocations(q, locs[|front|], slugify);
      forall i | 0 <= i < |front|
        ensures p.locations[|init.locations| + i] == locs[i].(id := p.locations[|init.locations| + i].id)
      {
        assert p.locations[|init.locations| + i] == q.locations[|init.locations| + i];
        assert locs[i] == front[i];
      }
    }
  }

  /** When every location lists the same number of names, the suburb rows number that many per location. */
  lemma {:induction false} UniformSuburbCount(locs: seq<Location>, perLocation: nat)
    requires forall i :: 0 <= i < |locs| ==> |NamesOf(locs[i])| == perLocation
    ensures SuburbCount(locs) == perLocation * |locs|
  {
    if locs != [] {
      UniformSuburbCount(locs[..|locs| - 1], perLocation);
    }
  }

  /** Each default location lists seven suburb names. */
  lemma DefaultLocationsListSeven()
    ensures forall i :: 0 <= i < LocationCount ==> |NamesOf(DefaultLocations()[i])| == 7
  {
    forall i | 0 <= i < LocationCount
      ensures |NamesOf(DefaultLocations()[i])| == 7
    {
      assert DefaultLocations()[i] == DefaultLocation(i);
    }
  }

  /** The plan seeding follows on an empty store whose counter stands at `n`. */
  function SeedPlan(n: nat): Plan
  {
    PlanFor(Plan([], [], n + ServiceCount), DefaultLocations(), Slugify)
  }

  /** Seeding an empty store makes 4 services, 7 locations and 49 suburbs. */
  lemma SeededCounts(n: nat)
    ensures |DefaultServices()| == 4
    ensures |SeedPlan(n).locations| == 7
    ensures |SeedPlan(n).suburbs| == 49
  {
    DefaultLocationsListSeven();
    UniformSuburbCount(DefaultLocations(), 7);
    PlanCounts(Plan([], [], n + ServiceCount), DefaultLocations(), Slugify);
  }

  /** The seeded locations are the catalog's, in order. */
  lemma SeededLocations(n: nat)
    ensures forall i :: 0 <= i < LocationCount ==>
      SeedPlan(n).locations[i] == DefaultLocations()[i].(id := SeedPlan(n).locations[i].id)
  {
    PlanLocations(Plan([], [], n + ServiceCount), DefaultLocations(), Slugify);
  }

  /** After seeding an empty store every suburb row points at the location listing it, and every listed name has a row. */
  lemma SeededIntegrity(n: nat)
    ensures ParentsStored(SeedPlan(n), Slugify)
    ensures NamesCovered(SeedPlan(n))
  {
    PlanKeepsIntegrity(Plan([], [], n + ServiceCount), DefaultLocations(), Slugify);
  }

  /** Every suburb row the location loop adds is stored active. */
  lemma {:induction false} PlanSuburbsActive(init: Plan, locs: seq<Location>, slugify: string -> string)
    requires forall j :: 0 <= j < |init.suburbs| ==> init.suburbs[j].active
    ensures forall j :: 0 <= j < |PlanFor(init, locs, slugify).suburbs| ==> PlanFor(init, locs, slugify).suburbs[j].active
  {
    if locs != [] {
      var q := PlanFor(init, locs[..|locs| - 1], slugify);
      var loc := locs[|locs| - 1];
      PlanSuburbsActive(init, locs[..|locs| - 1], slugify);
      var rows := SuburbRows(NamesOf(loc), loc.region, IdOf(q.next), q.next + 1, slugify);
      forall j | 0 <= j < |q.suburbs + rows| ensures (q.suburbs + rows)[j].active {
        if j >= |q.suburbs| {
          assert (q.suburbs + rows)[j] == rows[j - |q.suburbs|];
        }
      }
    }
  }

  /** The Newcastle location lists a suburb also called Newcastle, so seeding stores the slug `newcastle` twice, both rows active. */
  lemma SeededNewcastleTwice(n: nat)
    ensures SeedPlan(n).locations[5].slug == "newcastle" && SeedPlan(n).locations[5].active
    ensures exists j :: (0 <= j < |SeedPlan(n).suburbs|
                         && SeedPlan(n).suburbs[j].slug == "newcastle" && SeedPlan(n).suburbs[j].active
                         && SeedPlan(n).suburbs[j].parentLocationId == SeedPlan(n).locations[5].id)
  {
    var p := SeedPlan(n);
    PlanSuburbsActive(Plan([], [], n + ServiceCount), DefaultLocations(), Slugify);
    SeededCounts(n);
    SeededLocations(n);
    SeededIntegrity(n);
    assert DefaultLocations()[5] == DefaultLocation(5);
    assert NamesOf(p.locations[5])[0] == "Newcastle";
    assert HasRow(p.suburbs, NamesOf(p.locations[5])[0], p.locations[5].id);
    var j :| 0 <= j < |p.suburbs| && p.suburbs[j].name == "Newcastle" && p.suburbs[j].parentLocationId == p.locations[5].id;
    assert HasParent(p.suburbs[j], p.locations, Slugify);
    SlugOfNewcastle();
  }
}
