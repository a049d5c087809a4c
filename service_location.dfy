/**
 * The service-in-location page: whether it can render, the suburb coverage grouped by
 * region and location, the capped suburb lists and the breadcrumb trail.
 */
module ServiceLocation {
  import opened Wrappers
  import opened Text
  import opened Records
  import opened ObjectMap
  import SeoUtils

  // ---------------------------------------------------------------- loading and not found

  /** A lookup by slug is skipped, and so stays `undefined`, when the route gave no slug. */
  function Fetch<T>(slug: string, answer: Query<T>): (r: Query<T>)
    ensures slug == "" ==> r.Loading?
    ensures slug != "" ==> r == answer
  {
    if slug == "" then Loading else answer
  }

  /** What the page shows. */
  datatype Page = Pending | NotFound | Ready(service: Service, location: Location)

  /** Loading while either lookup is `undefined`; "Service Not Found" when either is `null`. */
  function Resolve(service: Query<Service>, location: Query<Location>): (p: Page)
    ensures p.Pending? <==> service.Loading? || location.Loading?
    ensures p.NotFound? <==> !p.Pending? && (service.Missing? || location.Missing?)
    ensures p.Ready? <==> service.Found? && location.Found?
    ensures p.Ready? ==> p.service == service.value && p.location == location.value
  {
    if service.Loading? || location.Loading? then Pending
    else if service.Missing? || location.Missing? then NotFound
    else Ready(service.value, location.value)
  }

  /** A route without a service slug never leaves the loading state, whatever the store holds. */
  lemma {:induction false} EmptySlugKeepsLoading(locationSlug: string, s: Query<Service>, l: Query<Location>)
    ensures Resolve(Fetch("", s), Fetch(locationSlug, l)).Pending?
  {
  }

  // ---------------------------------------------------------------- suburbs grouped by region and location

  /** Location name → the suburbs shown on its card. */
  type Cards = seq<Entry<seq<Suburb>>>

  /** Region → its location cards. */
  type Groups = seq<Entry<Cards>>

  /** `allSuburbs.filter(s => s.parentLocationId === loc._id)`. */
  function Children(suburbs: seq<Suburb>, loc: Location): (r: seq<Suburb>)
    ensures forall s :: s in r <==> s in suburbs && s.parentLocationId == loc.id
    ensures IsSubseq(r, suburbs)
  {
    Filter(suburbs, (s: Suburb) => s.parentLocationId == loc.id)
  }

  /** One round of the reduce: a location with suburbs writes its card under its region; any other changes nothing. */
  function Step(acc: Groups, loc: Location, suburbs: seq<Suburb>): Groups
  {
    var children := Children(suburbs, loc);
    if |children| > 0 then
      Put(acc, loc.region, Put(GetOr(acc, loc.region, []), loc.name, children))
    else acc
  }

  /** `suburbsByLocation`: the reduce over `allLocations`, starting from `{}`. */
  function Grouping(locations: seq<Location>, suburbs: seq<Suburb>): Groups
  {
    if locations == [] then []
    else Step(Grouping(locations[..|locations| - 1], suburbs), locations[|locations| - 1], suburbs)
  }

  /** `suburbsByLocation[region]?.[name]`. */
  function CardOf(g: Groups, region: string, name: string): Option<seq<Suburb>>
  {
    match Get(g, region)
    case None => None
    case Some(cards) => Get(cards, name)
  }

  /** The reduce as the page runs it: one pass over the locations, writing into the accumulator. */
  method GroupSuburbs(locations: seq<Location>, suburbs: seq<Suburb>) returns (acc: Groups)
    ensures acc == Grouping(locations, suburbs)
  {
    acc := [];
    for i := 0 to |locations|
      invariant acc == Grouping(locations[..i], suburbs)
    {
      var loc := locations[i];
      var locationSuburbs := Children(suburbs, loc);
      if |locationSuburbs| > 0 {
        var byName := GetOr(acc, loc.region, []);
        acc := Put(acc, loc.region, Put(byName, loc.name, locationSuburbs));
      }
      assert locations[..i + 1][..i] == locations[..i];
    }
    assert locations[..|locations|] == locations;
  }

  /**
   * A location processed later overwrites the card of an earlier one with the same region and name;
   * a location without suburbs leaves every card as it was; no other card changes.
   */
  lemma {:induction false} LaterLocationReplaces(
    locations: seq<Location>, loc: Location, suburbs: seq<Suburb>, region: string, name: string)
    ensures CardOf(Grouping(locations + [loc], suburbs), region, name)
      == if region == loc.region && name == loc.name && |Children(suburbs, loc)| > 0
         then Some(Children(suburbs, loc))
         else CardOf(Grouping(locations, suburbs), region, name)
  {
    var all := locations + [loc];
    assert all[..|all| - 1] == locations;
  }

  /** A card exists exactly for the (region, name) pairs of locations with at least one suburb. */
  predicate HasCard(locations: seq<Location>, suburbs: seq<Suburb>, region: string, name: string)
  {
    exists i :: 0 <= i < |locations| && locations[i].region == region && locations[i].name == name
                && |Children(suburbs, locations[i])| > 0
  }

  /** Every card holds the suburbs of a location with that region and name, and there is a card for every such location. */
  lemma {:induction false} CardsComeFromLocations(
    locations: seq<Location>, suburbs: seq<Suburb>, region: string, name: string)
    ensures CardOf(Grouping(locations, suburbs), region, name).Some? <==> HasCard(locations, suburbs, region, name)
    ensures CardOf(Grouping(locations, suburbs), region, name).Some? ==>
      exists i :: 0 <= i < |locations| && locations[i].region == region && locations[i].name == name
                  && CardOf(Grouping(locations, suburbs), region, name).value == Children(suburbs, locations[i])
                  && |Children(suburbs, locations[i])| > 0
  {
    if locations != [] {
      var n := |locations| - 1;
      var init := locations[..n];
      var loc := locations[n];
      assert locations == init + [loc];
      LaterLocationReplaces(init, loc, suburbs, region, name);
      CardsComeFromLocations(init, suburbs, region, name);
      if HasCard(init, suburbs, region, name) {
        var i :| 0 <= i < |init| && init[i].region == region && init[i].name == name
                 && |Children(suburbs, init[i])| > 0;
        assert locations[i] == init[i];
      }
      if HasCard(locations, suburbs, region, name) {
        var i :| 0 <= i < |locations| && locations[i].region == region && locations[i].name == name
                 && |Children(suburbs, locations[i])| > 0;
        if i < n {
          assert init[i] == locations[i];
        }
      }
      var c := CardOf(Grouping(locations, suburbs), region, name);
      if c.Some? && !(region == loc.region && name == loc.name && |Children(suburbs, loc)| > 0) {
        var i :| 0 <= i < |init| && init[i].region == region && init[i].name == name
                 && c.value == Children(suburbs, init[i]) && |Children(suburbs, init[i])| > 0;
        assert locations[i] == init[i];
      }
    }
  }

  /** The object invariant of the accumulator: distinct keys, no empty region, no empty card. */
  predicate WellFormed(g: Groups)
  {
    NoDup(Keys(g))
    && forall e :: e in g ==> |e.value| > 0 && NoDup(Keys(e.value)) && forall c :: c in e.value ==> |c.value| > 0
  }

  /** Every round of the reduce keeps the invariant. */
  lemma StepKeepsWellFormed(acc: Groups, loc: Location, suburbs: seq<Suburb>)
    requires WellFormed(acc)
    ensures WellFormed(Step(acc, loc, suburbs))
  {
    var children := Children(suburbs, loc);
    if |children| > 0 {
      var byName := GetOr(acc, loc.region, []);
      var cards := Put(byName, loc.name, children);
      PutKeepsKeysDistinct(byName, loc.name, children);
      PutKeys(byName, loc.name, children);
      assert |Keys(cards)| > 0;
      PutKeepsKeysDistinct(acc, loc.region, cards);
    }
  }

  /** The grouping never holds an empty region, an empty card or a repeated key. */
  lemma {:induction false} GroupingWellFormed(locations: seq<Location>, suburbs: seq<Suburb>)
    ensures WellFormed(Grouping(locations, suburbs))
  {
    if locations != [] {
      GroupingWellFormed(locations[..|locations| - 1], suburbs);
      StepKeepsWellFormed(Grouping(locations[..|locations| - 1], suburbs), locations[|locations| - 1], suburbs);
    }
  }

  /** Whether a location contributes a card. */
  function HasSuburbs(suburbs: seq<Suburb>): Location -> bool
  {
    (l: Location) => |Children(suburbs, l)| > 0
  }

  function RegionOf(l: Location): string { l.region }

  /** Regions are listed in the order in which their first location with suburbs comes. */
  lemma {:induction false} RegionOrder(locations: seq<Location>, suburbs: seq<Suburb>)
    ensures Keys(Grouping(locations, suburbs)) == Dedup(Map(Filter(locations, HasSuburbs(suburbs)), RegionOf))
  {
    if locations != [] {
      var n := |locations| - 1;
      var init := locations[..n];
      var loc := locations[n];
      assert locations == init + [loc];
      RegionOrder(init, suburbs);
      FilterSnoc(init, loc, HasSuburbs(suburbs));
      var kept := Filter(init, HasSuburbs(suburbs));
      var g := Grouping(init, suburbs);
      if |Children(suburbs, loc)| > 0 {
        var regions := Map(kept, RegionOf);
        MapSnoc(kept, loc, RegionOf);
        var all := regions + [loc.region];
        assert HasSuburbs(suburbs)(loc);
        assert Filter(locations, HasSuburbs(suburbs)) == kept + [loc];
        assert all[..|all| - 1] == regions;
        assert Dedup(all) == if loc.region in Dedup(regions) then Dedup(regions) else Dedup(regions) + [loc.region];
        var cards := Put(GetOr(g, loc.region, []), loc.name, Children(suburbs, loc));
        assert Grouping(locations, suburbs) == Put(g, loc.region, cards);
        PutKeys(g, loc.region, cards);
        assert Map(Filter(locations, HasSuburbs(suburbs)), RegionOf) == all;
        assert Keys(g) == Dedup(regions);
        assert Keys(Grouping(locations, suburbs)) == Dedup(all);
      } else {
        assert !HasSuburbs(suburbs)(loc);
        assert Filter(locations, HasSuburbs(suburbs)) == kept;
        assert Grouping(locations, suburbs) == g;
      }
    } else {
      assert Filter(locations, HasSuburbs(suburbs)) == [];
    }
  }

  // ---------------------------------------------------------------- display caps

  /** Lists on the page show at most this many entries. */
  const Cap := 6

  /** The entries a capped list shows and how many it leaves to the "+N more" note. */
  datatype Capped<T> = Capped(shown: seq<T>, more: nat)

  /** `s.slice(0, 6)` and, when `s.length > 6`, the count `s.length - 6`. */
  function CapList<T>(s: seq<T>): (r: Capped<T>)
    ensures IsPrefix(r.shown, s)
    ensures |r.shown| == if |s| <= Cap then |s| else Cap
    ensures |r.shown| + r.more == |s|
    ensures r.more > 0 <==> |s| > Cap
  {
    Capped(Take(s, Cap), if |s| > Cap then |s| - Cap else 0)
  }

  /** The "+N more …" note, present only when something was cut. */
  function MoreNote<T>(c: Capped<T>, noun: string): (r: Option<string>)
    ensures r.Some? <==> c.more > 0
    ensures r.Some? ==> r.value == "+" + Dec(c.more) + " more " + noun
  {
    if c.more > 0 then Some("+" + Dec(c.more) + " more " + noun) else None
  }

  /** A location card's suburb list: the first six suburbs and "+N more suburbs". */
  function CardSuburbs(suburbs: seq<Suburb>): Capped<Suburb>
  {
    CapList(suburbs)
  }

  /** "Primary Areas": the first six names of `location.suburbs`, and "+N more areas"; nothing when the list is absent. */
  function PrimaryAreas(l: Location): (r: Capped<string>)
    ensures l.suburbs.None? ==> r == Capped([], 0)
    ensures l.suburbs.Some? ==> r == CapList(l.suburbs.value)
  {
    match l.suburbs
    case None => CapList([])
    case Some(names) => CapList(names)
  }

  /** Shown entries plus the note's count always account for the whole list, and the note names the overflow. */
  lemma {:induction false} CapAccountsForAll<T>(s: seq<T>, noun: string)
    ensures CapList(s).shown + s[|CapList(s).shown|..] == s
    ensures MoreNote(CapList(s), noun).Some? <==> |s| > Cap
    ensures |s| > Cap ==> MoreNote(CapList(s), noun) == Some("+" + Dec(|s| - Cap) + " more " + noun)
  {
    var c := CapList(s);
    assert s[..|c.shown|] == c.shown;
  }

  // ---------------------------------------------------------------- breadcrumbs

  const SiteBase := "https://pool-zen.vercel.app"

  /** The location the service crumb always points at. */
  const ServiceHub := "sydney-north-shore"

  /** `breadcrumbItems`. */
  function NavTrail(s: Service, l: Location): (r: seq<NavItem>)
    ensures |r| == 3
    ensures r[0] == NavItem("Services", Some("/#services"))
    ensures r[1] == NavItem(s.name, Some("/services/" + s.slug + "/" + ServiceHub))
    ensures r[2] == NavItem(l.name, None)
  {
    [NavItem("Services", Some("/#services")),
     NavItem(s.name, Some("/services/" + s.slug + "/" + ServiceHub)),
     NavItem(l.name, None)]
  }

  /** The crumbs handed to `generateBreadcrumbSchema`. */
  function SchemaCrumbs(s: Service, l: Location): seq<SeoUtils.Crumb>
  {
    [SeoUtils.Crumb("Home", SiteBase),
     SeoUtils.Crumb("Services", SiteBase + "/#services"),
     SeoUtils.Crumb(s.name, SiteBase + "/services/" + s.slug + "/" + ServiceHub),
     SeoUtils.Crumb(l.name, SiteBase + "/services/" + s.slug + "/" + l.slug)]
  }

  /**
   * The breadcrumb schema lists four positions, 1 to 4; the service crumb links to the north-shore
   * page of the service whatever the location, and only the last crumb names the location's own page.
   */
  lemma BreadcrumbShape(s: Service, l: Location, other: Location)
    ensures var b := SeoUtils.BreadcrumbSchema(SchemaCrumbs(s, l)).itemListElement;
      |b| == 4 && b[0].position == 1 && b[3].position == 4
      && b[2].item == SiteBase + "/services/" + s.slug + "/" + ServiceHub
      && b[2] == SeoUtils.BreadcrumbSchema(SchemaCrumbs(s, other)).itemListElement[2]
      && b[3].item == SiteBase + "/services/" + s.slug + "/" + l.slug
  {
    var b := SeoUtils.BreadcrumbSchema(SchemaCrumbs(s, l)).itemListElement;
    assert b[2] == SeoUtils.ListItem(3, s.name, SiteBase + "/services/" + s.slug + "/" + ServiceHub);
    var o := SeoUtils.BreadcrumbSchema(SchemaCrumbs(s, other)).itemListElement;
    assert o[2] == SeoUtils.ListItem(3, s.name, SiteBase + "/services/" + s.slug + "/" + ServiceHub);
  }
}
