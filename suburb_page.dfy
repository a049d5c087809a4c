/**
 * The page behind `/:locationSlug`: a suburb is looked up first and, when none matches and the
 * fallback is on, a location with the same slug; then the suburb's parent, trail, keywords and links.
 */
module SuburbPage {
  import opened Wrappers
  import opened Text
  import opened Records
  import Suburbs
  import Locations
  import Seed
  import Slug
  import Sitemap
  import LocationPage

  // ---------------------------------------------------------------- which page renders

  /** The suburb lookup, skipped (so `undefined`) when the slug is empty. */
  function SuburbLookup(slug: string, answer: Query<Suburb>): (r: Query<Suburb>)
    ensures slug == "" ==> r.Loading?
    ensures slug != "" ==> r == answer
  {
    if slug == "" then Loading else answer
  }

  /** The location lookup is sent only once the suburb lookup has answered `null` and the fallback is on. */
  predicate LocationLookupRuns(slug: string, fallback: bool, suburb: Query<Suburb>)
  {
    slug != "" && fallback && suburb.Missing?
  }

  /** The location lookup, `undefined` whenever it is skipped. */
  function LocationLookup(slug: string, fallback: bool, suburb: Query<Suburb>, answer: Query<Location>): (r: Query<Location>)
    ensures !LocationLookupRuns(slug, fallback, suburb) ==> r.Loading?
    ensures LocationLookupRuns(slug, fallback, suburb) ==> r == answer
  {
    if slug != "" && fallback && !suburb.Found? && !suburb.Loading? then answer else Loading
  }

  /** What renders: the skeleton, the location page, "Page Not Found", or the suburb page. */
  datatype Page = Pending | AsLocation | NotFound | SuburbFound(suburb: Suburb)

  /** The decision chain of the component, on the answers the two lookups would give. */
  function Resolve(slug: string, fallback: bool, suburbAnswer: Query<Suburb>, locationAnswer: Query<Location>): (p: Page)
    ensures p.Pending? <==>
      slug == "" || suburbAnswer.Loading? || (fallback && suburbAnswer.Missing? && locationAnswer.Loading?)
    ensures p.AsLocation? <==> slug != "" && fallback && suburbAnswer.Missing? && locationAnswer.Found?
    ensures p.NotFound? <==> slug != "" && suburbAnswer.Missing? && (!fallback || locationAnswer.Missing?)
    ensures p.SuburbFound? <==> slug != "" && suburbAnswer.Found?
    ensures p.SuburbFound? ==> p.suburb == suburbAnswer.value
  {
    var suburb := SuburbLookup(slug, suburbAnswer);
    var location := LocationLookup(slug, fallback, suburb, locationAnswer);
    var suburbLoading := suburb.Loading?;
    var locationLoading := location.Loading? && fallback && !suburb.Found? && !suburbLoading;
    if suburbLoading || locationLoading then Pending
    else if !suburb.Found? && location.Found? && fallback then AsLocation
    else if !suburb.Found? then NotFound
    else SuburbFound(suburb.value)
  }

  /** A query that has answered: `null` when nothing matched. */
  function Answered<T>(r: Option<T>): (q: Query<T>)
    ensures q.Missing? <==> r.None?
    ensures r.Some? ==> q == Found(r.value)
  {
    match r
    case None => Missing
    case Some(v) => Found(v)
  }

  /** The page `/:locationSlug` settles on once both lookups have answered from the stored tables. */
  function Route(suburbs: seq<Suburb>, locations: seq<Location>, slug: string): Page
  {
    Resolve(slug, true, Answered(Suburbs.GetBySlug(suburbs, slug)), Answered(Locations.GetBySlug(locations, slug)))
  }

  /** An active suburb with the slug always wins; a location is shown only when no active suburb has it. */
  lemma {:induction false} RoutePrecedence(suburbs: seq<Suburb>, locations: seq<Location>, slug: string)
    requires slug != ""
    ensures Route(suburbs, locations, slug).SuburbFound? <==> exists s :: s in suburbs && s.active && s.slug == slug
    ensures Route(suburbs, locations, slug).AsLocation? <==>
      (forall s :: s in suburbs ==> !(s.active && s.slug == slug))
      && exists l :: l in locations && l.active && l.slug == slug
    ensures Route(suburbs, locations, slug).NotFound? <==>
      (forall s :: s in suburbs ==> !(s.active && s.slug == slug))
      && (forall l :: l in locations ==> !(l.active && l.slug == slug))
    ensures !Route(suburbs, locations, slug).Pending?
  {
    var s := Suburbs.GetBySlug(suburbs, slug);
    var l := Locations.GetBySlug(locations, slug);
    if s.Some? {
      assert s.value in suburbs && s.value.active && s.value.slug == slug;
    }
    if l.Some? {
      assert l.value in locations && l.value.active && l.value.slug == slug;
    }
  }

  /** A store holding an active suburb and an active location under one slug routes that slug to the suburb. */
  lemma {:induction false} SharedSlugShowsSuburb(suburbs: seq<Suburb>, locations: seq<Location>, j: nat, i: nat)
    requires j < |suburbs| && i < |locations|
    requires suburbs[j].active && locations[i].active && suburbs[j].slug == locations[i].slug != ""
    ensures Locations.GetBySlug(locations, locations[i].slug).Some?
    ensures Route(suburbs, locations, locations[i].slug).SuburbFound?
  {
    assert suburbs[j] in suburbs;
    assert locations[i] in locations;
    RoutePrecedence(suburbs, locations, locations[i].slug);
  }

  /**
   * After seeding, `/newcastle` — the address the sitemap lists for the Newcastle location —
   * renders the Newcastle suburb page, so the Newcastle location page is out of reach.
   */
  lemma NewcastleShowsSuburb(n: nat, today: string)
    ensures Locations.GetBySlug(Seed.SeedPlan(n).locations, "newcastle").Some?
    ensures Route(Seed.SeedPlan(n).suburbs, Seed.SeedPlan(n).locations, "newcastle").SuburbFound?
    ensures 9 < |Sitemap.ShownSitemap(today)|
            && Sitemap.ShownSitemap(today)[9].loc == Sitemap.SitemapBaseUrl + "/newcastle"
  {
    var p := Seed.SeedPlan(n);
    Seed.SeededNewcastleTwice(n);
    Seed.SeededCounts(n);
    var j :| 0 <= j < |p.suburbs| && p.suburbs[j].slug == "newcastle" && p.suburbs[j].active
             && p.suburbs[j].parentLocationId == p.locations[5].id;
    SharedSlugShowsSuburb(p.suburbs, p.locations, j, 5);
    Sitemap.NewcastleListedAsLocation(today);
  }

  // ---------------------------------------------------------------- the suburb page

  /** `allLocations?.find(loc => loc._id === suburb.parentLocationId)`; nothing while the listing loads. */
  function Parent(all: Option<seq<Location>>, s: Suburb): (r: Option<Location>)
    ensures all.None? ==> r.None?
    ensures r.Some? ==> r.value.id == s.parentLocationId
    ensures all.Some? ==> (r.None? <==> forall l :: l in all.value ==> l.id != s.parentLocationId)
    ensures r.Some? ==> exists i :: 0 <= i < |all.value| && all.value[i] == r.value
                                   && forall j :: 0 <= j < i ==> all.value[j].id != s.parentLocationId
  {
    match all
    case None => None
    case Some(ls) => Find(ls, (l: Location) => l.id == s.parentLocationId)
  }

  /** `breadcrumbItems`: the region, linking to the parent location only when one was found, then the suburb. */
  function Trail(s: Suburb, parent: Option<Location>): (r: seq<NavItem>)
    ensures |r| == 2
    ensures r[0].caption == s.region && r[1] == NavItem(s.name, None)
    ensures r[0].href.Some? <==> parent.Some?
    ensures parent.Some? ==> r[0].href == Some("/" + parent.value.slug)
  {
    [NavItem(s.region, if parent.Some? then Some("/" + parent.value.slug) else None),
     NavItem(s.name, None)]
  }

  /** `generateSuburbTitle`. */
  function Title(s: Suburb): (r: string)
    ensures IsPrefix("Pool Services " + s.name, r)
    ensures IsSuffix(" | PoolZen", r)
  {
    var head := "Pool Services " + s.name;
    var tail := " | PoolZen";
    var r := head + " | Professional Pool Maintenance " + s.region + tail;
    PrefixOfConcat(head, " | Professional Pool Maintenance " + s.region + tail);
    assert r == head + (" | Professional Pool Maintenance " + s.region + tail);
    SuffixOfConcat(head + " | Professional Pool Maintenance " + s.region, tail);
    r
  }

  const DescriptionLead := "Professional pool services in "
  const DescriptionTail :=
    ". Expert pool cleaning, maintenance, " +
    "and repairs with same-day service. " +
    "Call 1300 POOL ZEN for a free quote."

  /** `generateSuburbDescription`: the suburb and its region, then the fixed pitch. */
  function Description(s: Suburb): (r: string)
    ensures IsPrefix(DescriptionLead + s.name + ", " + s.region, r)
    ensures IsSuffix(DescriptionTail, r)
  {
    var head := DescriptionLead + s.name + ", " + s.region;
    PrefixOfConcat(head, DescriptionTail);
    SuffixOfConcat(head, DescriptionTail);
    head + DescriptionTail
  }

  /** The canonical link: the suburb's slug on the same base the location page uses. */
  function Canonical(s: Suburb): (r: string)
    ensures IsPrefix(LocationPage.CanonicalBase + "/", r) && r[|LocationPage.CanonicalBase| + 1..] == s.slug
  {
    PrefixOfConcat(LocationPage.CanonicalBase + "/", s.slug);
    LocationPage.CanonicalBase + "/" + s.slug
  }

  /** A suburb and a location sharing a slug claim the same canonical address. */
  lemma SharedSlugSharesCanonical(s: Suburb, l: Location)
    ensures Canonical(s) == LocationPage.Canonical(l) <==> s.slug == l.slug
  {
    var a, b := Canonical(s), LocationPage.Canonical(l);
    if a == b {
      assert a[|LocationPage.CanonicalBase| + 1..] == b[|LocationPage.CanonicalBase| + 1..];
    }
  }

  /** The words in front of each keyword; the fifth is followed by the region, the others by the suburb. */
  const KeywordLeads: seq<string> :=
    ["pool services ", "pool cleaning ", "pool maintenance ", "pool repairs ",
     "pool services ", "pool technician ", "swimming pool maintenance "]

  /** What keyword `i` is about, lower-cased. */
  function Subject(s: Suburb, i: nat): string
  {
    if i == 4 then ToLower(s.region) else ToLower(s.name)
  }

  /** The seven keyword phrases, six about the suburb and one about its region. */
  function KeywordList(s: Suburb): (r: seq<string>)
    ensures |r| == 7
    ensures r[0] == "pool services " + ToLower(s.name) && r[4] == "pool services " + ToLower(s.region)
    ensures forall i :: 0 <= i < 7 ==> r[i] == KeywordLeads[i] + Subject(s, i)
  {
    seq(7, i requires 0 <= i < 7 => KeywordLeads[i] + Subject(s, i))
  }

  const KeywordSeparator := ", "

  /** `generateSuburbKeywords`. */
  function Keywords(s: Suburb): string
  {
    Join(KeywordList(s), KeywordSeparator)
  }

  lemma LeadsHaveNoComma()
    ensures forall i :: 0 <= i < |KeywordLeads| ==> ',' !in KeywordLeads[i]
  {
  }

  /** The separator holds one comma. */
  lemma SeparatorHasOneComma()
    ensures CountChar(KeywordSeparator, ',') == 1
  {
    var sep := KeywordSeparator;
    assert sep[..1] == [','];
    assert sep[..1][..0] == [];
  }

  /** When neither name holds a comma, the keyword string holds exactly six, so it reads back as seven entries. */
  lemma KeywordsAreSeven(s: Suburb)
    requires ',' !in s.name && ',' !in s.region
    ensures CountChar(Keywords(s), ',') == 6
  {
    var ks := KeywordList(s);
    ToLowerKeepsAbsent(s.name, ',');
    ToLowerKeepsAbsent(s.region, ',');
    LeadsHaveNoComma();
    forall i | 0 <= i < |ks| ensures ',' !in ks[i] {
      assert ks[i] == KeywordLeads[i] + Subject(s, i);
    }
    SeparatorHasOneComma();
    JoinCountsSeparators(ks, KeywordSeparator, ',');
  }

  /** The slug handed to the service grid: the parent's when it has one, else the suburb's own. */
  function GridSlug(s: Suburb, parent: Option<Location>): (r: string)
    ensures r == s.slug || (parent.Some? && r == parent.value.slug)
    ensures r == "" ==> s.slug == ""
    ensures parent.Some? && parent.value.slug != "" ==> r == parent.value.slug
  {
    if parent.Some? && parent.value.slug != "" then parent.value.slug else s.slug
  }

  /** Every seeded suburb finds its parent in the seeded locations, so the grid links the parent's slug. */
  lemma {:induction false} SeededGridUsesParent(n: nat, j: nat)
    requires j < |Seed.SeedPlan(n).suburbs|
    ensures var p := Seed.SeedPlan(n);
      Parent(Some(p.locations), p.suburbs[j]).Some?
      && Parent(Some(p.locations), p.suburbs[j]).value.id == p.suburbs[j].parentLocationId
  {
    var p := Seed.SeedPlan(n);
    Seed.SeededIntegrity(n);
    assert Seed.HasParent(p.suburbs[j], p.locations, Slug.Slugify);
    var i :| 0 <= i < |p.locations| && Seed.ChildOf(p.suburbs[j], p.locations[i], Slug.Slugify);
    assert p.locations[i] in p.locations;
  }
}
