/** The location page: whether it renders, its head tags, and one detail link per service. */
module LocationPage {
  import opened Wrappers
  import opened Text
  import opened Records
  import SeoUtils
  import Sitemap

  // ---------------------------------------------------------------- loading and not found

  /** What the page shows. */
  datatype Page = Pending | NotFound | Ready(location: Location)

  /** Loading while the lookup is `undefined` (also when it is skipped for want of a slug); "Location Not Found" on `null`. */
  function Resolve(slug: string, answer: Query<Location>): (p: Page)
    ensures p.Pending? <==> slug == "" || answer.Loading?
    ensures p.NotFound? <==> slug != "" && answer.Missing?
    ensures p.Ready? ==> slug != "" && answer == Found(p.location)
  {
    var location := if slug == "" then Loading else answer;
    if location.Loading? then Pending
    else if location.Missing? then NotFound
    else Ready(location.value)
  }

  // ---------------------------------------------------------------- head tags

  const TitleTail := " | PoolZen"

  /** `generateLocationTitle`. */
  function Title(l: Location): (r: string)
    ensures IsPrefix("Pool Services " + l.name, r)
    ensures IsSuffix(TitleTail, r)
    ensures Contains(r, l.region)
  {
    var head := "Pool Services " + l.name + " | Professional Pool Maintenance ";
    var r := head + l.region + TitleTail;
    assert r == ("Pool Services " + l.name) + (" | Professional Pool Maintenance " + l.region + TitleTail);
    PrefixOfConcat("Pool Services " + l.name, " | Professional Pool Maintenance " + l.region + TitleTail);
    SuffixOfConcat(head + l.region, TitleTail);
    ContainsMiddle(head, l.region, TitleTail);
    r
  }

  /** How the description names the suburbs: the first three joined by ", ", or `undefined` printed as text when the list is absent. */
  function SuburbSummary(l: Location): (r: string)
    ensures l.suburbs.None? ==> r == "undefined"
    ensures l.suburbs.Some? ==> r == Join(Take(l.suburbs.value, 3), ", ")
  {
    match l.suburbs
    case None => "undefined"
    case Some(names) => Join(Take(names, 3), ", ")
  }

  const DescriptionLead := "Professional pool services in "
  const DescriptionBody := ". Expert pool cleaning, maintenance, and repairs "
  const DescriptionEnd := " areas. Same-day service available."

  /** `generateLocationDescription`. */
  function Description(l: Location): (r: string)
    ensures IsPrefix(DescriptionLead + l.name, r)
    ensures Contains(r, "across " + SuburbSummary(l) + " and surrounding " + l.region)
  {
    var middle := "across " + SuburbSummary(l) + " and surrounding " + l.region;
    var head := DescriptionLead + l.name;
    var r := head + DescriptionBody + middle + DescriptionEnd;
    assert r == head + (DescriptionBody + middle + DescriptionEnd);
    PrefixOfConcat(head, DescriptionBody + middle + DescriptionEnd);
    ContainsMiddle(head + DescriptionBody, middle, DescriptionEnd);
    r
  }

  /** The four keywords every location page starts with. */
  function BaseKeywords(l: Location): seq<string>
  {
    ["pool services " + ToLower(l.name), "pool cleaning " + ToLower(l.region),
     "pool maintenance " + ToLower(l.name), "pool repairs " + ToLower(l.region)]
  }

  /** The keyword pushed for one listed suburb. */
  function SuburbKeyword(suburb: string): string
  {
    "pool services " + ToLower(suburb)
  }

  /** The keyword list `generateLocationKeywords` ends with before joining. */
  function KeywordList(l: Location): (r: seq<string>)
    ensures |r| == 4 + |NamesOf(l)|
    ensures r[..4] == BaseKeywords(l)
    ensures forall i :: 0 <= i < |NamesOf(l)| ==> r[4 + i] == SuburbKeyword(NamesOf(l)[i])
  {
    BaseKeywords(l) + Map(NamesOf(l), SuburbKeyword)
  }

  const KeywordSeparator := ", "

  /** `generateLocationKeywords`: the base list, one `push` per listed suburb in order, then the join. */
  method BuildKeywords(l: Location) returns (keywords: string)
    ensures keywords == Join(KeywordList(l), KeywordSeparator)
  {
    var list := BaseKeywords(l);
    if l.suburbs.Some? {
      var names := l.suburbs.value;
      for i := 0 to |names|
        invariant list == BaseKeywords(l) + Map(names[..i], SuburbKeyword)
      {
        MapSnoc(names[..i], names[i], SuburbKeyword);
        assert names[..i + 1] == names[..i] + [names[i]];
        list := list + [SuburbKeyword(names[i])];
      }
      assert names[..|names|] == names;
    } else {
      assert BaseKeywords(l) + Map(NamesOf(l), SuburbKeyword) == BaseKeywords(l);
    }
    assert list == KeywordList(l);
    keywords := Join(list, KeywordSeparator);
  }

  /** The separator holds one comma. */
  lemma SeparatorHasOneComma()
    ensures CountChar(KeywordSeparator, ',') == 1
  {
    var sep := KeywordSeparator;
    assert sep[..1] == [','];
    assert sep[..1][..0] == [];
  }

  /** Each keyword lead is free of commas. */
  lemma LeadsHaveNoComma()
    ensures ',' !in "pool services " && ',' !in "pool cleaning "
    ensures ',' !in "pool maintenance " && ',' !in "pool repairs "
  {
  }

  /** No comma in a phrase built from a comma-free lead and a comma-free name. */
  lemma PhraseHasNoComma(lead: string, name: string)
    requires ',' !in lead && ',' !in name
    ensures ',' !in lead + ToLower(name)
  {
    ToLowerKeepsAbsent(name, ',');
  }

  /** Without commas in the names, the keyword string holds `3 + n` commas: four base entries and one per suburb. */
  lemma KeywordCount(l: Location)
    requires ',' !in l.name && ',' !in l.region
    requires forall k :: 0 <= k < |NamesOf(l)| ==> ',' !in NamesOf(l)[k]
    ensures CountChar(Join(KeywordList(l), KeywordSeparator), ',') == 3 + |NamesOf(l)|
  {
    var ks := KeywordList(l);
    LeadsHaveNoComma();
    PhraseHasNoComma("pool services ", l.name);
    PhraseHasNoComma("pool cleaning ", l.region);
    PhraseHasNoComma("pool maintenance ", l.name);
    PhraseHasNoComma("pool repairs ", l.region);
    forall i | 0 <= i < |ks| ensures ',' !in ks[i] {
      if i < 4 {
        assert ks[i] == ks[..4][i];
      } else {
        PhraseHasNoComma("pool services ", NamesOf(l)[i - 4]);
      }
    }
    SeparatorHasOneComma();
    JoinCountsSeparators(ks, KeywordSeparator, ',');
  }

  /** The base the location page's canonical link uses. */
  const CanonicalBase := "https://poolzen.com.au"

  /** The canonical link of the page. */
  function Canonical(l: Location): (r: string)
    ensures IsPrefix(CanonicalBase + "/", r) && r[|CanonicalBase| + 1..] == l.slug
  {
    var r := CanonicalBase + "/" + l.slug;
    PrefixOfConcat(CanonicalBase + "/", l.slug);
    r
  }

  /** The page's canonical link is never the one the shared SEO helpers would give the same location. */
  lemma CanonicalDisagreesWithHelpers(l: Location)
    ensures Canonical(l) != SeoUtils.Canonical(None, Some(l), None)
  {
    var mine := Canonical(l);
    var theirs := SeoUtils.Canonical(None, Some(l), None);
    assert mine[8] == 'p' && mine[12] == 'z';
    assert theirs[12] == '-';
  }

  // ---------------------------------------------------------------- service links

  /** The "View … Details" link of each service card; none while the service list loads. */
  function DetailLinks(services: Option<seq<Service>>, l: Location): (r: seq<string>)
    ensures services.None? ==> r == []
    ensures services.Some? ==> |r| == |services.value|
    ensures services.Some? ==>
      forall i :: 0 <= i < |services.value| ==> r[i] == "/services/" + services.value[i].slug + "/" + l.slug
  {
    match services
    case None => []
    case Some(ss) => seq(|ss|, i requires 0 <= i < |ss| => "/services/" + ss[i].slug + "/" + l.slug)
  }

  /** Each detail link, on the site's base, is the address the sitemap lists for that service and location. */
  lemma DetailLinksInSitemap(services: seq<Service>, l: Location, i: nat, sp: nat, lp: nat, today: string)
    requires i < |services|
    ensures Sitemap.SitemapBaseUrl + DetailLinks(Some(services), l)[i]
      == Sitemap.PairEntry(Sitemap.Listed(services[i].slug, sp), Sitemap.Listed(l.slug, lp), today).loc
  {
  }
}
