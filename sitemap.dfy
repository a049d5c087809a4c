/**
 * `Sitemap`: the entry list `generateSitemap` writes, one `<url>` per page, following the sitemaps.org Sitemap
 * protocol 0.9 (`<loc>`, `<lastmod>`, `<changefreq>`, `<priority>`). Priorities are kept in tenths.
 */
module Sitemap {
  import opened Text

  const SitemapBaseUrl := "https://pool-zen.vercel.app"

  /** A service or a location as the script lists it; only the slug and the priority reach the output. */
  datatype Listed = Listed(slug: string, priority: nat)

  datatype StaticPage = StaticPage(url: string, changefreq: string, priority: nat)

  /** One `<url>` element. */
  datatype Entry = Entry(loc: string, lastmod: string, changefreq: string, priority: nat)

  function Min(a: nat, b: nat): nat { if a <= b then a else b }

  // ---------------------------------------------------------------- one entry per page kind

  function StaticEntry(page: StaticPage, today: string): Entry
  {
    Entry(SitemapBaseUrl + page.url, today, page.changefreq, page.priority)
  }

  function LocationEntry(location: Listed, today: string): Entry
  {
    Entry(SitemapBaseUrl + "/" + location.slug, today, "weekly", location.priority)
  }

  function SuburbEntry(suburb: string, today: string): Entry
  {
    Entry(SitemapBaseUrl + "/" + suburb, today, "weekly", 6)
  }

  /** A service-location page takes the lower of the two priorities. */
  function PairEntry(service: Listed, location: Listed, today: string): Entry
  {
    Entry(SitemapBaseUrl + "/services/" + service.slug + "/" + location.slug, today, "weekly",
          Min(service.priority, location.priority))
  }

  function StaticOn(today: string): StaticPage -> Entry { page => StaticEntry(page, today) }
  function LocationOn(today: string): Listed -> Entry { location => LocationEntry(location, today) }
  function SuburbOn(today: string): string -> Entry { suburb => SuburbEntry(suburb, today) }
  function PairOn(service: Listed, today: string): Listed -> Entry { location => PairEntry(service, location, today) }

  // ---------------------------------------------------------------- the whole list

  /** The entries one `forEach` appends: one per item, in order. */
  function Each<A>(items: seq<A>, entry: A -> Entry): seq<Entry>
  {
    if items == [] then [] else Each(items[..|items| - 1], entry) + [entry(items[|items| - 1])]
  }

  /** `Each` keeps the items' number and order. */
  lemma {:induction false} EachAt<A>(items: seq<A>, entry: A -> Entry)
    ensures |Each(items, entry)| == |items|
    ensures forall k :: 0 <= k < |items| ==> Each(items, entry)[k] == entry(items[k])
  {
    if items != [] {
      var front := items[..|items| - 1];
      EachAt(front, entry);
      forall k | 0 <= k < |front| ensures front[k] == items[k] { }
    }
  }

  /** The nested `forEach`: for each service in turn, one entry per location. */
  function Pairs(services: seq<Listed>, locations: seq<Listed>, today: string): seq<Entry>
  {
    if services == [] then []
    else Pairs(services[..|services| - 1], locations, today) + Each(locations, PairOn(services[|services| - 1], today))
  }

  /** The entries in the order the script appends them: static pages, locations, suburbs, service-location pairs. */
  function Entries(pages: seq<StaticPage>, services: seq<Listed>, locations: seq<Listed>, suburbs: seq<string>,
                   today: string): seq<Entry>
  {
    Each(pages, StaticOn(today)) + Each(locations, LocationOn(today)) + Each(suburbs, SuburbOn(today))
    + Pairs(services, locations, today)
  }

  /** One `forEach` over `items`, appending one entry per item, in order. */
  method AppendEach<A>(entries: seq<Entry>, items: seq<A>, entry: A -> Entry) returns (r: seq<Entry>)
    ensures r == entries + Each(items, entry)
  {
    r := entries;
    for i := 0 to |items|
      invariant r == entries + Each(items[..i], entry)
    {
      assert items[..i + 1][..i] == items[..i];
      r := r + [entry(items[i])];
    }
    assert items[..|items|] == items;
  }

  /** `generateSitemap` without the file write: the four loops, the last one nested. */
  method GenerateSitemap(pages: seq<StaticPage>, services: seq<Listed>, locations: seq<Listed>, suburbs: seq<string>,
                         today: string) returns (entries: seq<Entry>)
    ensures entries == Entries(pages, services, locations, suburbs, today)
  {
    entries := AppendEach([], pages, StaticOn(today));
    entries := AppendEach(entries, locations, LocationOn(today));
    entries := AppendEach(entries, suburbs, SuburbOn(today));
    ghost var head := entries;
    for i := 0 to |services|
      invariant entries == head + Pairs(services[..i], locations, today)
    {
      entries := AppendEach(entries, locations, PairOn(services[i], today));
      assert services[..i + 1][..i] == services[..i];
    }
    assert services[..|services|] == services;
  }

  // ---------------------------------------------------------------- properties

  /** The nested loop appends `|locations|` entries per service. */
  lemma {:induction false} PairsLength(services: seq<Listed>, locations: seq<Listed>, today: string)
    ensures |Pairs(services, locations, today)| == |services| * |locations|
  {
    if services != [] {
      var n, m := |services|, |locations|;
      PairsLength(services[..n - 1], locations, today);
      EachAt(locations, PairOn(services[n - 1], today));
      assert (n - 1) * m + m == n * m;
    }
  }

  /** The pairs of the first `i` services come before the rest. */
  lemma {:induction false} PairsPrefix(services: seq<Listed>, locations: seq<Listed>, today: string, i: nat)
    requires i <= |services|
    ensures IsPrefix(Pairs(services[..i], locations, today), Pairs(services, locations, today))
  {
    if i < |services| {
      var front := services[..|services| - 1];
      assert front[..i] == services[..i];
      PairsPrefix(front, locations, today, i);
      PrefixOfConcat(Pairs(front, locations, today), Each(locations, PairOn(services[|services| - 1], today)));
    } else {
      assert services[..i] == services;
    }
  }

  lemma PairsStep(services: seq<Listed>, locations: seq<Listed>, today: string, i: nat)
    requires i < |services|
    ensures Pairs(services[..i + 1], locations, today)
      == Pairs(services[..i], locations, today) + Each(locations, PairOn(services[i], today))
  {
    assert services[..i + 1][..i] == services[..i];
  }

  /** Pair (i, j) is entry `i·|locations| + j` of the pairs: service-major order. */
  lemma PairAt(services: seq<Listed>, locations: seq<Listed>, today: string, i: nat, j: nat)
    requires i < |services| && j < |locations|
    ensures var p, k := Pairs(services, locations, today), i * |locations| + j;
      k < |p| && p[k] == PairEntry(services[i], locations[j], today)
  {
    PairsPrefix(services, locations, today, i + 1);
    PairsLength(services[..i], locations, today);
    PairsStep(services, locations, today, i);
    EachAt(locations, PairOn(services[i], today));
    var before := Pairs(services[..i], locations, today);
    var row := Each(locations, PairOn(services[i], today));
    assert (before + row)[|before| + j] == row[j];
  }

  /** A pair's page sits under `/services/`, and its priority is the lower of the service's and the location's. */
  lemma PairEntryShape(service: Listed, location: Listed, today: string)
    ensures var e := PairEntry(service, location, today);
      IsPrefix(SitemapBaseUrl + "/services/", e.loc) && IsSuffix("/" + location.slug, e.loc)
      && e.priority <= service.priority && e.priority <= location.priority
      && (e.priority == service.priority || e.priority == location.priority)
      && e.changefreq == "weekly" && e.lastmod == today
  {
    var e := PairEntry(service, location, today);
    assert e.loc == (SitemapBaseUrl + "/services/") + (service.slug + ("/" + location.slug));
    PrefixOfConcat(SitemapBaseUrl + "/services/", service.slug + ("/" + location.slug));
    assert e.loc == ((SitemapBaseUrl + "/services/") + service.slug) + ("/" + location.slug);
    SuffixOfConcat((SitemapBaseUrl + "/services/") + service.slug, "/" + location.slug);
  }

  /** The list runs in four parts: the static pages, then each location, then each suburb, then the pairs. */
  lemma EntriesLength(pages: seq<StaticPage>, services: seq<Listed>, locations: seq<Listed>, suburbs: seq<string>,
                      today: string)
    ensures |Entries(pages, services, locations, suburbs, today)|
      == |pages| + |locations| + |suburbs| + |Pairs(services, locations, today)|
  {
    EachAt(pages, StaticOn(today));
    EachAt(locations, LocationOn(today));
    EachAt(suburbs, SuburbOn(today));
  }

  /** The static pages open the list, in their order. */
  lemma StaticPagesFirst(pages: seq<StaticPage>, services: seq<Listed>, locations: seq<Listed>, suburbs: seq<string>,
                         today: string, k: nat)
    requires k < |pages|
    ensures var e := Entries(pages, services, locations, suburbs, today);
      k < |e| && e[k] == StaticEntry(pages[k], today)
  {
    EntriesLength(pages, services, locations, suburbs, today);
    EachAt(pages, StaticOn(today));
  }

  /** The locations follow the static pages, in their order. */
  lemma LocationsNext(pages: seq<StaticPage>, services: seq<Listed>, locations: seq<Listed>, suburbs: seq<string>,
                      today: string, k: nat)
    requires k < |locations|
    ensures var e := Entries(pages, services, locations, suburbs, today);
      |pages| + k < |e| && e[|pages| + k] == LocationEntry(locations[k], today)
  {
    EntriesLength(pages, services, locations, suburbs, today);
    EachAt(pages, StaticOn(today));
    EachAt(locations, LocationOn(today));
    var a, b := Each(pages, StaticOn(today)), Each(locations, LocationOn(today));
    var c, d := Each(suburbs, SuburbOn(today)), Pairs(services, locations, today);
    assert Entries(pages, services, locations, suburbs, today) == (a + b) + c + d;
    assert ((a + b) + c + d)[|a| + k] == (a + b)[|a| + k] == b[k];
  }

  /** The suburbs follow the locations, in their order. */
  lemma SuburbsThen(pages: seq<StaticPage>, services: seq<Listed>, locations: seq<Listed>, suburbs: seq<string>,
                    today: string, k: nat)
    requires k < |suburbs|
    ensures var e := Entries(pages, services, locations, suburbs, today);
      |pages| + |locations| + k < |e| && e[|pages| + |locations| + k] == SuburbEntry(suburbs[k], today)
  {
    EntriesLength(pages, services, locations, suburbs, today);
    EachAt(pages, StaticOn(today));
    EachAt(locations, LocationOn(today));
    EachAt(suburbs, SuburbOn(today));
    var ab := Each(pages, StaticOn(today)) + Each(locations, LocationOn(today));
    var c, d := Each(suburbs, SuburbOn(today)), Pairs(services, locations, today);
    assert Entries(pages, services, locations, suburbs, today) == ab + c + d;
    assert (ab + c + d)[|ab| + k] == c[k];
  }

  /** The list holds `|pages| + |locations| + |suburbs| + |services|·|locations|` entries. */
  lemma EntryCount(pages: seq<StaticPage>, services: seq<Listed>, locations: seq<Listed>, suburbs: seq<string>,
                   today: string)
    ensures |Entries(pages, services, locations, suburbs, today)|
      == |pages| + |locations| + |suburbs| + |services| * |locations|
  {
    EntriesLength(pages, services, locations, suburbs, today);
    PairsLength(services, locations, today);
  }

  /** Pair (i, j) is entry `|pages| + |locations| + |suburbs| + i·|locations| + j`. */
  lemma PairsLast(pages: seq<StaticPage>, services: seq<Listed>, locations: seq<Listed>, suburbs: seq<string>,
                  today: string, i: nat, j: nat)
    requires i < |services| && j < |locations|
    ensures var e, k := Entries(pages, services, locations, suburbs, today),
                       |pages| + |locations| + |suburbs| + i * |locations| + j;
      k < |e| && e[k] == PairEntry(services[i], locations[j], today)
  {
    PairAt(services, locations, today, i, j);
    EachAt(pages, StaticOn(today));
    EachAt(locations, LocationOn(today));
    EachAt(suburbs, SuburbOn(today));
    var head := Each(pages, StaticOn(today)) + Each(locations, LocationOn(today)) + Each(suburbs, SuburbOn(today));
    var p := Pairs(services, locations, today);
    assert (head + p)[|head| + i * |locations| + j] == p[i * |locations| + j];
  }

  /** Every pair's `<loc>` starts with the base URL and every `<lastmod>` is `today`. */
  lemma {:induction false} PairsUnderBase(services: seq<Listed>, locations: seq<Listed>, today: string)
    ensures forall e :: e in Pairs(services, locations, today) ==> IsPrefix(SitemapBaseUrl, e.loc) && e.lastmod == today
  {
    if services != [] {
      var s := services[|services| - 1];
      PairsUnderBase(services[..|services| - 1], locations, today);
      EachAt(locations, PairOn(s, today));
      forall j | 0 <= j < |locations|
        ensures IsPrefix(SitemapBaseUrl, PairEntry(s, locations[j], today).loc)
      {
        var rest := "/services/" + s.slug + "/" + locations[j].slug;
        assert PairEntry(s, locations[j], today).loc == SitemapBaseUrl + rest;
        PrefixOfConcat(SitemapBaseUrl, rest);
      }
    }
  }

  /** Every `<loc>` starts with the base URL and every `<lastmod>` is the one date computed up front. */
  lemma EveryEntryUnderBase(pages: seq<StaticPage>, services: seq<Listed>, locations: seq<Listed>, suburbs: seq<string>,
                            today: string)
    ensures forall e :: e in Entries(pages, services, locations, suburbs, today) ==>
      IsPrefix(SitemapBaseUrl, e.loc) && e.lastmod == today
  {
    PairsUnderBase(services, locations, today);
    EachAt(pages, StaticOn(today));
    EachAt(locations, LocationOn(today));
    EachAt(suburbs, SuburbOn(today));
    forall k | 0 <= k < |pages| ensures IsPrefix(SitemapBaseUrl, StaticEntry(pages[k], today).loc) {
      PrefixOfConcat(SitemapBaseUrl, pages[k].url);
    }
    forall k | 0 <= k < |locations| ensures IsPrefix(SitemapBaseUrl, LocationEntry(locations[k], today).loc) {
      assert LocationEntry(locations[k], today).loc == SitemapBaseUrl + ("/" + locations[k].slug);
      PrefixOfConcat(SitemapBaseUrl, "/" + locations[k].slug);
    }
    forall k | 0 <= k < |suburbs| ensures IsPrefix(SitemapBaseUrl, SuburbEntry(suburbs[k], today).loc) {
      assert SuburbEntry(suburbs[k], today).loc == SitemapBaseUrl + ("/" + suburbs[k]);
      PrefixOfConcat(SitemapBaseUrl, "/" + suburbs[k]);
    }
  }

  /** Every priority stays within the protocol's 0.0–1.0 when the listed priorities do. */
  lemma {:induction false} PairsPrioritiesBounded(services: seq<Listed>, locations: seq<Listed>, today: string)
    requires forall l :: l in locations ==> l.priority <= 10
    ensures forall e :: e in Pairs(services, locations, today) ==> e.priority <= 10
  {
    if services != [] {
      PairsPrioritiesBounded(services[..|services| - 1], locations, today);
      EachAt(locations, PairOn(services[|services| - 1], today));
    }
  }

  lemma PrioritiesBounded(pages: seq<StaticPage>, services: seq<Listed>, locations: seq<Listed>, suburbs: seq<string>,
                          today: string)
    requires forall p :: p in pages ==> p.priority <= 10
    requires forall l :: l in locations ==> l.priority <= 10
    ensures forall e :: e in Entries(pages, services, locations, suburbs, today) ==> e.priority <= 10
  {
    EachAt(pages, StaticOn(today));
    EachAt(locations, LocationOn(today));
    EachAt(suburbs, SuburbOn(today));
    PairsPrioritiesBounded(services, locations, today);
  }

  // ---------------------------------------------------------------- the lists the script carries

  const ShownPages := [
    StaticPage("/", "weekly", 10), StaticPage("/about", "monthly", 7),
    StaticPage("/contact", "monthly", 8), StaticPage("/progress", "weekly", 5)]

  const ShownServices := [
    Listed("pool-cleaning", 9), Listed("pool-maintenance", 9),
    Listed("chemical-balancing", 8), Listed("equipment-repairs", 8)]

  const ShownLocations := [
    Listed("sydney-north-shore", 8), Listed("sydney-eastern-suburbs", 8), Listed("sydney-inner-west", 8),
    Listed("sydney-south", 8), Listed("sydney-west", 8), Listed("newcastle", 7), Listed("illawarra", 7)]

  const NorthShoreSuburbs := ["mosman", "neutral-bay", "chatswood", "lane-cove", "willoughby", "artarmon", "cremorne"]
  const EasternSuburbs := ["bondi", "double-bay", "paddington", "woollahra", "rose-bay", "vaucluse", "coogee"]
  const InnerWestSuburbs := ["leichhardt", "balmain", "newtown", "glebe", "marrickville", "dulwich-hill", "annandale"]
  const SouthSuburbs := ["cronulla", "miranda", "hurstville", "kogarah", "brighton-le-sands", "sans-souci", "caringbah"]
  const WestSuburbs := ["parramatta", "blacktown", "penrith", "castle-hill", "baulkham-hills", "ryde", "homebush"]
  const NewcastleSuburbs := ["lake-macquarie", "port-stephens", "cessnock", "maitland", "raymond-terrace", "wallsend"]
  const IllawarraSuburbs := ["wollongong", "shellharbour", "kiama", "port-kembla", "dapto", "corrimal", "thirroul"]

  /** Seven suburbs for each region but Newcastle's, which lists six. */
  const ShownSuburbs: seq<string> :=
    NorthShoreSuburbs + EasternSuburbs + InnerWestSuburbs + SouthSuburbs + WestSuburbs + NewcastleSuburbs
    + IllawarraSuburbs

  function ShownSitemap(today: string): seq<Entry>
  {
    Entries(ShownPages, ShownServices, ShownLocations, ShownSuburbs, today)
  }

  /** The suburb list holds 48 slugs and not `newcastle`. */
  lemma SuburbListOmitsNewcastle()
    ensures |ShownSuburbs| == 48 && "newcastle" !in ShownSuburbs
  {
    assert "newcastle" !in NorthShoreSuburbs;
    assert "newcastle" !in EasternSuburbs;
    assert "newcastle" !in InnerWestSuburbs;
    assert "newcastle" !in SouthSuburbs;
    assert "newcastle" !in WestSuburbs;
    assert "newcastle" !in NewcastleSuburbs;
    assert "newcastle" !in IllawarraSuburbs;
  }

  /** 4 static pages, 7 locations, 48 suburbs and 28 pairs: 87 entries. */
  lemma ShownSitemapCount(today: string)
    ensures |ShownSitemap(today)| == 87
  {
    EntryCount(ShownPages, ShownServices, ShownLocations, ShownSuburbs, today);
  }

  /** Every priority in the generated sitemap lies within the protocol's 0.0–1.0. */
  lemma ShownPrioritiesValid(today: string)
    ensures forall e :: e in ShownSitemap(today) ==> e.priority <= 10
  {
    assert forall p :: p in ShownPages ==> p.priority <= 10;
    assert forall l :: l in ShownLocations ==> l.priority <= 10;
    PrioritiesBounded(ShownPages, ShownServices, ShownLocations, ShownSuburbs, today);
  }

  /** `/newcastle` is listed as the Newcastle location page, the tenth entry, at priority 0.7. */
  lemma NewcastleListedAsLocation(today: string)
    ensures var e := ShownSitemap(today);
      9 < |e| && e[9] == Entry(SitemapBaseUrl + "/newcastle", today, "weekly", 7)
  {
    LocationsNext(ShownPages, ShownServices, ShownLocations, ShownSuburbs, today, 5);
  }
}
