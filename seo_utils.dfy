/** The SEO generators: page titles, descriptions, keywords, canonical URLs and schema.org JSON-LD objects. */
module SeoUtils {
  import opened Wrappers
  import opened Text
  import opened Records
  import opened Slug

  // ---------------------------------------------------------------- configuration

  const SiteName := "PoolZen"
  const BaseUrl := "https://pool-zen.vercel.app"
  const Phone := "1300 766 593"
  const PhoneFormatted := "1300 POOL ZEN"
  const Regions: seq<string> := ["Sydney", "Newcastle", "Illawarra"]

  /** `baseKeywords`: the list every keyword string starts with. */
  const BaseKeywords: seq<string> :=
    ["pool service near me", "swimming pool maintenance", "pool cleaning", "pool maintenance", "pool repair"]

  /** `SEO_CONFIG.serviceKeywords`, looked up by service slug. */
  function ServiceKeywordTable(slug: string): Option<seq<string>>
  {
    if slug == "pool-cleaning" then
      Some(["pool cleaning service", "pool cleaning near me", "swimming pool cleaning", "pool cleaning companies"])
    else if slug == "pool-maintenance" then
      Some(["pool maintenance service", "swimming pool maintenance", "pool maintenance near me", "pool maintenance cost"])
    else if slug == "chemical-balancing" then
      Some(["pool chemical balancing", "pool water testing", "pool chemical service", "pool water treatment"])
    else if slug == "equipment-repairs" then
      Some(["pool equipment repair", "pool pump repair", "pool filter repair", "pool heater repair"])
    else None
  }

  /** `SEO_CONFIG.locationKeywords`, looked up by lower-cased region. */
  function RegionKeywordTable(key: string): Option<seq<string>>
  {
    if key == "sydney" then
      Some(["pool maintenance sydney", "pool cleaning sydney", "pool service sydney", "pool cleaner sydney"])
    else if key == "newcastle" then
      Some(["pool maintenance newcastle", "pool cleaning newcastle", "pool service newcastle"])
    else if key == "illawarra" then
      Some(["pool maintenance wollongong", "pool cleaning illawarra", "pool service wollongong"])
    else None
  }

  // ---------------------------------------------------------------- which page

  /** A suburb argument counts only when it is a non-empty string (JavaScript truthiness). */
  predicate HasSuburb(suburb: Option<string>)
  {
    suburb.Some? && suburb.value != ""
  }

  /** The six branches of the title and description generators. */
  datatype Page = ServiceAndLocation | ServiceAndSuburb | ServiceOnly | LocationOnly | SuburbOnly | Home

  /** The branch the if-chain takes: service with location first, then service with suburb, and so on down to the home page. */
  function Branch(service: Option<Service>, location: Option<Location>, suburb: Option<string>): (k: Page)
    ensures k == ServiceAndLocation <==> service.Some? && location.Some?
    ensures k == ServiceAndSuburb <==> service.Some? && location.None? && HasSuburb(suburb)
    ensures k == ServiceOnly <==> service.Some? && location.None? && !HasSuburb(suburb)
    ensures k == LocationOnly <==> service.None? && location.Some?
    ensures k == SuburbOnly <==> service.None? && location.None? && HasSuburb(suburb)
    ensures k == Home <==> service.None? && location.None? && !HasSuburb(suburb)
  {
    if service.Some? && location.Some? then ServiceAndLocation
    else if service.Some? && HasSuburb(suburb) then ServiceAndSuburb
    else if service.Some? then ServiceOnly
    else if location.Some? then LocationOnly
    else if HasSuburb(suburb) then SuburbOnly
    else Home
  }

  // ---------------------------------------------------------------- title

  const TitleTail := " | PoolZen"
  const ServiceSuburbTitle := " | Professional Pool Services"
  const ServiceTitle := " Services Sydney | Expert Pool Care"
  const LocationTitle := " | Cleaning & Repairs"
  const SuburbTitle := " | Local Pool Maintenance"
  const HomeTitle := "Pool Cleaning & Maintenance Sydney | Same Day Service | PoolZen"

  /** `generateSeoTitle`; nothing here bounds the length. */
  function Title(service: Option<Service>, location: Option<Location>, suburb: Option<string>): string
  {
    match Branch(service, location, suburb)
    case ServiceAndLocation =>
      service.value.name + " " + location.value.name + " | " + "From $" + Dec(service.value.basePrice) + TitleTail
    case ServiceAndSuburb => service.value.name + " " + suburb.value + ServiceSuburbTitle + TitleTail
    case ServiceOnly => service.value.name + ServiceTitle + TitleTail
    case LocationOnly => "Pool Maintenance " + location.value.name + LocationTitle + TitleTail
    case SuburbOnly => "Pool Services " + suburb.value + SuburbTitle + TitleTail
    case Home => HomeTitle
  }

  /** The service-only title opens with the service name and "Services Sydney" and ends with the site name. */
  lemma ServiceTitleShape(name: string)
    ensures IsPrefix(name + " Services Sydney", name + ServiceTitle + TitleTail)
    ensures IsSuffix(TitleTail, name + ServiceTitle + TitleTail)
  {
    var head := name + " Services Sydney";
    var rest := " | Expert Pool Care" + TitleTail;
    assert ServiceTitle == " Services Sydney" + " | Expert Pool Care";
    assert name + ServiceTitle + TitleTail == head + rest;
    PrefixOfConcat(head, rest);
    SuffixOfConcat(name + ServiceTitle, TitleTail);
  }

  /** Every title ends with the site name; each branch leads with the names it was given, and the priced one shows the price. */
  lemma TitleShape(service: Option<Service>, location: Option<Location>, suburb: Option<string>)
    ensures IsSuffix(TitleTail, Title(service, location, suburb))
    ensures Branch(service, location, suburb) == ServiceAndLocation ==>
      IsPrefix(service.value.name + " " + location.value.name, Title(service, location, suburb))
      && Contains(Title(service, location, suburb), "From $" + Dec(service.value.basePrice))
    ensures Branch(service, location, suburb) == ServiceAndSuburb ==>
      IsPrefix(service.value.name + " " + suburb.value, Title(service, location, suburb))
    ensures Branch(service, location, suburb) == ServiceOnly ==>
      IsPrefix(service.value.name + " Services Sydney", Title(service, location, suburb))
    ensures Branch(service, location, suburb) == LocationOnly ==>
      IsPrefix("Pool Maintenance " + location.value.name, Title(service, location, suburb))
    ensures Branch(service, location, suburb) == SuburbOnly ==>
      IsPrefix("Pool Services " + suburb.value, Title(service, location, suburb))
  {
    var t := Title(service, location, suburb);
    match Branch(service, location, suburb)
    case ServiceAndLocation =>
      var head := service.value.name + " " + location.value.name;
      var price := "From $" + Dec(service.value.basePrice);
      assert t == head + " | " + price + TitleTail;
      ContainsMiddle(head + " | ", price, TitleTail);
      PrefixOfConcat(head, " | " + price + TitleTail);
      SuffixOfConcat(head + " | " + price, TitleTail);
    case ServiceAndSuburb =>
      var head := service.value.name + " " + suburb.value;
      PrefixOfConcat(head, ServiceSuburbTitle + TitleTail);
      SuffixOfConcat(head + ServiceSuburbTitle, TitleTail);
    case ServiceOnly =>
      ServiceTitleShape(service.value.name);
    case LocationOnly =>
      var head := "Pool Maintenance " + location.value.name;
      PrefixOfConcat(head, LocationTitle + TitleTail);
      SuffixOfConcat(head + LocationTitle, TitleTail);
    case SuburbOnly =>
      var head := "Pool Services " + suburb.value;
      PrefixOfConcat(head, SuburbTitle + TitleTail);
      SuffixOfConcat(head + SuburbTitle, TitleTail);
    case Home =>
      SuffixOfConcat("Pool Cleaning & Maintenance Sydney | Same Day Service", TitleTail);
  }

  // ---------------------------------------------------------------- description

  const ServiceLocationBlurb := ". Licensed technicians, from $"
  const ServiceLocationTail := ". Same-day service available. Call 1300 POOL ZEN!"
  const ServiceSuburbTail := ". Fully licensed & insured pool technicians. Free quotes available!"
  const ServiceRegions := " across Sydney, Newcastle & Illawarra. "
  const ServiceTail := ". Licensed technicians, competitive pricing. Get a free quote today!"
  const LocationTail := " & surrounds. Licensed technicians, same-day service. Call 1300 POOL ZEN for free quote!"
  const SuburbTail := ". Professional technicians, competitive rates, same-day service available. Call 1300 POOL ZEN for a free quote!"
  const HomeDescription :=
    "Sydney's trusted pool maintenance experts. Professional pool cleaning, chemical balancing & equipment repairs across Sydney, Newcastle & Illawarra. Same-day service. Call 1300 POOL ZEN!"

  /** `location.suburbs?.slice(0, 3).join(', ') || ''`. */
  function SuburbList(location: Location): string
  {
    match location.suburbs
    case None => ""
    case Some(names) => Join(Take(names, 3), ", ")
  }

  function ServiceLocationDescription(s: Service, l: Location): string
  {
    "Professional " + ToLower(s.name) + " in " + l.name + ". " + s.shortDescription
      + (ServiceLocationBlurb + Dec(s.basePrice) + "/" + s.priceUnit) + ServiceLocationTail
  }

  function LocationDescription(l: Location): string
  {
    "Expert pool maintenance & cleaning in " + l.name + (". Serving " + SuburbList(l) + LocationTail)
  }

  function SuburbPageDescription(suburb: string): string
  {
    "Local pool cleaning & maintenance in " + (suburb + SuburbTail)
  }

  /** `generateSeoDescription`, on the same branches as the title. */
  function Description(service: Option<Service>, location: Option<Location>, suburb: Option<string>): string
  {
    match Branch(service, location, suburb)
    case ServiceAndLocation => ServiceLocationDescription(service.value, location.value)
    case ServiceAndSuburb =>
      "Expert " + ToLower(service.value.name) + " services in " + suburb.value + ". " + service.value.shortDescription
        + ServiceSuburbTail
    case ServiceOnly =>
      "Professional " + ToLower(service.value.name) + ServiceRegions + service.value.shortDescription + ServiceTail
    case LocationOnly => LocationDescription(location.value)
    case SuburbOnly => SuburbPageDescription(suburb.value)
    case Home => HomeDescription
  }

  /** The location description names at most the first three listed suburbs, and the priced one quotes price and unit. */
  lemma DescriptionShape(service: Option<Service>, location: Option<Location>, suburb: Option<string>)
    ensures Branch(service, location, suburb) == LocationOnly ==>
      Contains(Description(service, location, suburb), ". Serving " + SuburbList(location.value) + LocationTail)
    ensures Branch(service, location, suburb) == ServiceAndLocation ==>
      Contains(Description(service, location, suburb),
               ServiceLocationBlurb + Dec(service.value.basePrice) + "/" + service.value.priceUnit)
    ensures Branch(service, location, suburb) == SuburbOnly ==>
      Contains(Description(service, location, suburb), suburb.value + SuburbTail)
  {
    match Branch(service, location, suburb)
    case LocationOnly =>
      var l := location.value;
      ContainsTail("Expert pool maintenance & cleaning in " + l.name, ". Serving " + SuburbList(l) + LocationTail);
    case ServiceAndLocation =>
      var s, l := service.value, location.value;
      ContainsMiddle("Professional " + ToLower(s.name) + " in " + l.name + ". " + s.shortDescription,
                     ServiceLocationBlurb + Dec(s.basePrice) + "/" + s.priceUnit, ServiceLocationTail);
    case SuburbOnly =>
      ContainsTail("Local pool cleaning & maintenance in ", suburb.value + SuburbTail);
    case _ =>
  }

  // ---------------------------------------------------------------- keywords

  /** The service part: its table entry, or its lower-cased name when the slug has none. */
  function ServiceKeywords(service: Option<Service>): seq<string>
  {
    match service
    case None => []
    case Some(s) =>
      match ServiceKeywordTable(s.slug)
      case Some(k) => k
      case None => [ToLower(s.name)]
  }

  /** The location part: the region's entry (or nothing), the name, "pool service <name>" and up to five suburbs. */
  function LocationKeywords(location: Option<Location>): seq<string>
  {
    match location
    case None => []
    case Some(l) =>
      var region := match RegionKeywordTable(ToLower(l.region)) case Some(k) => k case None => [];
      var suburbs := match l.suburbs case Some(names) => Map(Take(names, 5), ToLower) case None => [];
      region + [ToLower(l.name), "pool service " + ToLower(l.name)] + suburbs
  }

  /** The suburb part, present only for a non-empty suburb. */
  function SuburbKeywords(suburb: Option<string>): seq<string>
  {
    if HasSuburb(suburb) then
      var s := ToLower(suburb.value);
      [s, "pool cleaning " + s, "pool maintenance " + s, "pool service " + s]
    else []
  }

  /** What the page adds after the base keywords. */
  function PageKeywords(service: Option<Service>, location: Option<Location>, suburb: Option<string>): seq<string>
  {
    ServiceKeywords(service) + LocationKeywords(location) + SuburbKeywords(suburb)
  }

  /** Every keyword before deduplication, in push order. */
  function KeywordCandidates(service: Option<Service>, location: Option<Location>, suburb: Option<string>): seq<string>
  {
    BaseKeywords + PageKeywords(service, location, suburb)
  }

  /** `[...new Set(all)].slice(0, 15)`. */
  function KeywordList(service: Option<Service>, location: Option<Location>, suburb: Option<string>): seq<string>
  {
    Take(Dedup(KeywordCandidates(service, location, suburb)), 15)
  }

  /** `generateSeoKeywords`. */
  function Keywords(service: Option<Service>, location: Option<Location>, suburb: Option<string>): string
  {
    Join(KeywordList(service, location, suburb), ", ")
  }

  lemma BaseKeywordsDistinct()
    ensures NoDup(BaseKeywords)
  {
  }

  /**
   * The keyword list has no repeats, at most fifteen entries, only candidate keywords, and always opens with
   * the five base keywords. It keeps the first fifteen distinct candidates in order of first appearance:
   * the distinct keywords of any leading run of candidates open it while there are at most fifteen of them,
   * it is fifteen long when there are more, and every candidate is kept when there are at most fifteen.
   */
  lemma KeywordListShape(service: Option<Service>, location: Option<Location>, suburb: Option<string>)
    ensures var r := KeywordList(service, location, suburb);
      NoDup(r) && |r| <= 15 && IsPrefix(BaseKeywords, r)
      && (forall k :: k in r ==> k in KeywordCandidates(service, location, suburb))
      && (|Dedup(KeywordCandidates(service, location, suburb))| <= 15 ==>
            forall k :: k in KeywordCandidates(service, location, suburb) ==> k in r)
    ensures var c := KeywordCandidates(service, location, suburb);
      |Dedup(c)| > 15 ==> |KeywordList(service, location, suburb)| == 15
    ensures var c := KeywordCandidates(service, location, suburb);
      forall i :: 0 <= i <= |c| && |Dedup(c[..i])| <= 15 ==> IsPrefix(Dedup(c[..i]), KeywordList(service, location, suburb))
  {
    BaseKeywordsDistinct();
    DedupTakeShape(BaseKeywords, PageKeywords(service, location, suburb), 15);
  }

  // ---------------------------------------------------------------- canonical URL

  /** `generateCanonicalUrl`: service with location, then location, then suburb, then the bare base URL. */
  function Canonical(service: Option<Service>, location: Option<Location>, suburb: Option<string>): string
  {
    if service.Some? && location.Some? then BaseUrl + "/services/" + service.value.slug + "/" + location.value.slug
    else if location.Some? then BaseUrl + "/" + location.value.slug
    else if HasSuburb(suburb) then BaseUrl + "/" + DashWhitespace(ToLower(suburb.value))
    else BaseUrl
  }

  /** Every canonical URL is on the base URL; a service without a location is ignored. */
  lemma CanonicalPrecedence(service: Option<Service>, location: Option<Location>, suburb: Option<string>)
    ensures IsPrefix(BaseUrl, Canonical(service, location, suburb))
    ensures location.None? ==> Canonical(service, location, suburb) == Canonical(None, None, suburb)
    ensures location.Some? && service.Some? ==>
      Canonical(service, location, suburb) == BaseUrl + "/services/" + service.value.slug + "/" + location.value.slug
    ensures location.Some? && service.None? ==> Canonical(service, location, suburb) == BaseUrl + "/" + location.value.slug
    ensures location.None? && HasSuburb(suburb) ==>
      Canonical(service, location, suburb) == BaseUrl + "/" + DashWhitespace(ToLower(suburb.value))
    ensures location.None? && !HasSuburb(suburb) ==> Canonical(service, location, suburb) == BaseUrl
  {
    var r := Canonical(service, location, suburb);
    if r != BaseUrl {
      PrefixOfConcat(BaseUrl, r[|BaseUrl|..]);
      assert r == BaseUrl + r[|BaseUrl|..];
    }
  }

  // ---------------------------------------------------------------- Open Graph

  datatype OpenGraph = OpenGraph(
    title: string, description: string, url: string, siteName: string, kind: string, locale: string,
    image: string, imageWidth: nat, imageHeight: nat)

  /** `generateOpenGraphData`: the three generators' outputs for the same arguments, plus fixed fields. */
  function OpenGraphData(service: Option<Service>, location: Option<Location>, suburb: Option<string>): (r: OpenGraph)
    ensures r.title == Title(service, location, suburb)
    ensures r.description == Description(service, location, suburb)
    ensures r.url == Canonical(service, location, suburb)
    ensures r.siteName == SiteName && r.imageWidth == 1200 && r.imageHeight == 630
  {
    OpenGraph(Title(service, location, suburb), Description(service, location, suburb),
              Canonical(service, location, suburb), SiteName, "website", "en_AU",
              BaseUrl + "/og-image.jpg", 1200, 630)
  }

  // ---------------------------------------------------------------- JSON-LD

  const SchemaContext := "https://schema.org"

  datatype Crumb = Crumb(name: string, url: string)
  datatype ListItem = ListItem(position: nat, name: string, item: string)
  datatype BreadcrumbList = BreadcrumbList(context: string, itemListElement: seq<ListItem>)

  /** `items.map((item, index) => …)`, built one item at a time so that each takes the next position. */
  function ListItems(items: seq<Crumb>): (r: seq<ListItem>)
    ensures |r| == |items|
    ensures forall i :: 0 <= i < |items| ==> r[i] == ListItem(i + 1, items[i].name, items[i].url)
  {
    if items == [] then []
    else
      var n := |items|;
      ListItems(items[..n - 1]) + [ListItem(n, items[n - 1].name, items[n - 1].url)]
  }

  /** `generateBreadcrumbSchema`. */
  function BreadcrumbSchema(items: seq<Crumb>): (r: BreadcrumbList)
    ensures r.context == SchemaContext
    ensures |r.itemListElement| == |items|
    ensures forall i :: 0 <= i < |items| ==>
      r.itemListElement[i].position == i + 1 && Crumb(r.itemListElement[i].name, r.itemListElement[i].item) == items[i]
  {
    BreadcrumbList(SchemaContext, ListItems(items))
  }

  /** Positions run 1, 2, …, n with no gap and no repeat. */
  lemma BreadcrumbPositions(items: seq<Crumb>)
    ensures forall i, j :: 0 <= i < j < |items| ==>
      BreadcrumbSchema(items).itemListElement[i].position < BreadcrumbSchema(items).itemListElement[j].position
    ensures items != [] ==> BreadcrumbSchema(items).itemListElement[|items| - 1].position == |items|
  {
  }

  datatype Faq = Faq(question: string, answer: string)
  datatype Question = Question(name: string, acceptedAnswer: string)
  datatype FaqPage = FaqPage(context: string, mainEntity: seq<Question>)

  function AsQuestion(faq: Faq): Question { Question(faq.question, faq.answer) }

  /** `generateFaqSchema`: one question per FAQ, in order. */
  function FaqSchema(faqs: seq<Faq>): (r: FaqPage)
    ensures r.context == SchemaContext
    ensures |r.mainEntity| == |faqs|
    ensures forall i :: 0 <= i < |faqs| ==>
      r.mainEntity[i].name == faqs[i].question && r.mainEntity[i].acceptedAnswer == faqs[i].answer
  {
    FaqPage(SchemaContext, Map(faqs, AsQuestion))
  }

  datatype City = City(name: string, addressRegion: string, addressCountry: string)

  /** One city object for a location page, an array of the three regions otherwise. */
  datatype AreaServed = OneCity(city: City) | Cities(cities: seq<City>)

  datatype ServiceSchema = ServiceSchema(
    context: string, name: string, description: string,
    providerName: string, telephone: string, providerUrl: string,
    areaServed: AreaServed, price: string, priceCurrency: string, unitText: string,
    serviceType: string, category: string)

  function RegionCity(region: string): City { City(region, "NSW", "AU") }

  /** `generateServiceSchema`. */
  function ServiceSchemaFor(service: Service, location: Option<Location>): (r: ServiceSchema)
    ensures location.Some? ==> r.name == service.name + " in " + location.value.name
    ensures location.Some? ==> r.areaServed == OneCity(City(location.value.name, "NSW", "AU"))
    ensures location.None? ==> r.name == service.name && r.areaServed.Cities? && |r.areaServed.cities| == |Regions|
    ensures location.None? ==> forall i :: 0 <= i < |Regions| ==> r.areaServed.cities[i] == City(Regions[i], "NSW", "AU")
    ensures r.price == Dec(service.basePrice) && r.priceCurrency == "AUD"
    ensures r.unitText == "per " + service.priceUnit && r.serviceType == service.category
    ensures r.providerName == SiteName + " Pool Services" && r.telephone == Phone && r.providerUrl == BaseUrl
  {
    var area := if location.Some? then OneCity(City(location.value.name, "NSW", "AU")) else Cities(Map(Regions, RegionCity));
    ServiceSchema(
      SchemaContext, if location.Some? then service.name + " in " + location.value.name else service.name,
      service.description, SiteName + " Pool Services", Phone, BaseUrl, area,
      Dec(service.basePrice), "AUD", "per " + service.priceUnit, service.category, "Pool Services")
  }

  /** The schema's price is the one the service-and-location title advertises. */
  lemma SchemaPriceInTitle(service: Service, location: Location, suburb: Option<string>)
    ensures Contains(Title(Some(service), Some(location), suburb),
                     "From $" + ServiceSchemaFor(service, Some(location)).price)
  {
    TitleShape(Some(service), Some(location), suburb);
  }
}
