/** `Admin`: the figures, the id-to-name join and the quote filter the admin dashboard derives from its queries. */
module Admin {
  import opened Wrappers
  import opened Text
  import opened Arith
  import opened Records

  // ---------------------------------------------------------------- statistics

  /** `list?.length || 0`: a list still loading counts as empty. */
  function LengthOrZero<T>(list: Option<seq<T>>): nat
  {
    if list.Some? then |list.value| else 0
  }

  /** `q.estimatedValue || 150`: a missing estimate and an estimate of 0 both count as 150. */
  function EstimateOrDefault(q: Quote): int
  {
    if q.estimatedValue.Some? && q.estimatedValue.value != 0 then q.estimatedValue.value else 150
  }

  /** The `reduce` over the quotes, left to right. */
  function EstimateSum(quotes: seq<Quote>): int
  {
    if quotes == [] then 0 else EstimateSum(quotes[..|quotes| - 1]) + EstimateOrDefault(quotes[|quotes| - 1])
  }

  /** `Math.round(sum / n)`: the nearest integer, halves rounded up. */
  function RoundedMean(sum: int, n: nat): int
    requires n > 0
  {
    (2 * sum + n) / (2 * n)
  }

  datatype AdminStats = AdminStats(
    totalQuotes: nat, pendingQuotes: nat, completedQuotes: nat,
    totalServices: nat, totalLocations: nat, totalSuburbs: nat, averageQuoteValue: int)

  predicate IsPending(q: Quote) { q.status == "pending" }
  predicate IsCompleted(q: Quote) { q.status == "completed" }

  /** `adminStats`, without `thisMonthQuotes`. */
  function Stats(services: Option<seq<Service>>, locations: Option<seq<Location>>, suburbs: Option<seq<Suburb>>,
                 quotes: Option<seq<Quote>>): (r: AdminStats)
    ensures r.totalQuotes == LengthOrZero(quotes)
    ensures quotes.Some? ==>
      r.pendingQuotes == |Filter(quotes.value, IsPending)| && r.completedQuotes == |Filter(quotes.value, IsCompleted)|
    ensures quotes.None? ==> r.pendingQuotes == 0 && r.completedQuotes == 0
    ensures r.pendingQuotes + r.completedQuotes <= r.totalQuotes
    ensures r.totalQuotes == 0 ==> r.averageQuoteValue == 0
    ensures r.totalServices == LengthOrZero(services) && r.totalLocations == LengthOrZero(locations)
    ensures r.totalSuburbs == LengthOrZero(suburbs)
  {
    var all := if quotes.Some? then quotes.value else [];
    FilterDisjointCount(all, IsPending, IsCompleted);
    AdminStats(
      LengthOrZero(quotes), |Filter(all, IsPending)|, |Filter(all, IsCompleted)|,
      LengthOrZero(services), LengthOrZero(locations), LengthOrZero(suburbs),
      if |all| > 0 then RoundedMean(EstimateSum(all), |all|) else 0)
  }

  /** The sum lies between `n·lo` and `n·hi` when every counted estimate does between `lo` and `hi`. */
  lemma {:induction false} SumWithin(quotes: seq<Quote>, lo: int, hi: int)
    requires forall q :: q in quotes ==> lo <= EstimateOrDefault(q) <= hi
    ensures |quotes| * lo <= EstimateSum(quotes) <= |quotes| * hi
  {
    if quotes != [] {
      var n, front := |quotes|, quotes[..|quotes| - 1];
      forall q | q in front ensures lo <= EstimateOrDefault(q) <= hi {
        assert q in quotes;
      }
      SumWithin(front, lo, hi);
      var e := EstimateOrDefault(quotes[n - 1]);
      assert lo <= e <= hi by {
        assert quotes[n - 1] in quotes;
      }
      assert EstimateSum(quotes) == EstimateSum(front) + e;
      assert n * lo == (n - 1) * lo + lo;
      assert n * hi == (n - 1) * hi + hi;
    }
  }

  /** The average lies within any range every counted estimate lies within, e.g. [100, 299] for created quotes. */
  lemma AverageWithin(quotes: seq<Quote>, lo: int, hi: int)
    requires quotes != []
    requires forall q :: q in quotes ==> lo <= EstimateOrDefault(q) <= hi
    ensures lo <= Stats(None, None, None, Some(quotes)).averageQuoteValue <= hi
  {
    var n, sum := |quotes|, EstimateSum(quotes);
    SumWithin(quotes, lo, hi);
    assert lo * (2 * n) <= 2 * sum + n;
    DivAtLeast(2 * sum + n, 2 * n, lo);
    assert 2 * sum + n < (hi + 1) * (2 * n);
    DivAtMost(2 * sum + n, 2 * n, hi);
  }

  /** A quote whose estimate is 0 weighs in like one with no estimate. */
  lemma ZeroEstimateCountsAsDefault(q: Quote)
    ensures EstimateOrDefault(q.(estimatedValue := Some(0))) == EstimateOrDefault(q.(estimatedValue := None)) == 150
  {
  }

  // ---------------------------------------------------------------- the join

  /** `locations?.find(loc => loc.id === id)?.name || 'Unknown'`. */
  function LocationName(locations: Option<seq<Location>>, id: Id): string
  {
    var found := if locations.Some? then Find(locations.value, (l: Location) => l.id == id) else None;
    if found.Some? && found.value.name != "" then found.value.name else "Unknown"
  }

  /** `services?.find(svc => svc.id === id)?.name || 'General Service'`. */
  function ServiceName(services: Option<seq<Service>>, id: Id): string
  {
    var found := if services.Some? then Find(services.value, (s: Service) => s.id == id) else None;
    if found.Some? && found.value.name != "" then found.value.name else "General Service"
  }

  /** The name shown is that of the first location with the id; the fallback only when there is none or its name is empty. */
  lemma LocationNameIsFirstMatch(locations: seq<Location>, id: Id)
    ensures var i := FirstIndex(locations, (l: Location) => l.id == id);
      LocationName(Some(locations), id)
      == if i.Some? && locations[i.value].name != "" then locations[i.value].name else "Unknown"
    ensures LocationName(None, id) == "Unknown"
  {
  }

  /** The same for services, with 'General Service' as the fallback. */
  lemma ServiceNameIsFirstMatch(services: seq<Service>, id: Id)
    ensures var i := FirstIndex(services, (s: Service) => s.id == id);
      ServiceName(Some(services), id)
      == if i.Some? && services[i.value].name != "" then services[i.value].name else "General Service"
    ensures ServiceName(None, id) == "General Service"
  {
  }

  /** A quote with the names of its location and service. */
  datatype Detailed = Detailed(quote: Quote, locationName: string, serviceName: string)

  function DetailsOf(locations: Option<seq<Location>>, services: Option<seq<Service>>): Quote -> Detailed
  {
    (q: Quote) => Detailed(q, LocationName(locations, q.locationId), ServiceName(services, q.serviceId))
  }

  /** `quotesWithDetails`: one row per quote, in order, each carrying its own quote. */
  function WithDetails(quotes: Option<seq<Quote>>, locations: Option<seq<Location>>, services: Option<seq<Service>>)
    : (r: seq<Detailed>)
    ensures |r| == LengthOrZero(quotes)
    ensures quotes.Some? ==> forall i :: 0 <= i < |r| ==> r[i].quote == quotes.value[i]
    ensures quotes.Some? ==> forall i :: 0 <= i < |r| ==>
      r[i].locationName == LocationName(locations, quotes.value[i].locationId)
      && r[i].serviceName == ServiceName(services, quotes.value[i].serviceId)
  {
    Map(if quotes.Some? then quotes.value else [], DetailsOf(locations, services))
  }

  // ---------------------------------------------------------------- filter and search

  datatype QuoteFilter = All | PendingOnly | CompletedOnly

  function FilterStatus(f: QuoteFilter): string
    requires !f.All?
  {
    if f.PendingOnly? then "pending" else "completed"
  }

  predicate MatchesFilter(f: QuoteFilter, d: Detailed)
  {
    f.All? || d.quote.status == FilterStatus(f)
  }

  /** The search is case-blind on all four fields; an empty term matches everything. */
  predicate MatchesSearch(term: string, d: Detailed)
  {
    var t := ToLower(term);
    term == "" || Includes(ToLower(d.quote.customerName), t) || Includes(ToLower(d.quote.email), t)
    || Includes(ToLower(d.locationName), t) || Includes(ToLower(d.serviceName), t)
  }

  function Shown(f: QuoteFilter, term: string): Detailed -> bool
  {
    d => MatchesFilter(f, d) && MatchesSearch(term, d)
  }

  /**
   * `filteredQuotes`: the rows in their order, keeping a row exactly when its status is the filter's (any status
   * for 'all') and the lower-cased term occurs in its lower-cased name, email, location name or service name.
   */
  function Filtered(rows: seq<Detailed>, f: QuoteFilter, term: string): (r: seq<Detailed>)
    ensures IsSubseq(r, rows)
    ensures forall d :: d in r <==>
      d in rows && (f.All? || d.quote.status == FilterStatus(f))
      && (term == "" || Contains(ToLower(d.quote.customerName), ToLower(term))
          || Contains(ToLower(d.quote.email), ToLower(term)) || Contains(ToLower(d.locationName), ToLower(term))
          || Contains(ToLower(d.serviceName), ToLower(term)))
  {
    Filter(rows, Shown(f, term))
  }

  /** With the 'all' filter and no search term every row is shown, in order. */
  lemma NoFilterShowsAll(rows: seq<Detailed>)
    ensures Filtered(rows, All, "") == rows
  {
    FilterKeepsAll(rows, Shown(All, ""));
  }

  /** Any other filter shows only rows of its status. */
  lemma FilterKeepsOneStatus(rows: seq<Detailed>, f: QuoteFilter, term: string)
    requires !f.All?
    ensures forall d :: d in Filtered(rows, f, term) ==> d.quote.status == FilterStatus(f)
  {
  }

  /** "Recent Quote Requests": the first five shown rows, or all of them when fewer. */
  function RecentActivity(rows: seq<Detailed>): (r: seq<Detailed>)
    ensures |r| <= 5 && IsPrefix(r, rows)
    ensures |rows| >= 5 ==> |r| == 5
    ensures |rows| < 5 ==> r == rows
  {
    Take(rows, 5)
  }

  // ---------------------------------------------------------------- actions and colours

  datatype Action = MarkComplete | Cancel

  /** The status each button asks `updateStatus` for. */
  function ActionStatus(a: Action): string
  {
    match a
    case MarkComplete => "completed"
    case Cancel => "cancelled"
  }

  /** The buttons a quote card offers: Mark Complete and Cancel, for a pending quote only. */
  function Actions(q: Quote): seq<Action>
  {
    if q.status == "pending" then [MarkComplete, Cancel] else []
  }

  /**
   * Only a pending quote can be acted on, and each action asks for one of the two final statuses, so the
   * dashboard alone never moves a quote back to pending.
   */
  lemma ActionsOnlyWhenPending(q: Quote)
    ensures Actions(q) != [] <==> q.status == "pending"
    ensures forall a :: a in Actions(q) ==> ActionStatus(a) in {"completed", "cancelled"}
  {
  }

  /** `getStatusColor`. */
  function StatusColor(status: string): string
  {
    if status == "pending" then "bg-yellow-100 text-yellow-800"
    else if status == "completed" then "bg-green-100 text-green-800"
    else if status == "cancelled" then "bg-red-100 text-red-800"
    else "bg-gray-100 text-gray-800"
  }

  /** The three statuses get three different colours and anything else the neutral grey. */
  lemma StatusColorsDistinct(status: string)
    ensures StatusColor("pending") != StatusColor("completed") && StatusColor("completed") != StatusColor("cancelled")
    ensures StatusColor("cancelled") != StatusColor("pending")
    ensures status !in {"pending", "completed", "cancelled"} ==> StatusColor(status) == "bg-gray-100 text-gray-800"
  {
  }
}
