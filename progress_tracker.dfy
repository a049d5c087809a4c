/** `ProgressTracker`: the page-goal counts the progress card shows, derived from the three list lengths. */
module ProgressTracker {
  import opened Wrappers
  import opened Arith

  /** One category's figures; a `percentage` of `None` is the `NaN` that `0 / 0` gives. */
  datatype PageCount = PageCount(current: nat, total: nat, percentage: Option<int>)

  datatype ProgressView =
    | Loading
    | Ready(locationPages: PageCount, serviceLocationPages: PageCount, suburbPages: PageCount, totalPages: PageCount)

  /** `Math.round(current / total * 100)`, rounding halves up; `None` when `total` is 0. */
  function RoundedPercent(current: nat, total: nat): Option<int>
  {
    if total == 0 then None else Some((200 * current + total) / (2 * total))
  }

  /** The whole of a positive total is exactly 100 percent. */
  lemma WholeIsHundred(total: nat)
    requires total > 0
    ensures RoundedPercent(total, total) == Some(100)
  {
    assert 200 * total + total == 100 * (2 * total) + total;
    DivOfParts(100, 2 * total, total);
  }

  /**
   * The card's figures. A list still loading is `undefined`, so any absent list shows the loading card; an empty
   * list is present and counts as 0. Every page is taken to exist, so each category is complete.
   */
  function Progress(locations: Option<nat>, services: Option<nat>, suburbs: Option<nat>): (r: ProgressView)
    ensures r.Loading? <==> locations.None? || services.None? || suburbs.None?
  {
    if locations.None? || services.None? || suburbs.None? then Loading
    else
      var l, s, b := locations.value, services.value, suburbs.value;
      var locationPages := PageCount(l, l, Some(100));
      var pairPages := PageCount(l * s, l * s, Some(100));
      var suburbPages := PageCount(b, b, Some(100));
      var current := locationPages.current + pairPages.current + suburbPages.current;
      var total := locationPages.total + pairPages.total + suburbPages.total;
      Ready(locationPages, pairPages, suburbPages, PageCount(current, total, RoundedPercent(current, total)))
  }

  /** The badge over the card. */
  function Badge(percentage: Option<int>): string
  {
    if percentage == Some(100) then "COMPLETE!" else "IN PROGRESS"
  }

  /**
   * With all three lists loaded: every category has `current == total` at 100 percent, the service-location
   * category counts `locations·services`, and the totals are the sums of the three categories.
   */
  lemma CategoriesComplete(l: nat, s: nat, b: nat)
    ensures var r := Progress(Some(l), Some(s), Some(b));
      r.Ready?
      && r.locationPages == PageCount(l, l, Some(100))
      && r.serviceLocationPages == PageCount(l * s, l * s, Some(100))
      && r.suburbPages == PageCount(b, b, Some(100))
      && r.totalPages.current == r.totalPages.total == l + l * s + b
  {
  }

  /**
   * The total percentage is 100 exactly when there is at least one page; with none it is `NaN`, and the badge
   * reads "COMPLETE!" exactly when there is a page.
   */
  lemma TotalPercentage(l: nat, s: nat, b: nat)
    ensures var t := Progress(Some(l), Some(s), Some(b)).totalPages;
      (t.percentage == Some(100) <==> t.total > 0)
      && (t.percentage.None? <==> t.total == 0)
      && (Badge(t.percentage) == "COMPLETE!" <==> l + l * s + b > 0)
  {
    var total := l + l * s + b;
    if total > 0 {
      WholeIsHundred(total);
    }
  }
}
