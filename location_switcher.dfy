/** `LocationSwitcher`: the region filter, the region tabs and the capped service-location cards. */
module LocationSwitcher {
  import opened Wrappers
  import opened Text
  import opened Records
  import opened Arith

  // ---------------------------------------------------------------- region filter and tabs

  /** `locations?.filter(l => l.region === selectedRegion) || []`. */
  function FilteredLocations(locations: Option<seq<Location>>, region: string): (r: seq<Location>)
    ensures forall l :: l in r <==> locations.Some? && l in locations.value && l.region == region
    ensures locations.Some? ==> IsSubseq(r, locations.value)
  {
    if locations.Some? then Filter(locations.value, (l: Location) => l.region == region) else []
  }

  function RegionOf(l: Location): string { l.region }

  /** `Array.from(new Set(locations?.map(l => l.region) || []))`. */
  function Regions(locations: Option<seq<Location>>): (r: seq<string>)
    ensures NoDup(r)
    ensures forall g :: g in r <==> locations.Some? && exists l :: l in locations.value && l.region == g
  {
    var all := if locations.Some? then Map(locations.value, RegionOf) else [];
    assert forall g :: g in all <==> locations.Some? && exists l :: l in locations.value && l.region == g by {
      if locations.Some? {
        forall g | locations.Some? && exists l :: l in locations.value && l.region == g ensures g in all {
          var l :| l in locations.value && l.region == g;
          var i :| 0 <= i < |locations.value| && locations.value[i] == l;
          assert all[i] == g;
        }
      }
    }
    Dedup(all)
  }

  /** The tabs come in order of first appearance: the regions of any leading run of locations open the list. */
  lemma RegionsInFirstAppearanceOrder(locations: seq<Location>, k: nat)
    requires k <= |locations|
    ensures IsPrefix(Regions(Some(locations[..k])), Regions(Some(locations)))
  {
    var all := Map(locations, RegionOf);
    var front := Map(locations[..k], RegionOf);
    assert all == front + Map(locations[k..], RegionOf);
    DedupPrefix(front, Map(locations[k..], RegionOf));
  }

  // ---------------------------------------------------------------- the cards

  datatype Image = PoolCleaningImage | PoolMaintenanceImage | ChemicalBalancingImage | EquipmentRepairsImage

  /** `serviceImages[index % serviceImages.length]`, the four images in order. */
  function ServiceImage(index: nat): Image
  {
    match index % 4
    case 0 => PoolCleaningImage
    case 1 => PoolMaintenanceImage
    case 2 => ChemicalBalancingImage
    case _ => EquipmentRepairsImage
  }

  datatype Combination = Combination(
    service: string, serviceSlug: string, location: string, locationSlug: string,
    description: string, price: string, image: Image)

  /** The displayed location name: the first `"<region> "` removed. */
  function DisplayName(name: string, region: string): string
  {
    ReplaceFirst(name, region + " ", "")
  }

  /** The card for the `index`-th service at one location. */
  function Card(service: Service, index: nat, location: Location, region: string): Combination
  {
    Combination(service.name, service.slug, DisplayName(location.name, region), location.slug,
                Take(service.description, 100) + "...", "From $" + Dec(service.basePrice), ServiceImage(index))
  }

  /** The inner `forEach` over the first `n` services at one location. */
  function Row(services: seq<Service>, location: Location, region: string, n: nat): seq<Combination>
    requires n <= |services|
  {
    if n == 0 then [] else Row(services, location, region, n - 1) + [Card(services[n - 1], n - 1, location, region)]
  }

  /** Every combination before the `slice`: location-major, then service. */
  function Combinations(services: seq<Service>, locations: seq<Location>, region: string): seq<Combination>
  {
    if locations == [] then []
    else Combinations(services, locations[..|locations| - 1], region)
         + Row(services, locations[|locations| - 1], region, |services|)
  }

  /** The inner `forEach`: one card per service at `location`, pushed in service order. */
  method PushRow(combinations: seq<Combination>, services: seq<Service>, location: Location, region: string)
    returns (r: seq<Combination>)
    ensures r == combinations + Row(services, location, region, |services|)
  {
    r := combinations;
    for j := 0 to |services|
      invariant r == combinations + Row(services, location, region, j)
    {
      r := r + [Card(services[j], j, location, region)];
    }
  }

  /** `getFilteredCombinations`: the nested `forEach` pushing one card per (location, service), then the first six. */
  method GetFilteredCombinations(services: Option<seq<Service>>, filtered: seq<Location>, region: string)
    returns (r: seq<Combination>)
    ensures r == if services.None? then [] else Take(Combinations(services.value, filtered, region), 6)
  {
    if services.None? {
      return [];
    }
    var all := services.value;
    var combinations: seq<Combination> := [];
    for i := 0 to |filtered|
      invariant combinations == Combinations(all, filtered[..i], region)
    {
      combinations := PushRow(combinations, all, filtered[i], region);
      assert filtered[..i + 1][..i] == filtered[..i];
    }
    assert filtered[..|filtered|] == filtered;
    r := Take(combinations, 6);
  }

  // ---------------------------------------------------------------- properties

  lemma {:induction false} RowLength(services: seq<Service>, location: Location, region: string, n: nat)
    requires n <= |services|
    ensures |Row(services, location, region, n)| == n
  {
    if n > 0 {
      RowLength(services, location, region, n - 1);
    }
  }

  lemma {:induction false} RowShape(services: seq<Service>, location: Location, region: string, n: nat)
    requires n <= |services|
    ensures |Row(services, location, region, n)| == n
    ensures forall j :: 0 <= j < n ==> Row(services, location, region, n)[j] == Card(services[j], j, location, region)
  {
    if n > 0 {
      RowShape(services, location, region, n - 1);
    }
  }

  lemma {:induction false} CombinationsLength(services: seq<Service>, locations: seq<Location>, region: string)
    ensures |Combinations(services, locations, region)| == |locations| * |services|
  {
    if locations != [] {
      var n, m := |locations|, |services|;
      CombinationsLength(services, locations[..n - 1], region);
      RowLength(services, locations[n - 1], region, m);
      var front := Combinations(services, locations[..n - 1], region);
      var row := Row(services, locations[n - 1], region, m);
      assert Combinations(services, locations, region) == front + row;
      MulSucc(n - 1, m);
    }
  }

  /** The cards shown number `min(6, |filtered|·|services|)`, and none while the services are loading. */
  lemma CardCount(services: Option<seq<Service>>, filtered: seq<Location>, region: string)
    ensures var r := if services.None? then [] else Take(Combinations(services.value, filtered, region), 6);
      |r| == if services.None? then 0
             else if |filtered| * |services.value| < 6 then |filtered| * |services.value| else 6
  {
    if services.Some? {
      CombinationsLength(services.value, filtered, region);
    }
  }

  lemma {:induction false} CombinationsPrefix(services: seq<Service>, locations: seq<Location>, region: string, i: nat)
    requires i <= |locations|
    ensures IsPrefix(Combinations(services, locations[..i], region), Combinations(services, locations, region))
  {
    if i < |locations| {
      var front := locations[..|locations| - 1];
      assert front[..i] == locations[..i];
      CombinationsPrefix(services, front, region, i);
      PrefixOfConcat(Combinations(services, front, region), Row(services, locations[|locations| - 1], region, |services|));
    } else {
      assert locations[..i] == locations;
    }
  }

  /**
   * Card `i·|services| + j` is service `j` at location `i`: locations outermost, and the image index restarting
   * at 0 for each location.
   */
  lemma CardAt(services: seq<Service>, locations: seq<Location>, region: string, i: nat, j: nat)
    requires i < |locations| && j < |services|
    ensures var c, k := Combinations(services, locations, region), i * |services| + j;
      k < |c| && c[k] == Card(services[j], j, locations[i], region)
  {
    CombinationsPrefix(services, locations, region, i + 1);
    CombinationsLength(services, locations[..i], region);
    assert locations[..i + 1][..i] == locations[..i];
    RowShape(services, locations[i], region, |services|);
    var before := Combinations(services, locations[..i], region);
    var row := Row(services, locations[i], region, |services|);
    assert Combinations(services, locations[..i + 1], region) == before + row;
    assert (before + row)[|before| + j] == row[j];
  }

  /**
   * A card's description is the first 100 characters of the service's description followed by `...`, even when
   * nothing was cut; its price reads `From $<basePrice>`; its image is the one for `index mod 4`.
   */
  lemma CardShape(service: Service, index: nat, location: Location, region: string)
    ensures var c := Card(service, index, location, region);
      IsSuffix("...", c.description) && |c.description| <= 103
      && IsPrefix(Take(service.description, 100), c.description)
      && c.price == "From $" + Dec(service.basePrice)
      && c.image == ServiceImage(index % 4)
  {
    var d := Take(service.description, 100);
    PrefixOfConcat(d, "...");
    SuffixOfConcat(d, "...");
  }

  /** A name that starts with the region and a space loses that prefix; a name without it is shown as is. */
  lemma DisplayNameDropsRegion(name: string, region: string)
    ensures IsPrefix(region + " ", name) ==> DisplayName(name, region) == name[|region| + 1..]
    ensures !Contains(name, region + " ") ==> DisplayName(name, region) == name
  {
  }
}
