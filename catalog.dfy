/** The catalog the seed mutation inserts: four services and seven service regions with their suburb names. */
module Catalog {
  import opened Wrappers
  import opened Records

  /** The number of default services and of default locations. */
  const ServiceCount := 4
  const LocationCount := 7

  // The long texts of the catalog.
  const PoolCleaningDescription: string :=
    "Regular cleaning, skimming, vacuuming, and debris removal to keep your pool pristine and swim-ready all year round."
  const PoolCleaningSummary: string :=
    "Regular cleaning, skimming, vacuuming, and debris removal"
  const PoolMaintenanceDescription: string :=
    "Comprehensive maintenance including equipment checks, filter cleaning, system optimization, and preventive care."
  const PoolMaintenanceSummary: string :=
    "Equipment checks, filter cleaning, and system optimization"
  const ChemicalBalancingDescription: string :=
    "Expert water testing and chemical balancing for safe, clean swimming water with proper pH and sanitizer levels."
  const ChemicalBalancingSummary: string :=
    "Water testing and chemical balancing for safe swimming"
  const EquipmentRepairsDescription: string :=
    "Fast repairs for pumps, filters, heaters, automation systems, and all pool equipment with genuine parts."
  const EquipmentRepairsSummary: string :=
    "Fast repairs for pumps, filters, heaters, and automation"
  const SydneyNorthShoreDescription: string :=
    "Professional pool services for North Shore residents including Mosman, Neutral Bay, Chatswood, and surrounding areas."
  const SydneyEasternSuburbsDescription: string :=
    "Expert pool maintenance for Eastern Suburbs properties in Bondi, Double Bay, Paddington, and neighboring areas."
  const SydneyInnerWestDescription: string :=
    "Reliable pool services for Inner West homes in Leichhardt, Balmain, Newtown, and surrounding suburbs."
  const SydneySouthDescription: string :=
    "Complete pool maintenance solutions for South Sydney including Sutherland Shire and St George areas."
  const SydneyWestDescription: string :=
    "Professional pool services for Western Sydney covering Parramatta, Blacktown, Penrith, and surrounding areas."
  const NewcastleDescription: string :=
    "Expert pool maintenance services for Newcastle, Lake Macquarie, Port Stephens, and Hunter Valley regions."
  const IllawarraDescription: string :=
    "Professional pool services for Wollongong, Shellharbour, Kiama, and Southern Highlands areas."

  /** The `i`-th entry of `defaultServices`; the store fills in the id. */
  function DefaultService(i: nat): Service
    requires i < ServiceCount
  {
    if i == 0 then Service("", "Pool Cleaning", "pool-cleaning",
      PoolCleaningDescription, PoolCleaningSummary, 99, "visit", "fas fa-broom", "cleaning")
    else if i == 1 then Service("", "Pool Maintenance", "pool-maintenance",
      PoolMaintenanceDescription, PoolMaintenanceSummary, 149, "visit", "fas fa-wrench", "maintenance")
    else if i == 2 then Service("", "Chemical Balancing", "chemical-balancing",
      ChemicalBalancingDescription, ChemicalBalancingSummary, 79, "visit", "fas fa-flask", "chemical")
    else Service("", "Equipment Repairs", "equipment-repairs",
      EquipmentRepairsDescription, EquipmentRepairsSummary, 120, "call", "fas fa-tools", "repair")
  }

  /** The `i`-th entry of `defaultLocations`, with the suburb names it lists. */
  function DefaultLocation(i: nat): Location
    requires i < LocationCount
  {
    if i == 0 then Location("", "Sydney North Shore", "sydney-north-shore", "Sydney", SydneyNorthShoreDescription,
      Some(["Mosman", "Neutral Bay", "Chatswood", "Lane Cove", "Willoughby", "Artarmon", "Cremorne"]), true)
    else if i == 1 then Location("", "Sydney Eastern Suburbs", "sydney-eastern-suburbs", "Sydney", SydneyEasternSuburbsDescription,
      Some(["Bondi", "Double Bay", "Paddington", "Woollahra", "Rose Bay", "Vaucluse", "Coogee"]), true)
    else if i == 2 then Location("", "Sydney Inner West", "sydney-inner-west", "Sydney", SydneyInnerWestDescription,
      Some(["Leichhardt", "Balmain", "Newtown", "Glebe", "Marrickville", "Dulwich Hill", "Annandale"]), true)
    else if i == 3 then Location("", "Sydney South", "sydney-south", "Sydney", SydneySouthDescription,
      Some(["Cronulla", "Miranda", "Hurstville", "Kogarah", "Brighton-Le-Sands", "Sans Souci", "Caringbah"]), true)
    else if i == 4 then Location("", "Sydney West", "sydney-west", "Sydney", SydneyWestDescription,
      Some(["Parramatta", "Blacktown", "Penrith", "Castle Hill", "Baulkham Hills", "Ryde", "Homebush"]), true)
    else if i == 5 then Location("", "Newcastle", "newcastle", "Newcastle", NewcastleDescription,
      Some(["Newcastle", "Lake Macquarie", "Port Stephens", "Cessnock", "Maitland", "Raymond Terrace", "Wallsend"]), true)
    else Location("", "Illawarra", "illawarra", "Illawarra", IllawarraDescription,
      Some(["Wollongong", "Shellharbour", "Kiama", "Port Kembla", "Dapto", "Corrimal", "Thirroul"]), true)
  }

  /** `defaultServices`, in order. */
  function DefaultServices(): (r: seq<Service>)
    ensures |r| == ServiceCount
  {
    seq(ServiceCount, i requires 0 <= i < ServiceCount => DefaultService(i))
  }

  /** `defaultLocations`, in order. */
  function DefaultLocations(): (r: seq<Location>)
    ensures |r| == LocationCount
  {
    seq(LocationCount, i requires 0 <= i < LocationCount => DefaultLocation(i))
  }
}
