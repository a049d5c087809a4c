/** The four stored record types and the state of a client-side query. */
module Records {
  import opened Wrappers

  /** A document id. The store hands them out; the quote form carries them as select values. */
  type Id = string

  datatype Service = Service(
    id: Id, name: string, slug: string, description: string, shortDescription: string,
    basePrice: nat, priceUnit: string, icon: string, category: string)

  datatype Location = Location(
    id: Id, name: string, slug: string, region: string, description: string,
    suburbs: Option<seq<string>>, active: bool)

  datatype Suburb = Suburb(
    id: Id, name: string, slug: string, region: string, parentLocationId: Id,
    description: string, postcode: Option<string>, active: bool)

  datatype Quote = Quote(
    id: Id, customerName: string, email: string, phone: string, locationId: Id, serviceId: Id,
    message: Option<string>, status: string, estimatedValue: Option<int>, createdAt: int)

  /** The suburb names a location lists; a missing list (`if (location.suburbs)`) lists none. */
  function NamesOf(loc: Location): seq<string>
  {
    match loc.suburbs
    case None => []
    case Some(names) => names
  }

  /** One crumb of a visible breadcrumb trail; `href` is absent on the current page. */
  datatype NavItem = NavItem(caption: string, href: Option<string>)

  /** What a reactive query hook returns: `undefined` while loading, `null` when nothing matched. */
  datatype Query<T> = Loading | Missing | Found(value: T)
}
