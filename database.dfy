/** The document store behind the queries and mutations: one table per record type and an id counter. */
module Database {
  import opened Records
  import opened Text
  import opened Wrappers

  /** The id the store gives to the `n`-th document it inserts. */
  function IdOf(n: nat): Id { Dec(n) }

  /** Every id issued before the counter reached `n`. */
  ghost function Issued(n: nat): set<Id>
  {
    set k | 0 <= k < n :: IdOf(k)
  }

  lemma NextIdIsFresh(n: nat)
    ensures IdOf(n) !in Issued(n)
  {
    if IdOf(n) in Issued(n) {
      var k :| 0 <= k < n && IdOf(k) == IdOf(n);
      DecInjective(k, n);
    }
  }

  lemma IssuedGrows(n: nat)
    ensures Issued(n + 1) == Issued(n) + {IdOf(n)}
  {
  }

  class Db {
    var services: seq<Service>
    var locations: seq<Location>
    var suburbs: seq<Suburb>
    var quotes: seq<Quote>
    var nextId: nat

    /** Every stored id was issued by the counter, and no id is used twice within a table. */
    ghost predicate Valid()
      reads this
    {
      && (forall i :: 0 <= i < |services| ==> services[i].id in Issued(nextId))
      && (forall i :: 0 <= i < |locations| ==> locations[i].id in Issued(nextId))
      && (forall i :: 0 <= i < |suburbs| ==> suburbs[i].id in Issued(nextId))
      && (forall i :: 0 <= i < |quotes| ==> quotes[i].id in Issued(nextId))
      && (forall i, j :: 0 <= i < j < |services| ==> services[i].id != services[j].id)
      && (forall i, j :: 0 <= i < j < |locations| ==> locations[i].id != locations[j].id)
      && (forall i, j :: 0 <= i < j < |suburbs| ==> suburbs[i].id != suburbs[j].id)
      && (forall i, j :: 0 <= i < j < |quotes| ==> quotes[i].id != quotes[j].id)
    }

    constructor ()
      ensures Valid()
      ensures services == [] && locations == [] && suburbs == [] && quotes == [] && nextId == 0
    {
      services, locations, suburbs, quotes, nextId := [], [], [], [], 0;
    }

    /** `ctx.db.insert("services", doc)`. */
    method InsertService(doc: Service) returns (id: Id)
      requires Valid()
      modifies this
      ensures Valid()
      ensures id == IdOf(old(nextId)) && nextId == old(nextId) + 1
      ensures services == old(services) + [doc.(id := id)]
      ensures locations == old(locations) && suburbs == old(suburbs) && quotes == old(quotes)
    {
      id := IdOf(nextId);
      NextIdIsFresh(nextId);
      IssuedGrows(nextId);
      services := services + [doc.(id := id)];
      nextId := nextId + 1;
    }

    /** `ctx.db.insert("locations", doc)`. */
    method InsertLocation(doc: Location) returns (id: Id)
      requires Valid()
      modifies this
      ensures Valid()
      ensures id == IdOf(old(nextId)) && nextId == old(nextId) + 1
      ensures locations == old(locations) + [doc.(id := id)]
      ensures services == old(services) && suburbs == old(suburbs) && quotes == old(quotes)
    {
      id := IdOf(nextId);
      NextIdIsFresh(nextId);
      IssuedGrows(nextId);
      locations := locations + [doc.(id := id)];
      nextId := nextId + 1;
    }

    /** `ctx.db.insert("suburbs", doc)`. */
    method InsertSuburb(doc: Suburb) returns (id: Id)
      requires Valid()
      modifies this
      ensures Valid()
      ensures id == IdOf(old(nextId)) && nextId == old(nextId) + 1
      ensures suburbs == old(suburbs) + [doc.(id := id)]
      ensures services == old(services) && locations == old(locations) && quotes == old(quotes)
    {
      id := IdOf(nextId);
      NextIdIsFresh(nextId);
      IssuedGrows(nextId);
      suburbs := suburbs + [doc.(id := id)];
      nextId := nextId + 1;
    }

    /** `ctx.db.insert("quotes", doc)`. */
    method InsertQuote(doc: Quote) returns (id: Id)
      requires Valid()
      modifies this
      ensures Valid()
      ensures id == IdOf(old(nextId)) && nextId == old(nextId) + 1
      ensures quotes == old(quotes) + [doc.(id := id)]
      ensures services == old(services) && locations == old(locations) && suburbs == old(suburbs)
    {
      id := IdOf(nextId);
      NextIdIsFresh(nextId);
      IssuedGrows(nextId);
      quotes := quotes + [doc.(id := id)];
      nextId := nextId + 1;
    }

    /** The position of the quote with this id, if it is stored. */
    function QuoteIndex(id: Id): (r: Option<nat>)
      reads this
      ensures r.Some? ==> r.value < |quotes| && quotes[r.value].id == id
      ensures r.None? ==> forall i :: 0 <= i < |quotes| ==> quotes[i].id != id
    {
      FirstIndex(quotes, (q: Quote) => q.id == id)
    }

    /** `ctx.db.get(id)` on the quotes table. */
    function GetQuote(id: Id): (r: Option<Quote>)
      reads this
      ensures r.Some? <==> exists i :: 0 <= i < |quotes| && quotes[i].id == id
      ensures r.Some? ==> r.value in quotes && r.value.id == id
    {
      match QuoteIndex(id)
      case None => None
      case Some(i) => Some(quotes[i])
    }

    /** `ctx.db.patch(id, { status })`: overwrite one field of the stored quote. */
    method PatchQuoteStatus(i: nat, status: string)
      requires Valid() && i < |quotes|
      modifies this
      ensures Valid()
      ensures quotes == old(quotes)[i := old(quotes)[i].(status := status)]
      ensures services == old(services) && locations == old(locations) && suburbs == old(suburbs)
      ensures nextId == old(nextId)
    {
      quotes := quotes[i := quotes[i].(status := status)];
    }
  }
}
