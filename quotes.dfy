/** The quotes table: the two queries, `create` and `updateStatus`. */
module Quotes {
  import opened Wrappers
  import opened Text
  import opened Records
  import opened Database

  // ---------------------------------------------------------------- queries

  /** `getAll`: every quote, `order("desc")` on creation order, so the newest comes first. */
  function GetAll(quotes: seq<Quote>): (r: seq<Quote>)
    ensures |r| == |quotes|
    ensures forall i :: 0 <= i < |quotes| ==> r[i] == quotes[|quotes| - 1 - i]
  {
    Reverse(quotes)
  }

  /** `getByLocation`: the quotes whose `locationId` matches, in creation order. */
  function GetByLocation(quotes: seq<Quote>, locationId: Id): (r: seq<Quote>)
    ensures forall q :: q in r <==> q in quotes && q.locationId == locationId
    ensures IsSubseq(r, quotes)
  {
    Filter(quotes, (q: Quote) => q.locationId == locationId)
  }

  /** A quote created after the others is the first row `getAll` returns. */
  lemma NewestFirst(quotes: seq<Quote>, q: Quote)
    ensures GetAll(quotes + [q])[0] == q
    ensures GetAll(quotes + [q])[1..] == GetAll(quotes)
  {
    var r := GetAll(quotes + [q]);
    assert |r[1..]| == |GetAll(quotes)|;
    forall i | 0 <= i < |quotes|
      ensures r[1..][i] == GetAll(quotes)[i]
    {
      assert r[1..][i] == (quotes + [q])[|quotes| - 1 - i];
    }
  }

  /** A new quote joins the end of its own location's list and leaves every other location's list alone. */
  lemma ByLocationAfterInsert(quotes: seq<Quote>, q: Quote, locationId: Id)
    ensures GetByLocation(quotes + [q], locationId)
      == GetByLocation(quotes, locationId) + (if q.locationId == locationId then [q] else [])
  {
    FilterAppend(quotes, [q], (x: Quote) => x.locationId == locationId);
  }

  // ---------------------------------------------------------------- create

  /** The arguments `create` accepts. */
  datatype QuoteArgs = QuoteArgs(
    customerName: string, email: string, phone: string,
    locationId: Id, serviceId: Id, message: Option<string>)

  /** `Math.floor(Math.random() * 200)` lies in [0, 199]; the model takes that draw as `roll`. */
  predicate IsRoll(roll: nat) { roll < 200 }

  /** The document `create` inserts: the arguments spread, a pending status, the estimate and the creation time. */
  function NewQuote(args: QuoteArgs, roll: nat, now: int): (q: Quote)
    requires IsRoll(roll)
    ensures q.status == "pending"
    ensures q.estimatedValue.Some? && 100 <= q.estimatedValue.value <= 299
    ensures q.customerName == args.customerName && q.email == args.email && q.phone == args.phone
    ensures q.locationId == args.locationId && q.serviceId == args.serviceId && q.message == args.message
    ensures q.createdAt == now
  {
    Quote("", args.customerName, args.email, args.phone, args.locationId, args.serviceId,
          args.message, "pending", Some(roll + 100), now)
  }

  /** Every estimate the random draw can give, and only those: 100 through 299. */
  lemma EstimateRange(e: int)
    ensures (exists roll: nat :: IsRoll(roll) && roll + 100 == e) <==> 100 <= e <= 299
  {
    if 100 <= e <= 299 {
      var roll: nat := e - 100;
      assert IsRoll(roll) && roll + 100 == e;
    }
  }

  /** `create`: one insert; the new id is returned and the earlier quotes are untouched. */
  method Create(db: Db, args: QuoteArgs, roll: nat, now: int) returns (id: Id)
    requires db.Valid() && IsRoll(roll)
    modifies db
    ensures db.Valid()
    ensures id == IdOf(old(db.nextId)) && id !in Issued(old(db.nextId))
    ensures db.quotes == old(db.quotes) + [NewQuote(args, roll, now).(id := id)]
    ensures db.services == old(db.services) && db.locations == old(db.locations) && db.suburbs == old(db.suburbs)
  {
    NextIdIsFresh(db.nextId);
    id := db.InsertQuote(NewQuote(args, roll, now));
  }

  // ---------------------------------------------------------------- updateStatus

  /** The three statuses `updateStatus` accepts. */
  predicate IsStatus(s: string)
  {
    s == "pending" || s == "completed" || s == "cancelled"
  }

  const InvalidStatus := "Invalid status"

  /** The store refuses to patch an id that names no stored quote. */
  const NoSuchQuote := "Update on nonexistent document"

  /** What `updateStatus` does to the table: the new table and the record it returns, or the error it throws. */
  function StatusUpdate(quotes: seq<Quote>, id: Id, status: string): (r: Result<(seq<Quote>, Quote), string>)
    ensures !IsStatus(status) ==> r == Err(InvalidStatus)
    ensures IsStatus(status) && (forall i :: 0 <= i < |quotes| ==> quotes[i].id != id) ==> r == Err(NoSuchQuote)
    ensures r.Ok? ==> IsStatus(status)
    ensures r.Ok? ==> exists i :: 0 <= i < |quotes| && quotes[i].id == id
                        && r.value.0 == quotes[i := quotes[i].(status := status)] && r.value.1 == r.value.0[i]
  {
    if !IsStatus(status) then Err(InvalidStatus)
    else match FirstIndex(quotes, (q: Quote) => q.id == id)
      case None => Err(NoSuchQuote)
      case Some(i) =>
        var t := quotes[i := quotes[i].(status := status)];
        Ok((t, t[i]))
  }

  /** Whatever the current status, any of the three may be written: nothing stops completed → pending. */
  lemma AnyTransitionAllowed(quotes: seq<Quote>, id: Id, status: string)
    requires IsStatus(status)
    requires exists i :: 0 <= i < |quotes| && quotes[i].id == id
    ensures StatusUpdate(quotes, id, status).Ok?
    ensures StatusUpdate(quotes, id, status).value.1.status == status
  {
  }

  /** Writing the same status twice leaves the table as one write left it. */
  lemma {:induction false} UpdateIdempotent(quotes: seq<Quote>, id: Id, status: string)
    requires StatusUpdate(quotes, id, status).Ok?
    ensures var t := StatusUpdate(quotes, id, status).value.0;
      StatusUpdate(t, id, status).Ok? && StatusUpdate(t, id, status).value.0 == t
  {
    var t := StatusUpdate(quotes, id, status).value.0;
    var i := FirstIndex(quotes, (q: Quote) => q.id == id).value;
    assert t[i].id == id;
  }

  /** `updateStatus`: the status check comes first and an invalid status writes nothing; then the patch and the re-read. */
  method UpdateStatus(db: Db, id: Id, status: string) returns (r: Result<Quote, string>)
    requires db.Valid()
    modifies db
    ensures db.Valid()
    ensures StatusUpdate(old(db.quotes), id, status).Err? ==>
      r == Err(StatusUpdate(old(db.quotes), id, status).error) && db.quotes == old(db.quotes)
    ensures StatusUpdate(old(db.quotes), id, status).Ok? ==>
      r == Ok(StatusUpdate(old(db.quotes), id, status).value.1)
      && db.quotes == StatusUpdate(old(db.quotes), id, status).value.0
    ensures db.services == old(db.services) && db.locations == old(db.locations) && db.suburbs == old(db.suburbs)
    ensures db.nextId == old(db.nextId)
  {
    if !IsStatus(status) {
      return Err(InvalidStatus);
    }
    match db.QuoteIndex(id)
    case None =>
      r := Err(NoSuchQuote);
    case Some(i) =>
      db.PatchQuoteStatus(i, status);
      r := Ok(db.quotes[i]);
  }
}
