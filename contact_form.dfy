/** `ContactForm`: the quote request form's field rules, the arguments it sends and what a submission leaves behind. */
module ContactForm {
  import opened Wrappers
  import opened Text
  import opened Records
  import opened Database
  import opened Quotes

  /** The form's values; `message` is optional. */
  datatype FormData = FormData(
    firstName: string, lastName: string, email: string, phone: string,
    locationId: string, serviceId: string, message: Option<string>)

  /** `defaultValues`: every field empty. */
  const Defaults := FormData("", "", "", "", "", "", Some(""))

  datatype Field = FirstName | LastName | Email | Phone | LocationField | ServiceField

  /** The message zod reports for a field that fails its rule. */
  function Message(f: Field): string
  {
    match f
    case FirstName => "First name must be at least 2 characters"
    case LastName => "Last name must be at least 2 characters"
    case Email => "Please enter a valid email address"
    case Phone => "Please enter a valid phone number"
    case LocationField => "Please select a location"
    case ServiceField => "Please select a service"
  }

  /** One field's rule: report the field when it fails. */
  function Check(fails: bool, f: Field): seq<Field> { if fails then [f] else [] }

  /**
   * `quoteFormSchema`: the fields that fail, in schema order. The email rule is taken as the predicate `isEmail`;
   * `message` has no rule.
   */
  function FieldErrors(d: FormData, isEmail: string -> bool): (r: seq<Field>)
    ensures r == [] <==>
      |d.firstName| >= 2 && |d.lastName| >= 2 && isEmail(d.email) && |d.phone| >= 10
      && d.locationId != "" && d.serviceId != ""
    ensures |r| <= 6
  {
    Check(|d.firstName| < 2, FirstName) + Check(|d.lastName| < 2, LastName) + Check(!isEmail(d.email), Email)
    + Check(|d.phone| < 10, Phone) + Check(d.locationId == "", LocationField) + Check(d.serviceId == "", ServiceField)
  }

  /** The empty form fails every required field: a submission needs the user to fill it in. */
  lemma DefaultsRejected(isEmail: string -> bool)
    ensures FieldErrors(Defaults, isEmail)
      == [FirstName, LastName] + (if isEmail("") then [] else [Email]) + [Phone, LocationField, ServiceField]
  {
  }

  // ---------------------------------------------------------------- the mutation's arguments

  /** The six arguments `onSubmit` passes to `create`: the joined name, and an empty message sent as absent. */
  function Args(d: FormData): (a: QuoteArgs)
    ensures a.email == d.email && a.phone == d.phone
    ensures a.locationId == d.locationId && a.serviceId == d.serviceId
    ensures a.message.None? <==> d.message.None? || d.message == Some("")
    ensures a.message.Some? ==> a.message == d.message
  {
    QuoteArgs(d.firstName + " " + d.lastName, d.email, d.phone, d.locationId, d.serviceId,
              if d.message.Some? && d.message.value != "" then d.message else None)
  }

  /** For a first name without a space, the first space of `customerName` separates the two names again. */
  lemma NameSplitsBack(d: FormData)
    requires ' ' !in d.firstName
    ensures var n := Args(d).customerName;
      IndexOf(n, " ") == Some(|d.firstName|) && n[..|d.firstName|] == d.firstName && n[|d.firstName| + 1..] == d.lastName
  {
    var n := Args(d).customerName;
    var k := |d.firstName|;
    assert n[k..k + 1] == " ";
    assert OccursAt(n, " ", k);
    assert Contains(n, " ");
    forall j | 0 <= j < k ensures !OccursAt(n, " ", j) {
      assert n[j] == d.firstName[j];
      assert n[j..j + 1][0] == n[j];
    }
    assert n[..k] == d.firstName;
    assert n[k + 1..] == d.lastName;
  }

  /** A form that passes the schema sends a customer name of at least five characters and every required field. */
  lemma ValidFormArgs(d: FormData, isEmail: string -> bool)
    requires FieldErrors(d, isEmail) == []
    ensures var a := Args(d);
      |a.customerName| >= 5 && isEmail(a.email) && |a.phone| >= 10 && a.locationId != "" && a.serviceId != ""
  {
  }

  // ---------------------------------------------------------------- submitting

  datatype Toast = Submitted | Failed

  /** The form's state: its current values, the field errors shown and the toasts raised so far. */
  class QuoteForm {
    var values: FormData
    var errors: seq<Field>
    var toasts: seq<Toast>

    constructor ()
      ensures values == Defaults && errors == [] && toasts == []
    {
      values, errors, toasts := Defaults, [], [];
    }

    /**
     * `form.handleSubmit(onSubmit)`. The schema runs first: when a field fails, its errors are shown and
     * `onSubmit` is not called, so nothing is stored and no toast is raised. Otherwise `onSubmit` runs: when
     * the mutation succeeds, the quote is stored, a confirmation is raised and the form is reset; when it
     * fails (`delivered` is false), nothing is stored, an error is raised and the values stay.
     */
    method Submit(db: Db, isEmail: string -> bool, roll: nat, now: int, delivered: bool) returns (id: Option<Id>)
      requires db.Valid() && IsRoll(roll)
      modifies this, db
      ensures db.Valid()
      ensures errors == FieldErrors(old(values), isEmail)
      ensures errors != [] ==> id.None? && db.quotes == old(db.quotes) && values == old(values) && toasts == old(toasts)
      ensures errors == [] && delivered ==>
        id.Some? && db.quotes == old(db.quotes) + [NewQuote(Args(old(values)), roll, now).(id := id.value)]
      ensures errors == [] && delivered ==> values == Defaults && toasts == old(toasts) + [Submitted]
      ensures errors == [] && !delivered ==> id.None? && db.quotes == old(db.quotes)
      ensures errors == [] && !delivered ==> values == old(values) && toasts == old(toasts) + [Failed]
      ensures db.services == old(db.services) && db.locations == old(db.locations) && db.suburbs == old(db.suburbs)
    {
      errors := FieldErrors(values, isEmail);
      if errors != [] {
        id := None;
      } else if delivered {
        var created := Create(db, Args(values), roll, now);
        id := Some(created);
        toasts := toasts + [Submitted];
        values := Defaults;
      } else {
        id := None;
        toasts := toasts + [Failed];
      }
    }
  }
}
