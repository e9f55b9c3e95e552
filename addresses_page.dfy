/** The addresses page: the digit-only phone and pincode inputs, the checks
    made before saving, the pickup and return lists, and the address form's
    edit and reset. */
module AddressesPage {
  import opened Common
  import opened Records
  import opened AddressRoutes

  // ---------------------------------------------------------------------
  // digit-only inputs

  /** `value.replace(/\D/g, '').slice(0, n)`: the ASCII digits of the typed
      text, in order, cut to at most `n`. */
  function KeepDigits(s: string, n: nat): (r: string)
    ensures AllDigits(r) && |r| <= n
    ensures |r| == if |Filter(IsDigit, s)| < n then |Filter(IsDigit, s)| else n
    ensures r == Filter(IsDigit, s)[..|r|]
  {
    var digits := Filter(IsDigit, s);
    if |digits| <= n then digits else digits[..n]
  }

  /** Text that is already digits only and short enough passes through. */
  lemma KeepDigitsOfDigits(s: string, n: nat)
    requires AllDigits(s) && |s| <= n
    ensures KeepDigits(s, n) == s
  {
    FilterKeepsAll(IsDigit, s);
  }

  /** Sanitising twice gives what sanitising once gave. */
  lemma KeepDigitsIdempotent(s: string, n: nat)
    ensures KeepDigits(KeepDigits(s, n), n) == KeepDigits(s, n)
  {
    KeepDigitsOfDigits(KeepDigits(s, n), n);
  }

  /** A sanitised input meets the `^\d{n}$` check exactly when at least `n`
      digits were typed. */
  lemma KeepDigitsMeetsCheck(s: string, n: nat)
    ensures |KeepDigits(s, n)| == n && AllDigits(KeepDigits(s, n)) <==> |Filter(IsDigit, s)| >= n
  {
  }

  // ---------------------------------------------------------------------
  // listing

  predicate IsPickup(a: Address) { a.addressType == "pickup" }
  predicate IsReturn(a: Address) { a.addressType == "return" }

  /** `pickupAddresses` and `returnAddresses`. */
  function PickupList(addresses: seq<Address>): (r: seq<Address>)
    ensures forall k :: 0 <= k < |r| ==> IsPickup(r[k]) && r[k] in addresses
    ensures forall k :: 0 <= k < |addresses| && IsPickup(addresses[k]) ==> addresses[k] in r
  {
    Filter(IsPickup, addresses)
  }

  function ReturnList(addresses: seq<Address>): (r: seq<Address>)
    ensures forall k :: 0 <= k < |r| ==> IsReturn(r[k]) && r[k] in addresses
    ensures forall k :: 0 <= k < |addresses| && IsReturn(addresses[k]) ==> addresses[k] in r
  {
    Filter(IsReturn, addresses)
  }

  /** An address is listed under pickup exactly when it is a pickup address,
      under return exactly when it is a return address, so one of any other
      type is in neither list. */
  lemma ListsByType(addresses: seq<Address>, a: Address)
    requires a in addresses
    ensures a in PickupList(addresses) <==> IsPickup(a)
    ensures a in ReturnList(addresses) <==> IsReturn(a)
  {
    var i :| 0 <= i < |addresses| && addresses[i] == a;
    if a in PickupList(addresses) {
      var j :| 0 <= j < |PickupList(addresses)| && PickupList(addresses)[j] == a;
    }
    if a in ReturnList(addresses) {
      var j :| 0 <= j < |ReturnList(addresses)| && ReturnList(addresses)[j] == a;
    }
  }

  /** 'Set as Default' is offered only on addresses that are not the
      default. */
  predicate SetDefaultOffered(a: Address) { !a.isDefault }

  /** While each (user, type) has at most one default, of any two of a
      seller's addresses of one type at least one offers 'Set as Default'. */
  lemma SetDefaultOfferedOnAllButOne(rows: seq<Address>)
    requires AtMostOneDefault(rows)
    ensures forall i, j ::
      0 <= i < j < |rows| && rows[i].userId == rows[j].userId && rows[i].addressType == rows[j].addressType ==>
        SetDefaultOffered(rows[i]) || SetDefaultOffered(rows[j])
  {
  }

  /** After a new default is created, it no longer offers 'Set as Default'
      and every earlier address of the seller with that type does. */
  lemma NewDefaultHidesOnlyItsButton(rows: seq<Address>, id: Id, owner: Id, b: AddressInput, now: int)
    requires b.isDefault
    ensures var r := AddAddress(rows, id, owner, b, now);
      && !SetDefaultOffered(r[|rows|])
      && forall i :: 0 <= i < |rows| && r[i].userId == owner && r[i].addressType == b.addressType ==>
           SetDefaultOffered(r[i])
  {
    NewDefaultIsOnlyDefault(rows, id, owner, b, now);
    AddAddressEffect(rows, id, owner, b, now);
  }

  // ---------------------------------------------------------------------
  // the form

  /** The empty form `resetForm` restores. */
  function EmptyForm(): (f: AddressInput)
    ensures f.addressType == "pickup" && !f.isDefault
    ensures f.name == "" && f.phone == "" && f.addressLine1 == "" && f.addressLine2 == ""
    ensures f.landmark == "" && f.city == "" && f.state == "" && f.pincode == ""
  {
    AddressInput("pickup", "", "", "", "", "", "", "", "", false)
  }

  /** `handleEdit`'s copy of an address into the form: `line1` goes to
      `addressLine1`, and a missing second line or landmark becomes `""`. */
  function FormOf(a: Address): (f: AddressInput)
    ensures f.addressType == a.addressType && f.name == a.name && f.phone == a.phone
    ensures f.addressLine1 == a.line1 && f.city == a.city && f.state == a.state
    ensures f.pincode == a.pincode && f.isDefault == a.isDefault
    ensures f.addressLine2 == (if a.line2.Some? then a.line2.value else "")
    ensures f.landmark == (if a.landmark.Some? then a.landmark.value else "")
  {
    AddressInput(a.addressType, a.name, a.phone, a.line1, a.line2.GetOr(""), a.landmark.GetOr(""),
                 a.city, a.state, a.pincode, a.isDefault)
  }

  /** Saving an unedited form builds the row it came from again, provided
      the stored second line and landmark are absent or non-empty (the form
      cannot tell an empty text from a missing one). */
  lemma EditRoundTrip(a: Address)
    requires a.line2 != Some("") && a.landmark != Some("")
    ensures NewAddress(a.id, a.userId, FormOf(a), a.createdAt) == a
  {
  }

  /** Where a save goes: the address's own URL by PATCH while editing, the
      collection by POST otherwise, with the form as the body. */
  datatype SaveRequest = PatchAddress(id: Id, body: AddressInput) | PostAddress(body: AddressInput)

  /** The form and dialog state of the page. */
  class AddressesView {
    var addresses: seq<Address>
    var dialogOpen: bool
    var editing: Option<Address>
    var form: AddressInput

    constructor ()
      ensures addresses == [] && !dialogOpen && editing.None? && form == EmptyForm()
    {
      addresses := [];
      dialogOpen := false;
      editing := None;
      form := EmptyForm();
    }

    /** `fetchAddresses`, given the answer (`None` when the request was not
        ok): an ok answer replaces the list, a failed one keeps it. */
    method FetchAddresses(answer: Option<seq<Address>>)
      modifies this
      ensures addresses == if answer.Some? then answer.value else old(addresses)
      ensures dialogOpen == old(dialogOpen) && editing == old(editing) && form == old(form)
    {
      if answer.Some? {
        addresses := answer.value;
      }
    }

    /** Typing in the phone field keeps its first ten digits. */
    method TypePhone(text: string)
      modifies this
      ensures form == old(form).(phone := KeepDigits(text, 10))
      ensures addresses == old(addresses) && dialogOpen == old(dialogOpen) && editing == old(editing)
    {
      form := form.(phone := KeepDigits(text, 10));
    }

    /** Typing in the pincode field keeps its first six digits. */
    method TypePincode(text: string)
      modifies this
      ensures form == old(form).(pincode := KeepDigits(text, 6))
      ensures addresses == old(addresses) && dialogOpen == old(dialogOpen) && editing == old(editing)
    {
      form := form.(pincode := KeepDigits(text, 6));
    }

    /** `handleEdit` */
    method HandleEdit(a: Address)
      modifies this
      ensures editing == Some(a) && form == FormOf(a) && dialogOpen
      ensures addresses == old(addresses)
    {
      editing := Some(a);
      form := FormOf(a);
      dialogOpen := true;
    }

    /** `resetForm` */
    method ResetForm()
      modifies this
      ensures editing.None? && form == EmptyForm()
      ensures addresses == old(addresses) && dialogOpen == old(dialogOpen)
    {
      editing := None;
      form := EmptyForm();
    }

    /** `handleSubmit`, given whether the server answered ok. The same two
        checks as the server's, in the same order, stop a bad pincode or
        phone before any request; otherwise the form goes by PATCH or POST,
        and a success closes the dialog and resets the form. */
    method HandleSubmit(ok: bool) returns (refused: Option<string>, request: Option<SaveRequest>)
      modifies this
      ensures refused == AddressError(old(form))
      ensures refused.Some? ==> request.None? && form == old(form) && editing == old(editing) && dialogOpen == old(dialogOpen)
      ensures refused.None? && old(editing).Some? ==> request == Some(PatchAddress(old(editing).value.id, old(form)))
      ensures refused.None? && old(editing).None? ==> request == Some(PostAddress(old(form)))
      ensures refused.None? && ok ==> !dialogOpen && editing.None? && form == EmptyForm()
      ensures !ok ==> form == old(form) && editing == old(editing) && dialogOpen == old(dialogOpen)
      ensures addresses == old(addresses)
    {
      refused := AddressError(form);
      if refused.Some? {
        return refused, None;
      }
      request := if editing.Some? then Some(PatchAddress(editing.value.id, form)) else Some(PostAddress(form));
      if ok {
        dialogOpen := false;
        ResetForm();
      }
    }
  }

  /** A form whose phone and pincode went through the digit-only inputs is
      refused only for having too few digits typed. */
  lemma SanitisedFormChecks(f: AddressInput, phoneText: string, pinText: string)
    ensures var g := f.(phone := KeepDigits(phoneText, 10), pincode := KeepDigits(pinText, 6));
      AddressError(g).None? <==> |Filter(IsDigit, pinText)| >= 6 && |Filter(IsDigit, phoneText)| >= 10
  {
    var g := f.(phone := KeepDigits(phoneText, 10), pincode := KeepDigits(pinText, 6));
    AddressErrorExact(g);
    KeepDigitsMeetsCheck(phoneText, 10);
    KeepDigitsMeetsCheck(pinText, 6);
  }
}
