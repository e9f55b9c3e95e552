/** The address handlers' logic: the pincode and phone checks of
    `POST /api/addresses`, the clear-then-set default rule, and the order of
    the caller's address list. */
module AddressRoutes {
  import opened Common
  import opened Patterns
  import opened Records

  /** An address request body; `""` stands for a text field left out. */
  datatype AddressInput = AddressInput(
    addressType: string,
    name: string,
    phone: string,
    addressLine1: string,
    addressLine2: string,
    landmark: string,
    city: string,
    state: string,
    pincode: string,
    isDefault: bool)

  /** The handler's checks, in its order: the pincode against `^\d{6}$`, then
      the phone against `^\d{10}$`; `Some` is the 400 message. */
  function AddressError(b: AddressInput): Option<string> {
    if !Matches(Repeat(Digit, 6), b.pincode) then Some("Pincode must be exactly 6 digits")
    else if !Matches(Repeat(Digit, 10), b.phone) then Some("Phone must be exactly 10 digits")
    else None
  }

  /** A body passes exactly when its pincode is six ASCII digits and its phone
      ten; a bad pincode is reported even when the phone is bad too. */
  lemma AddressErrorExact(b: AddressInput)
    ensures AddressError(b).None? <==>
      |b.pincode| == 6 && AllDigits(b.pincode) && |b.phone| == 10 && AllDigits(b.phone)
    ensures !(|b.pincode| == 6 && AllDigits(b.pincode)) ==> AddressError(b) == Some("Pincode must be exactly 6 digits")
  {
    MatchesDigits(6, b.pincode);
    MatchesDigits(10, b.phone);
  }

  /** The row the handler inserts. */
  function NewAddress(id: Id, owner: Id, b: AddressInput, now: int): Address {
    Address(id, owner, b.addressType, b.name, b.phone, b.addressLine1,
            TextOrNull(b.addressLine2), TextOrNull(b.landmark),
            b.city, b.state, b.pincode, b.isDefault, now)
  }

  /** `updateMany({ where: { userId, type }, data: { isDefault: false } })` */
  function ClearDefaults(rows: seq<Address>, owner: Id, addressType: string): seq<Address> {
    MapSeq((a: Address) => if a.userId == owner && a.addressType == addressType then a.(isDefault := false) else a, rows)
  }

  /** The table after a valid POST: a default first clears the caller's
      defaults of its type, then the new row is appended. */
  function AddAddress(rows: seq<Address>, id: Id, owner: Id, b: AddressInput, now: int): seq<Address> {
    (if b.isDefault then ClearDefaults(rows, owner, b.addressType) else rows) + [NewAddress(id, owner, b, now)]
  }

  /** Within each (user, type), at most one address is the default. */
  predicate AtMostOneDefault(rows: seq<Address>) {
    forall i, j :: 0 <= i < j < |rows| && rows[i].isDefault && rows[j].isDefault ==>
      rows[i].userId != rows[j].userId || rows[i].addressType != rows[j].addressType
  }

  /** What POST does to the table: it appends the new row, and the only other
      change is that, for a default, the caller's addresses of the same type
      stop being defaults. Other users' rows and other types are untouched. */
  lemma AddAddressEffect(rows: seq<Address>, id: Id, owner: Id, b: AddressInput, now: int)
    ensures var r := AddAddress(rows, id, owner, b, now);
      && |r| == |rows| + 1
      && r[|rows|] == NewAddress(id, owner, b, now)
      && r[|rows|].isDefault == b.isDefault
      && (forall i :: 0 <= i < |rows| && (rows[i].userId != owner || rows[i].addressType != b.addressType) ==> r[i] == rows[i])
      && (forall i :: 0 <= i < |rows| ==> r[i] == rows[i] || (b.isDefault && r[i] == rows[i].(isDefault := false)))
      && (!b.isDefault ==> r[..|rows|] == rows)
  {
  }

  /** Creating a default address makes it the only default of its (user,
      type): the previous default of that pair, if any, is no longer one. */
  lemma NewDefaultIsOnlyDefault(rows: seq<Address>, id: Id, owner: Id, b: AddressInput, now: int)
    requires b.isDefault
    ensures var r := AddAddress(rows, id, owner, b, now);
      forall i :: 0 <= i < |rows| && r[i].userId == owner && r[i].addressType == b.addressType ==> !r[i].isDefault
  {
  }

  /** POST keeps "at most one default per (user, type)". */
  lemma AddAddressKeepsOneDefault(rows: seq<Address>, id: Id, owner: Id, b: AddressInput, now: int)
    requires AtMostOneDefault(rows)
    ensures AtMostOneDefault(AddAddress(rows, id, owner, b, now))
  {
    var r := AddAddress(rows, id, owner, b, now);
    forall i, j | 0 <= i < j < |r| && r[i].isDefault && r[j].isDefault
      ensures r[i].userId != r[j].userId || r[i].addressType != r[j].addressType
    {
      if j == |rows| {
        assert r[i].userId == owner ==> r[i].addressType != b.addressType;
      } else {
        assert r[i].isDefault ==> rows[i].isDefault;
      }
    }
  }

  // ---------------------------------------------------------------------
  // listing

  function AddressesOf(rows: seq<Address>, owner: Id): seq<Address> {
    Filter((a: Address) => a.userId == owner, rows)
  }

  predicate IsDefault(a: Address) { a.isDefault }
  predicate NotDefault(a: Address) { !a.isDefault }

  /** Defaults first, each part keeping its order. */
  function DefaultsFirst(s: seq<Address>): seq<Address> {
    Filter(IsDefault, s) + Filter(NotDefault, s)
  }

  /** `GET /api/addresses`: the caller's addresses ordered by
      `isDefault desc, createdAt desc`. */
  function AddressListing(rows: seq<Address>, owner: Id): seq<Address> {
    DefaultsFirst(SortDesc(AddressTime, AddressesOf(rows, owner)))
  }

  /** Moving the defaults of a newest-first list to the front orders it by
      (isDefault, createdAt), both descending, and loses nothing. */
  lemma DefaultsFirstOrder(s: seq<Address>)
    requires SortedDesc(AddressTime, s)
    ensures var r := DefaultsFirst(s);
      && multiset(r) == multiset(s)
      && forall i, j :: 0 <= i < j < |r| ==>
           (r[i].isDefault || !r[j].isDefault)
           && (r[i].isDefault == r[j].isDefault ==> r[i].createdAt >= r[j].createdAt)
  {
    var d := Filter(IsDefault, s);
    var n := Filter(NotDefault, s);
    FilterPartition(IsDefault, NotDefault, s);
    FilterSorted(IsDefault, AddressTime, s);
    FilterSorted(NotDefault, AddressTime, s);
    var r := d + n;
    forall i, j | 0 <= i < j < |r|
      ensures (r[i].isDefault || !r[j].isDefault)
           && (r[i].isDefault == r[j].isDefault ==> r[i].createdAt >= r[j].createdAt)
    {
      if j < |d| {
        assert r[i] == d[i] && r[j] == d[j];
        assert AddressTime(d[i]) >= AddressTime(d[j]);
      } else if i >= |d| {
        assert r[i] == n[i - |d|] && r[j] == n[j - |d|];
        assert AddressTime(n[i - |d|]) >= AddressTime(n[j - |d|]);
      } else {
        assert r[i] == d[i] && r[j] == n[j - |d|];
      }
    }
  }

  /** The listing is a reordering of the caller's addresses in which every
      default comes before every non-default, and within each group newer
      comes first. */
  lemma AddressListingOrder(rows: seq<Address>, owner: Id)
    ensures var r := AddressListing(rows, owner);
      && multiset(r) == multiset(AddressesOf(rows, owner))
      && forall i, j :: 0 <= i < j < |r| ==>
           (r[i].isDefault || !r[j].isDefault)
           && (r[i].isDefault == r[j].isDefault ==> r[i].createdAt >= r[j].createdAt)
  {
    DefaultsFirstOrder(SortDesc(AddressTime, AddressesOf(rows, owner)));
  }
}
