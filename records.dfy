/** The rows of the seller store, with the JSON text columns (timeline,
    checklist items, features, bank details) held as typed values. Every row
    carries its creation time, which the listings order by. */
module Records {
  import opened Common
  import opened ApplicationValidation
  import opened ProductValidation

  /** A JSON value, as a request body or a `features` entry carries it. */
  datatype Json =
    | JNull
    | JBool(b: bool)
    | JNumber(n: real)
    | JString(s: string)
    | JArray(elems: seq<Json>)
    | JObject(fields: map<string, Json>)

  /** JavaScript truthiness: `null`, `false`, `0` and `""` are falsy; every
      array and object is truthy. */
  predicate Truthy(j: Json) {
    match j
    case JNull => false
    case JBool(b) => b
    case JNumber(n) => n != 0.0
    case JString(s) => s != ""
    case JArray(_) => true
    case JObject(_) => true
  }

  datatype User = User(id: Id, email: string, name: string, role: string)

  /** The business details captured with an application, stored as sent. */
  datatype Profile = Profile(id: Id, userId: Id, form: ApplicationForm, attachments: Option<seq<string>>)

  datatype TimelineEntry = TimelineEntry(status: string, timestamp: int, message: string)

  datatype Application = Application(
    id: Id,
    userId: Id,
    profileId: Id,
    status: string,
    reviewerId: Option<Id>,
    timeline: seq<TimelineEntry>,
    createdAt: int)

  datatype AppMessage = AppMessage(
    id: Id,
    applicationId: Id,
    fromType: string,
    fromUserId: Option<Id>,
    body: string,
    createdAt: int)

  /** `features` is `None` when the column is null. */
  datatype SellerAccount = SellerAccount(userId: Id, certificationBadge: bool, features: Option<map<string, Json>>)

  datatype Product = Product(
    id: Id,
    userId: Id,
    title: string,
    description: Option<string>,
    category: string,
    brand: string,
    sku: string,
    barcode: Option<string>,
    hsn: Option<string>,
    price: real,
    mrp: real,
    taxRate: real,
    stock: int,
    weight: Option<real>,
    dimensions: Option<Dimensions>,
    originCountry: string,
    images: Option<seq<string>>,
    status: string,
    createdAt: int)

  datatype Address = Address(
    id: Id,
    userId: Id,
    addressType: string,
    name: string,
    phone: string,
    line1: string,
    line2: Option<string>,
    landmark: Option<string>,
    city: string,
    state: string,
    pincode: string,
    isDefault: bool,
    createdAt: int)

  datatype PayoutMethod = PayoutMethod(
    id: Id,
    userId: Id,
    methodType: string,
    details: BankDetails,
    verified: bool,
    createdAt: int)

  datatype NotificationPrefs = NotificationPrefs(email: bool, orderUpdates: bool, paymentAlerts: bool, productAlerts: bool)

  datatype ApiKey = ApiKey(id: Id, userId: Id, key: string, createdAt: int)

  /** An analytics event: its name and the user it is recorded for. */
  datatype Event = Event(name: string, userId: Id)

  /** A handler's answer: a value, or an HTTP error status with its message. */
  datatype Reply<T> = Ok(value: T) | Fail(code: int, error: string)

  /** `s || null` */
  function TextOrNull(s: string): (r: Option<string>)
    ensures r.None? <==> s == ""
    ensures r.Some? ==> r.value == s
  {
    if s == "" then None else Some(s)
  }

  /** `x || d` on a number. */
  function NumberOr(x: real, d: real): (r: real)
    ensures x != 0.0 ==> r == x
    ensures x == 0.0 ==> r == d
  {
    if x == 0.0 then d else x
  }

  // ---------------------------------------------------------------------
  // orderings

  function ProductTime(p: Product): int { p.createdAt }
  function AddressTime(a: Address): int { a.createdAt }
  function ApplicationTime(a: Application): int { a.createdAt }
  function MessageTime(m: AppMessage): int { m.createdAt }
  function ApiKeyTime(k: ApiKey): int { k.createdAt }
}
