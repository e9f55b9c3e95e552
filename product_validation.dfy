/** The product, bank-details and address schemas of the shared validation
    library. Numbers are JSON numbers (`real`); a schema default is applied
    when a field is left out. */
module ProductValidation {
  import opened Common
  import opened Patterns

  predicate IsInteger(x: real) { x.Floor as real == x }

  predicate Positive(o: Option<real>) { o.None? || o.value > 0.0 }

  datatype Dimensions = Dimensions(length: Option<real>, width: Option<real>, height: Option<real>)

  datatype Variant = Variant(size: Option<string>, color: Option<string>, sku: string, stock: real)

  /** The product form as submitted. */
  datatype ProductForm = ProductForm(
    title: string,
    description: Option<string>,
    category: string,
    brand: string,
    sku: string,
    barcode: Option<string>,
    hsn: Option<string>,
    price: real,
    mrp: real,
    taxRate: Option<real>,
    stock: Option<real>,
    weight: Option<real>,
    dimensions: Option<Dimensions>,
    originCountry: Option<string>,
    images: seq<string>,
    variants: Option<seq<Variant>>,
    care: Option<string>,
    warranty: Option<string>)

  /** What the schema hands on: the form with its defaults filled in. */
  datatype ProductData = ProductData(form: ProductForm, taxRate: real, stock: int, originCountry: string)

  predicate DimensionsValid(d: Option<Dimensions>) {
    d.None? || (Positive(d.value.length) && Positive(d.value.width) && Positive(d.value.height))
  }

  predicate VariantsValid(v: Option<seq<Variant>>) {
    v.None? || forall i :: 0 <= i < |v.value| ==> IsInteger(v.value[i].stock) && v.value[i].stock >= 0.0
  }

  /** The per-field checks, before defaults. */
  predicate ProductFieldsValid(f: ProductForm) {
    && |f.title| >= 3
    && |f.category| >= 1
    && |f.brand| >= 1
    && |f.sku| >= 1
    && f.price >= 0.0
    && f.mrp >= 0.0
    && (f.taxRate.None? || 0.0 <= f.taxRate.value <= 100.0)
    && (f.stock.None? || (IsInteger(f.stock.value) && f.stock.value >= 0.0))
    && Positive(f.weight)
    && DimensionsValid(f.dimensions)
    && 1 <= |f.images| <= 8
    && VariantsValid(f.variants)
  }

  /** The refinement: the MRP covers the price. */
  predicate MrpCoversPrice(f: ProductForm) { f.mrp >= f.price }

  /** `productSchema.safeParse`: the form with its defaults, or `None` when a
      check or the refinement fails. */
  function ParseProduct(f: ProductForm): (r: Option<ProductData>)
    ensures r.Some? <==> ProductFieldsValid(f) && MrpCoversPrice(f)
    ensures r.Some? ==> r.value.form == f
  {
    if ProductFieldsValid(f) && MrpCoversPrice(f) then
      Some(ProductData(f, f.taxRate.GetOr(18.0), f.stock.GetOr(0.0).Floor, f.originCountry.GetOr("India")))
    else None
  }

  /** A price above the MRP is rejected; a price equal to it is not rejected
      on that account. */
  lemma PriceAgainstMrp(f: ProductForm)
    ensures f.price > f.mrp ==> ParseProduct(f).None?
    ensures f.price == f.mrp && ProductFieldsValid(f) ==> ParseProduct(f).Some?
  {
  }

  /** Everything a parsed product carries is within the schema's bounds, the
      defaults included: tax rate in [0,100] (18 when left out), a
      non-negative whole stock (0 when left out), origin "India" when left
      out, 1 to 8 images, price and MRP non-negative with price <= MRP. */
  lemma ParsedProductBounds(f: ProductForm)
    requires ParseProduct(f).Some?
    ensures var d := ParseProduct(f).value;
      && 0.0 <= d.taxRate <= 100.0
      && (f.taxRate.None? ==> d.taxRate == 18.0)
      && d.stock >= 0
      && (f.stock.Some? ==> d.stock as real == f.stock.value)
      && (f.stock.None? ==> d.stock == 0)
      && (f.originCountry.None? ==> d.originCountry == "India")
      && 1 <= |d.form.images| <= 8
      && 0.0 <= d.form.price <= d.form.mrp
      && (d.form.weight.Some? ==> d.form.weight.value > 0.0)
  {
  }

  // ---------------------------------------------------------------------
  // bank details

  /** `^[A-Z]{4}0[A-Z0-9]{6}$` */
  const IfscPattern: seq<CharClass> := Repeat(Upper, 4) + [Literal('0')] + Repeat(UpperOrDigit, 6)

  predicate IsIfsc(s: string) { Matches(IfscPattern, s) }

  /** An IFSC is 11 characters: 4 capitals, the digit zero, then 6 capitals
      or digits. */
  lemma IfscShape(s: string)
    ensures IsIfsc(s) <==>
      && |s| == 11
      && (forall i :: 0 <= i < 4 ==> IsUpper(s[i]))
      && s[4] == '0'
      && (forall i :: 5 <= i < 11 ==> IsUpperOrDigit(s[i]))
  {
    if |s| == 11 {
      assert |IfscPattern| == 11;
      forall i | 0 <= i < 11
        ensures IfscPattern[i] == if i < 4 then Upper else if i == 4 then Literal('0') else UpperOrDigit
      {
      }
    }
  }

  datatype BankDetails = BankDetails(accountHolder: string, accountNumber: string, ifsc: string, bankName: string)

  predicate BankDetailsValid(b: BankDetails) {
    |b.accountHolder| >= 2 && |b.accountNumber| >= 9 && IsIfsc(b.ifsc) && |b.bankName| >= 2
  }

  /** Accepted bank details have an 11-character IFSC whose fifth character
      is '0', and an account number of at least 9 characters. */
  lemma AcceptedBankDetails(b: BankDetails)
    requires BankDetailsValid(b)
    ensures |b.ifsc| == 11 && b.ifsc[4] == '0' && |b.accountNumber| >= 9
    ensures |b.accountHolder| >= 2 && |b.bankName| >= 2
  {
    IfscShape(b.ifsc);
  }

  // ---------------------------------------------------------------------
  // addresses

  datatype AddressForm = AddressForm(
    addressType: string,
    name: string,
    phone: string,
    line1: string,
    line2: Option<string>,
    city: string,
    state: string,
    pincode: string,
    landmark: Option<string>,
    isDefault: Option<bool>)

  datatype AddressData = AddressData(form: AddressForm, isDefault: bool)

  predicate AddressFieldsValid(a: AddressForm) {
    && (a.addressType == "pickup" || a.addressType == "return")
    && |a.name| >= 2
    && |a.phone| >= 10
    && |a.line1| >= 5
    && |a.city| >= 2
    && |a.state| >= 2
    && Matches(Repeat(Digit, 6), a.pincode)
  }

  /** `addressSchema.safeParse`. */
  function ParseAddress(a: AddressForm): (r: Option<AddressData>)
    ensures r.Some? <==> AddressFieldsValid(a)
    ensures r.Some? ==> r.value.form == a
  {
    if AddressFieldsValid(a) then Some(AddressData(a, a.isDefault.GetOr(false))) else None
  }

  /** A parsed address is of type pickup or return, has a six-digit pincode,
      a first line of at least 5 characters, and is not a default unless the
      form said so. */
  lemma ParsedAddressFacts(a: AddressForm)
    requires ParseAddress(a).Some?
    ensures var d := ParseAddress(a).value;
      && (d.form.addressType == "pickup" || d.form.addressType == "return")
      && |d.form.pincode| == 6 && AllDigits(d.form.pincode)
      && |d.form.line1| >= 5
      && (d.isDefault ==> a.isDefault == Some(true))
  {
    MatchesDigits(6, a.pincode);
  }
}
