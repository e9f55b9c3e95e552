/** The seller application form schema: the GSTIN, PAN and pincode patterns,
    the field bounds and the "GST details required" refinement. */
module ApplicationValidation {
  import opened Common
  import opened Patterns

  /** `^\d{2}[A-Z]{5}\d{4}[A-Z]{1}[A-Z\d]{1}Z[A-Z\d]{1}$` */
  const GstinPattern: seq<CharClass> :=
    Repeat(Digit, 2) + Repeat(Upper, 5) + Repeat(Digit, 4) + [Upper, UpperOrDigit, Literal('Z'), UpperOrDigit]

  /** `^[A-Z]{5}[0-9]{4}[A-Z]{1}$` */
  const PanPattern: seq<CharClass> := Repeat(Upper, 5) + Repeat(Digit, 4) + [Upper]

  /** `^\d{6}$` */
  const PincodePattern: seq<CharClass> := Repeat(Digit, 6)

  predicate IsGstin(s: string) { Matches(GstinPattern, s) }
  predicate IsPan(s: string) { Matches(PanPattern, s) }
  predicate IsPincode(s: string) { Matches(PincodePattern, s) }

  /** A GSTIN is 15 characters: 2 digits, 5 capitals, 4 digits, a capital,
      a capital or digit, the letter Z, a capital or digit. */
  lemma GstinShape(s: string)
    ensures IsGstin(s) <==>
      && |s| == 15
      && IsDigit(s[0]) && IsDigit(s[1])
      && (forall i :: 2 <= i < 7 ==> IsUpper(s[i]))
      && (forall i :: 7 <= i < 11 ==> IsDigit(s[i]))
      && IsUpper(s[11]) && IsUpperOrDigit(s[12]) && s[13] == 'Z' && IsUpperOrDigit(s[14])
  {
    if |s| == 15 {
      assert |GstinPattern| == 15;
      forall i | 0 <= i < 15
        ensures GstinPattern[i] == if i < 2 then Digit else if i < 7 then Upper else if i < 11 then Digit
                                   else [Upper, UpperOrDigit, Literal('Z'), UpperOrDigit][i - 11]
      {
      }
    }
  }

  /** A PAN is 10 characters: 5 capitals, 4 digits, a capital. */
  lemma PanShape(s: string)
    ensures IsPan(s) <==>
      && |s| == 10
      && (forall i :: 0 <= i < 5 ==> IsUpper(s[i]))
      && (forall i :: 5 <= i < 9 ==> IsDigit(s[i]))
      && IsUpper(s[9])
  {
    if |s| == 10 {
      assert |PanPattern| == 10;
      forall i | 0 <= i < 10
        ensures PanPattern[i] == if i < 5 then Upper else if i < 9 then Digit else Upper
      {
      }
    }
  }

  /** A pincode is exactly six ASCII digits. */
  lemma PincodeShape(s: string)
    ensures IsPincode(s) <==> |s| == 6 && AllDigits(s)
  {
    MatchesDigits(6, s);
  }

  /** Characters 2 to 11 of a GSTIN are a PAN (the taxpayer's PAN is embedded
      in the GSTIN; the two patterns agree on it). */
  lemma GstinEmbedsPan(s: string)
    requires IsGstin(s)
    ensures IsPan(s[2..12])
  {
    GstinShape(s);
    PanShape(s[2..12]);
  }

  const Categories: seq<string> :=
    ["Fashion", "Footwear", "Beauty", "Home & Kitchen", "Electronics", "Grocery", "Specialty"]

  const AvailabilityStages: seq<string> :=
    ["Launching now", "<3 months", "3-12 months", "1-3 years", "3+ years"]

  /** The application form as submitted; `None` is a field left out. */
  datatype ApplicationForm = ApplicationForm(
    fullName: string,
    email: string,
    phone: string,
    brandName: string,
    category: string,
    availabilityStage: string,
    gstAvailable: bool,
    gstin: Option<string>,
    legalName: Option<string>,
    pan: Option<string>,
    addressLine1: Option<string>,
    addressLine2: Option<string>,
    city: Option<string>,
    state: Option<string>,
    pincode: Option<string>,
    companyName: Option<string>,
    cin: Option<string>,
    website: Option<string>,
    additionalInfo: Option<string>)

  /** JavaScript truthiness of an optional string. */
  predicate Present(o: Option<string>) { o.Some? && o.value != "" }

  /** An optional field's check: a field left out never fails it. */
  predicate OptionalOk(o: Option<string>, check: string -> bool) {
    o.None? || check(o.value)
  }

  /** The checks on the fields every form carries. */
  predicate BasicsValid(f: ApplicationForm) {
    && |f.fullName| >= 2
    && |f.phone| >= 10
    && |f.brandName| >= 2
    && f.category in Categories
    && f.availabilityStage in AvailabilityStages
  }

  /** The per-field checks of the object schema. */
  predicate FieldsValid(f: ApplicationForm) {
    && BasicsValid(f)
    && OptionalOk(f.gstin, IsGstin)
    && OptionalOk(f.legalName, s => |s| >= 2)
    && OptionalOk(f.pan, IsPan)
    && OptionalOk(f.pincode, IsPincode)
    && OptionalOk(f.additionalInfo, s => |s| <= 500)
  }

  /** The refinement: with GST available, the seven GST details are required. */
  predicate GstDetailsComplete(f: ApplicationForm) {
    f.gstAvailable ==>
      Present(f.gstin) && Present(f.legalName) && Present(f.pan) && Present(f.addressLine1)
      && Present(f.city) && Present(f.state) && Present(f.pincode)
  }

  predicate Accepts(f: ApplicationForm) {
    FieldsValid(f) && GstDetailsComplete(f)
  }

  /** An accepted form that declares GST carries a well-formed GSTIN, PAN and
      pincode, a legal name of at least two characters and a non-empty
      address line, city and state. */
  lemma AcceptedGstFormIsWellFormed(f: ApplicationForm)
    requires Accepts(f) && f.gstAvailable
    ensures f.gstin.Some? && IsGstin(f.gstin.value) && |f.gstin.value| == 15
    ensures f.pan.Some? && IsPan(f.pan.value) && |f.pan.value| == 10
    ensures f.pincode.Some? && IsPincode(f.pincode.value) && AllDigits(f.pincode.value)
    ensures f.legalName.Some? && |f.legalName.value| >= 2
    ensures Present(f.addressLine1) && Present(f.city) && Present(f.state)
  {
    PincodeShape(f.pincode.value);
  }

  /** Without GST, a form whose optional fields are all left out is accepted
      exactly when its basic fields are: the refinement imposes nothing and
      absent fields never fail their patterns. */
  lemma NoGstFormNeedsOnlyBasics(f: ApplicationForm)
    requires !f.gstAvailable
    requires f.gstin.None? && f.legalName.None? && f.pan.None? && f.pincode.None? && f.additionalInfo.None?
    ensures Accepts(f) <==> BasicsValid(f)
  {
  }

  /** With GST available, leaving out any one of the seven details rejects
      the form, whatever else it holds. */
  lemma MissingGstDetailRejects(f: ApplicationForm)
    requires f.gstAvailable
    requires !Present(f.gstin) || !Present(f.legalName) || !Present(f.pan) || !Present(f.addressLine1)
          || !Present(f.city) || !Present(f.state) || !Present(f.pincode)
    ensures !Accepts(f)
  {
  }
}
