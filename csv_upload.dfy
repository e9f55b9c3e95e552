/** The bulk-upload dialog of the catalog: the CSV text is split into lines
    and cells, each data line becomes one parsed product with its own list of
    errors, and only the error-free products are uploaded. */
module CsvUpload {
  import opened Common

  /** One data line of the file. Numbers are `None` where JavaScript would
      hold NaN; `errors` is `None` when no check failed. */
  datatype ParsedProduct = ParsedProduct(
    title: string,
    description: string,
    category: string,
    brand: string,
    sku: string,
    barcode: string,
    hsn: string,
    price: Option<real>,
    mrp: Option<real>,
    taxRate: Option<real>,
    stock: Option<int>,
    weight: Option<real>,
    originCountry: string,
    errors: Option<seq<RowError>>)

  // ---------------------------------------------------------------------
  // lines, cells and lookups

  /** A line that holds more than white space. */
  predicate NonBlank(line: string) { Trim(line) != "" }

  /** The lines of the file that hold more than white space, in order. */
  function NonBlankLines(lines: seq<string>): (r: seq<string>)
    ensures |r| <= |lines|
    ensures forall k :: 0 <= k < |r| ==> NonBlank(r[k]) && r[k] in lines
    ensures forall k :: 0 <= k < |lines| && NonBlank(lines[k]) ==> lines[k] in r
  {
    Filter(NonBlank, lines)
  }

  /** `line.split(',')`; each cell is trimmed where it is read (`Cell`). */
  function Cells(line: string): seq<string> {
    Split(line, ',')
  }

  function TrimAll(xs: seq<string>): (r: seq<string>)
    ensures |r| == |xs| && forall k :: 0 <= k < |xs| ==> r[k] == Trim(xs[k])
  {
    if xs == [] then [] else [Trim(xs[0])] + TrimAll(xs[1..])
  }

  /** `lines[0].split(',').map(h => h.trim())` */
  function HeaderNames(line: string): seq<string> {
    TrimAll(Split(line, ','))
  }

  /** Column `k` is the first one called `name`. */
  predicate FirstColumn(headers: seq<string>, name: string, k: int)
    requires 0 <= k < |headers|
  {
    headers[k] == name && forall j :: 0 <= j < k ==> headers[j] != name
  }

  /** `indexOf` finds the first column with the name. */
  lemma FirstColumnIsIndexOf(headers: seq<string>, name: string)
    ensures forall k :: 0 <= k < |headers| && FirstColumn(headers, name, k) ==> IndexOf(headers, name) == k
  {
    forall k | 0 <= k < |headers| && FirstColumn(headers, name, k) ensures IndexOf(headers, name) == k {
      assert name in headers;
    }
  }

  /** `values[headers.indexOf(name)] || fallback`, the values trimmed: the
      trimmed cell under the first column called `name`, or the fallback when
      there is no such column, the line is too short, or the cell is blank. */
  function Cell(headers: seq<string>, values: seq<string>, name: string, fallback: string): (r: string)
    ensures name !in headers ==> r == fallback
    ensures forall k :: 0 <= k < |headers| && FirstColumn(headers, name, k) ==>
      && (k < |values| && Trim(values[k]) != "" ==> r == Trim(values[k]))
      && (k >= |values| || Trim(values[k]) == "" ==> r == fallback)
    ensures r == fallback || (r != "" && !IsJsSpace(r[0]) && !IsJsSpace(r[|r| - 1]))
  {
    FirstColumnIsIndexOf(headers, name);
    var i := IndexOf(headers, name);
    if 0 <= i < |values| && Trim(values[i]) != "" then Trim(values[i]) else fallback
  }

  // ---------------------------------------------------------------------
  // one row

  predicate BadAmount(x: Option<real>) { x.None? || x.value < 0.0 }
  predicate PriceAboveMrp(price: Option<real>, mrp: Option<real>) {
    price.Some? && mrp.Some? && price.value > mrp.value
  }
  predicate BadTaxRate(t: Option<real>) { t.None? || t.value < 0.0 || t.value > 100.0 }
  predicate BadStock(s: Option<int>) { s.None? || s.value < 0 }

  /** The checks a row can fail; `Message` is the text the dialog shows. */
  datatype RowError =
    | TitleRequired | CategoryRequired | BrandRequired | SkuRequired
    | InvalidPrice | InvalidMrp | PriceExceedsMrp | InvalidTaxRate | InvalidStock
  {
    function Message(): string {
      match this
      case TitleRequired => "Title is required"
      case CategoryRequired => "Category is required"
      case BrandRequired => "Brand is required"
      case SkuRequired => "SKU is required"
      case InvalidPrice => "Invalid price"
      case InvalidMrp => "Invalid MRP"
      case PriceExceedsMrp => "Price cannot exceed MRP"
      case InvalidTaxRate => "Invalid tax rate"
      case InvalidStock => "Invalid stock"
    }
  }

  /** Whether the check `e` fails on the row's values. */
  predicate Fails(p: ParsedProduct, e: RowError) {
    match e
    case TitleRequired => p.title == ""
    case CategoryRequired => p.category == ""
    case BrandRequired => p.brand == ""
    case SkuRequired => p.sku == ""
    case InvalidPrice => BadAmount(p.price)
    case InvalidMrp => BadAmount(p.mrp)
    case PriceExceedsMrp => PriceAboveMrp(p.price, p.mrp)
    case InvalidTaxRate => BadTaxRate(p.taxRate)
    case InvalidStock => BadStock(p.stock)
  }

  /** The checks in the order the dialog makes them. */
  const AllChecks: seq<RowError> := [
    TitleRequired, CategoryRequired, BrandRequired, SkuRequired,
    InvalidPrice, InvalidMrp, PriceExceedsMrp, InvalidTaxRate, InvalidStock]

  /** The checks of `checks` that fail on the row, in order. */
  function FailedChecks(p: ParsedProduct, checks: seq<RowError>): (r: seq<RowError>)
    ensures |r| <= |checks|
    ensures forall e :: e in r <==> e in checks && Fails(p, e)
  {
    if checks == [] then []
    else (if Fails(p, checks[0]) then [checks[0]] else []) + FailedChecks(p, checks[1..])
  }

  /** The failures keep the order of the checks: those of `a + b` are the
      failures of `a` followed by those of `b`. */
  lemma {:induction false} FailedChecksInOrder(p: ParsedProduct, a: seq<RowError>, b: seq<RowError>)
    ensures FailedChecks(p, a + b) == FailedChecks(p, a) + FailedChecks(p, b)
  {
    if a == [] {
      assert a + b == b;
    } else {
      assert (a + b)[0] == a[0];
      assert (a + b)[1..] == a[1..] + b;
      FailedChecksInOrder(p, a[1..], b);
    }
  }

  /** The errors one row collects, in the order the dialog makes its checks. */
  function RowErrors(p: ParsedProduct): seq<RowError> {
    FailedChecks(p, AllChecks)
  }

  /** `weight && !isNaN(weight) ? weight : undefined`: zero and NaN become
      absent. */
  function Weight(ws: string): Option<real> {
    if ws == "" then None
    else match ParseFloat(ws)
      case Some(w) => if w != 0.0 then Some(w) else None
      case None => None
  }

  /** The cells of one data line read under the headers, before the checks. */
  function ReadRow(headers: seq<string>, values: seq<string>): (p: ParsedProduct)
    ensures p.errors.None?
  {
    ParsedProduct(
      Cell(headers, values, "title", ""),
      Cell(headers, values, "description", ""),
      Cell(headers, values, "category", ""),
      Cell(headers, values, "brand", ""),
      Cell(headers, values, "sku", ""),
      Cell(headers, values, "barcode", ""),
      Cell(headers, values, "hsn", ""),
      ParseFloat(Cell(headers, values, "price", "0")),
      ParseFloat(Cell(headers, values, "mrp", "0")),
      ParseFloat(Cell(headers, values, "taxRate", "18")),
      ParseInt(Cell(headers, values, "stock", "0")),
      Weight(Cell(headers, values, "weight", "")),
      Cell(headers, values, "originCountry", "India"),
      None)
  }

  /** Attaches the failed checks of a row, or nothing when all pass. */
  function Checked(p: ParsedProduct): ParsedProduct {
    var errors := RowErrors(p);
    p.(errors := if |errors| > 0 then Some(errors) else None)
  }

  /** One data line under the given headers. */
  function ParseRow(headers: seq<string>, line: string): ParsedProduct {
    Checked(ReadRow(headers, Cells(line)))
  }

  /** A parsed product that passes every check, stated on its values. */
  predicate RowValid(p: ParsedProduct) {
    && p.title != "" && p.category != "" && p.brand != "" && p.sku != ""
    && p.price.Some? && p.price.value >= 0.0
    && p.mrp.Some? && p.mrp.value >= 0.0
    && p.price.value <= p.mrp.value
    && p.taxRate.Some? && 0.0 <= p.taxRate.value <= 100.0
    && p.stock.Some? && p.stock.value >= 0
  }

  /** Each check is reported exactly when it fails. */
  lemma RowErrorsExact(p: ParsedProduct, e: RowError)
    ensures e in RowErrors(p) <==> Fails(p, e)
  {
    assert e in AllChecks by {
      match e
      case TitleRequired => assert AllChecks[0] == e;
      case CategoryRequired => assert AllChecks[1] == e;
      case BrandRequired => assert AllChecks[2] == e;
      case SkuRequired => assert AllChecks[3] == e;
      case InvalidPrice => assert AllChecks[4] == e;
      case InvalidMrp => assert AllChecks[5] == e;
      case PriceExceedsMrp => assert AllChecks[6] == e;
      case InvalidTaxRate => assert AllChecks[7] == e;
      case InvalidStock => assert AllChecks[8] == e;
    }
  }

  lemma FailureInvalidates(r: ParsedProduct, e: RowError)
    requires Fails(r, e)
    ensures !RowValid(r)
  {
    match e
    case _ =>
  }

  /** A row's `errors` is absent exactly when every check passed; the checks
      are made on the values read, which the checking leaves as they were. */
  lemma CheckedValidity(r: ParsedProduct)
    ensures var p := Checked(r);
      && p == r.(errors := p.errors)
      && (p.errors.None? <==> RowValid(r))
      && (p.errors.Some? ==> |p.errors.value| > 0 && forall e :: e in p.errors.value <==> Fails(r, e))
  {
    var errors := RowErrors(r);
    forall e ensures e in errors <==> Fails(r, e) {
      RowErrorsExact(r, e);
    }
    if errors == [] {
      forall e ensures !Fails(r, e) {
        RowErrorsExact(r, e);
      }
      assert !Fails(r, TitleRequired) && !Fails(r, CategoryRequired) && !Fails(r, BrandRequired);
      assert !Fails(r, SkuRequired) && !Fails(r, InvalidPrice) && !Fails(r, InvalidMrp);
      assert !Fails(r, PriceExceedsMrp) && !Fails(r, InvalidTaxRate) && !Fails(r, InvalidStock);
    } else {
      assert errors[0] in errors;
      FailureInvalidates(r, errors[0]);
    }
  }

  /** A file without some column takes that column's default on every row:
      empty text, price and MRP and stock 0, tax rate 18, origin "India". */
  lemma MissingColumnsDefault(headers: seq<string>, values: seq<string>)
    ensures var p := ReadRow(headers, values);
      && ("title" !in headers ==> p.title == "")
      && ("description" !in headers ==> p.description == "")
      && ("price" !in headers ==> p.price == Some(0.0))
      && ("mrp" !in headers ==> p.mrp == Some(0.0))
      && ("taxRate" !in headers ==> p.taxRate == Some(18.0))
      && ("stock" !in headers ==> p.stock == Some(0))
      && ("weight" !in headers ==> p.weight.None?)
      && ("originCountry" !in headers ==> p.originCountry == "India")
  {
    NumericDefaults();
  }

  /** A blank cell, or one missing because the line is short, takes its
      column's default just as a missing column does; a non-blank cell is
      read trimmed. */
  lemma BlankCellsDefault(headers: seq<string>, values: seq<string>, name: string, k: nat)
    requires k < |headers| && FirstColumn(headers, name, k)
    ensures var p := ReadRow(headers, values);
      var blank := k >= |values| || Trim(values[k]) == "";
      && (blank && name == "title" ==> p.title == "")
      && (blank && name == "sku" ==> p.sku == "")
      && (blank && name == "price" ==> p.price == Some(0.0))
      && (blank && name == "mrp" ==> p.mrp == Some(0.0))
      && (blank && name == "taxRate" ==> p.taxRate == Some(18.0))
      && (blank && name == "stock" ==> p.stock == Some(0))
      && (blank && name == "weight" ==> p.weight.None?)
      && (blank && name == "originCountry" ==> p.originCountry == "India")
      && (!blank && name == "title" ==> p.title == Trim(values[k]))
      && (!blank && name == "sku" ==> p.sku == Trim(values[k]))
      && (!blank && name == "price" ==> p.price == ParseFloat(Trim(values[k])))
      && (!blank && name == "stock" ==> p.stock == ParseInt(Trim(values[k])))
      && (!blank && name == "originCountry" ==> p.originCountry == Trim(values[k]))
  {
    NumericDefaults();
  }

  /** The numeric defaults read as numbers. */
  lemma NumericDefaults()
    ensures ParseFloat("0") == Some(0.0) && ParseFloat("18") == Some(18.0) && ParseInt("0") == Some(0)
  {
    assert AllDigits("0") && AllDigits("18");
    assert DigitsValue("18") == 18 by { assert "18"[..1] == "1"; }
  }

  // ---------------------------------------------------------------------
  // the whole file

  /** One parsed product per data line, in file order. */
  function ParseRows(headers: seq<string>, rows: seq<string>): (ps: seq<ParsedProduct>)
    ensures |ps| == |rows|
    ensures forall k :: 0 <= k < |rows| ==> ps[k] == ParseRow(headers, rows[k])
  {
    MapSeq(line => ParseRow(headers, line), rows)
  }

  /** What `parseCSV` computes: `None` when fewer than two non-blank lines
      remain (the dialog then keeps what it had), else one product per data
      line under the trimmed header cells of the first line. */
  function ParseCsvText(text: string): (r: Option<seq<ParsedProduct>>)
    ensures r.Some? <==> |NonBlankLines(Split(text, '\n'))| >= 2
    ensures r.Some? ==> |r.value| == |NonBlankLines(Split(text, '\n'))| - 1
  {
    var lines := NonBlankLines(Split(text, '\n'));
    if |lines| < 2 then None else Some(ParseRows(HeaderNames(lines[0]), lines[1..]))
  }

  /** The loop of `parseCSV`: appends one parsed product per data line. */
  method BuildProducts(headers: seq<string>, lines: seq<string>) returns (products: seq<ParsedProduct>)
    requires |lines| >= 1
    ensures products == ParseRows(headers, lines[1..])
  {
    var parse := line => ParseRow(headers, line);
    products := [];
    var i := 1;
    while i < |lines|
      invariant 1 <= i <= |lines|
      invariant products == MapSeq(parse, lines[1..i])
    {
      MapSeqSnoc(parse, lines[1..i], lines[i]);
      SliceSnoc(lines, 1, i);
      products := products + [parse(lines[i])];
      i := i + 1;
    }
    assert lines[1..i] == lines[1..];
  }

  // ---------------------------------------------------------------------
  // counts and the upload

  function ValidProducts(ps: seq<ParsedProduct>): (r: seq<ParsedProduct>)
    ensures |r| <= |ps|
    ensures forall k :: 0 <= k < |r| ==> r[k].errors.None? && r[k] in ps
    ensures forall k :: 0 <= k < |ps| && ps[k].errors.None? ==> ps[k] in r
  {
    if ps == [] then []
    else if ps[0].errors.None? then [ps[0]] + ValidProducts(ps[1..])
    else ValidProducts(ps[1..])
  }

  /** `parsedProducts.filter(p => p.errors).length` */
  function ErrorCount(ps: seq<ParsedProduct>): nat {
    if ps == [] then 0 else (if ps[0].errors.Some? then 1 else 0) + ErrorCount(ps[1..])
  }

  /** Every row is counted once: as valid or as having errors. */
  lemma {:induction false} CountsPartition(ps: seq<ParsedProduct>)
    ensures |ValidProducts(ps)| + ErrorCount(ps) == |ps|
  {
    if ps != [] {
      CountsPartition(ps[1..]);
    }
  }

  /** Rows with errors are never sent; a file whose rows all pass is sent
      whole, in order. */
  lemma {:induction false} AllValidSentWhole(ps: seq<ParsedProduct>)
    requires forall k :: 0 <= k < |ps| ==> ps[k].errors.None?
    ensures ValidProducts(ps) == ps
  {
    if ps != [] {
      AllValidSentWhole(ps[1..]);
    }
  }

  /** The dialog: the products of the last file parsed. */
  class CsvUploadDialog {
    var parsedProducts: seq<ParsedProduct>

    constructor ()
      ensures parsedProducts == []
    {
      parsedProducts := [];
    }

    function ValidCount(): (n: nat)
      reads this
      ensures n <= |parsedProducts|
    {
      |ValidProducts(parsedProducts)|
    }

    /** `parseCSV`: `ok` is false (and nothing changes) when the file has
        fewer than two non-blank lines. */
    method ParseCsv(csvText: string) returns (ok: bool)
      modifies this
      ensures ok == ParseCsvText(csvText).Some?
      ensures parsedProducts == if ok then ParseCsvText(csvText).value else old(parsedProducts)
    {
      var lines := NonBlankLines(Split(csvText, '\n'));
      if |lines| < 2 {
        return false;
      }
      var headers := HeaderNames(lines[0]);
      parsedProducts := BuildProducts(headers, lines);
      ok := true;
    }

    /** `handleUpload`: sends the error-free products, or nothing when there
        are none; the dialog is cleared only when the server accepted them. */
    method HandleUpload(responseOk: bool) returns (sent: Option<seq<ParsedProduct>>)
      modifies this
      ensures sent.None? <==> ValidProducts(old(parsedProducts)) == []
      ensures sent.Some? ==> sent.value == ValidProducts(old(parsedProducts))
      ensures parsedProducts == if sent.Some? && responseOk then [] else old(parsedProducts)
    {
      var valid := ValidProducts(parsedProducts);
      if |valid| == 0 {
        return None;
      }
      sent := Some(valid);
      if responseOk {
        parsedProducts := [];
      }
    }
  }

  // ---------------------------------------------------------------------
  // the downloadable template

  const TemplateHeader: seq<string> :=
    ["title", "description", "category", "brand", "sku", "barcode", "hsn", "price", "mrp", "taxRate", "stock", "weight", "originCountry"]

  const TemplateRows: seq<seq<string>> := [
    TemplateHeader,
    ["Premium Cotton T-Shirt", "Comfortable 100% cotton t-shirt", "Fashion", "Your Brand", "SKU-001", "1234567890123", "6109", "499", "999", "5", "50", "0.2", "India"],
    ["Denim Jeans - Slim Fit", "Classic slim fit denim jeans", "Fashion", "Your Brand", "SKU-002", "1234567890124", "6203", "1299", "2499", "5", "30", "0.5", "India"],
    ["Casual Sneakers", "Comfortable everyday sneakers", "Footwear", "Your Brand", "SKU-003", "1234567890125", "6404", "1599", "2999", "12", "20", "0.8", "India"]
  ]

  function JoinRows(rows: seq<seq<string>>): (lines: seq<string>)
    requires forall k :: 0 <= k < |rows| ==> |rows[k]| >= 1
    ensures |lines| == |rows|
    ensures forall k :: 0 <= k < |rows| ==> lines[k] == Join(rows[k], ',')
  {
    if rows == [] then [] else [Join(rows[0], ',')] + JoinRows(rows[1..])
  }

  /** The template file: rows joined by commas, lines by newlines. */
  function TemplateCsv(): string {
    Join(JoinRows(TemplateRows), '\n')
  }

  /** A template cell: not empty, free of both separators, and with no white
      space at either end. */
  predicate PlainCell(s: string) {
    && s != []
    && (forall i :: 0 <= i < |s| ==> s[i] != ',' && s[i] != '\n')
    && !IsJsSpace(s[0]) && !IsJsSpace(s[|s| - 1])
  }

  /** The first occurrence is found by `IndexOf`. */
  lemma IndexOfAt(headers: seq<string>, name: string, i: nat)
    requires i < |headers| && headers[i] == name
    requires forall j :: 0 <= j < i ==> headers[j] != name
    ensures IndexOf(headers, name) == i
  {
  }

  /** The template's column names differ in length or in first letter, so
      each is found where it stands. */
  lemma HeaderIndex(i: nat)
    requires i < |TemplateHeader|
    ensures IndexOf(TemplateHeader, TemplateHeader[i]) == i
  {
    var h := TemplateHeader;
    forall j | 0 <= j < i ensures h[j] != h[i] {
      assert |h[j]| != |h[i]| || h[j][0] != h[i][0];
    }
    IndexOfAt(h, h[i], i);
  }

  /** A plain cell is read as it stands from the column it sits in. */
  lemma CellOfTemplate(row: seq<string>, k: nat, fallback: string)
    requires |row| == |TemplateHeader| && k < |row| && PlainCell(row[k])
    ensures Cell(TemplateHeader, row, TemplateHeader[k], fallback) == row[k]
  {
    HeaderIndex(k);
    TrimOfTrimmed(row[k]);
  }

  /** Reading a row of plain cells under the template header takes each value
      from its own column. */
  lemma ReadTemplateRow(row: seq<string>)
    requires |row| == |TemplateHeader| && forall k :: 0 <= k < |row| ==> PlainCell(row[k])
    ensures var p := ReadRow(TemplateHeader, row);
      && p.title == row[0] && p.category == row[2] && p.brand == row[3] && p.sku == row[4]
      && p.price == ParseFloat(row[7]) && p.mrp == ParseFloat(row[8])
      && p.taxRate == ParseFloat(row[9]) && p.stock == ParseInt(row[10])
  {
    var h := TemplateHeader;
    assert h[0] == "title" && h[2] == "category" && h[3] == "brand" && h[4] == "sku";
    assert h[7] == "price" && h[8] == "mrp" && h[9] == "taxRate" && h[10] == "stock";
    CellOfTemplate(row, 0, ""); CellOfTemplate(row, 2, ""); CellOfTemplate(row, 3, ""); CellOfTemplate(row, 4, "");
    CellOfTemplate(row, 7, "0"); CellOfTemplate(row, 8, "0"); CellOfTemplate(row, 9, "18"); CellOfTemplate(row, 10, "0");
  }

  predicate PlainRow(r: seq<string>) {
    |r| == |TemplateHeader| && forall k :: 0 <= k < |r| ==> PlainCell(r[k])
  }

  lemma PlainCells13(r: seq<string>)
    requires |r| == 13
    requires PlainCell(r[0]) && PlainCell(r[1]) && PlainCell(r[2]) && PlainCell(r[3]) && PlainCell(r[4])
    requires PlainCell(r[5]) && PlainCell(r[6]) && PlainCell(r[7]) && PlainCell(r[8]) && PlainCell(r[9])
    requires PlainCell(r[10]) && PlainCell(r[11]) && PlainCell(r[12])
    ensures PlainRow(r)
  {
  }

  /** Every cell of the template is plain (a few cells per lemma keeps each
      proof small). */
  lemma PlainTemplateCells0A()
    ensures var r := TemplateRows[0]; PlainCell(r[0]) && PlainCell(r[1])
  {
  }

  lemma PlainTemplateCells0B()
    ensures var r := TemplateRows[0]; PlainCell(r[2]) && PlainCell(r[3]) && PlainCell(r[4]) && PlainCell(r[5]) && PlainCell(r[6])
  {
  }

  lemma PlainTemplateCells0C()
    ensures var r := TemplateRows[0]; PlainCell(r[7]) && PlainCell(r[8]) && PlainCell(r[9]) && PlainCell(r[10]) && PlainCell(r[11]) && PlainCell(r[12])
  {
  }

  lemma PlainTemplateRow0()
    ensures PlainRow(TemplateRows[0])
  {
    PlainTemplateCells0A(); PlainTemplateCells0B(); PlainTemplateCells0C();
    PlainCells13(TemplateRows[0]);
  }

  lemma PlainTemplateCells1A()
    ensures var r := TemplateRows[1]; PlainCell(r[0]) && PlainCell(r[1])
  {
  }

  lemma PlainTemplateCells1B()
    ensures var r := TemplateRows[1]; PlainCell(r[2]) && PlainCell(r[3]) && PlainCell(r[4]) && PlainCell(r[5]) && PlainCell(r[6])
  {
  }

  lemma PlainTemplateCells1C()
    ensures var r := TemplateRows[1]; PlainCell(r[7]) && PlainCell(r[8]) && PlainCell(r[9]) && PlainCell(r[10]) && PlainCell(r[11]) && PlainCell(r[12])
  {
  }

  lemma PlainTemplateRow1()
    ensures PlainRow(TemplateRows[1])
  {
    PlainTemplateCells1A(); PlainTemplateCells1B(); PlainTemplateCells1C();
    PlainCells13(TemplateRows[1]);
  }

  lemma PlainTemplateCells2A()
    ensures var r := TemplateRows[2]; PlainCell(r[0]) && PlainCell(r[1])
  {
  }

  lemma PlainTemplateCells2B()
    ensures var r := TemplateRows[2]; PlainCell(r[2]) && PlainCell(r[3]) && PlainCell(r[4]) && PlainCell(r[5]) && PlainCell(r[6])
  {
  }

  lemma PlainTemplateCells2C()
    ensures var r := TemplateRows[2]; PlainCell(r[7]) && PlainCell(r[8]) && PlainCell(r[9]) && PlainCell(r[10]) && PlainCell(r[11]) && PlainCell(r[12])
  {
  }

  lemma PlainTemplateRow2()
    ensures PlainRow(TemplateRows[2])
  {
    PlainTemplateCells2A(); PlainTemplateCells2B(); PlainTemplateCells2C();
    PlainCells13(TemplateRows[2]);
  }

  lemma PlainTemplateCells3A()
    ensures var r := TemplateRows[3]; PlainCell(r[0]) && PlainCell(r[1])
  {
  }

  lemma PlainTemplateCells3B()
    ensures var r := TemplateRows[3]; PlainCell(r[2]) && PlainCell(r[3]) && PlainCell(r[4]) && PlainCell(r[5]) && PlainCell(r[6])
  {
  }

  lemma PlainTemplateCells3C()
    ensures var r := TemplateRows[3]; PlainCell(r[7]) && PlainCell(r[8]) && PlainCell(r[9]) && PlainCell(r[10]) && PlainCell(r[11]) && PlainCell(r[12])
  {
  }

  lemma PlainTemplateRow3()
    ensures PlainRow(TemplateRows[3])
  {
    PlainTemplateCells3A(); PlainTemplateCells3B(); PlainTemplateCells3C();
    PlainCells13(TemplateRows[3]);
  }

  /** A line of plain cells has no line break and is not blank. */
  lemma PlainLine(row: seq<string>)
    requires PlainRow(row)
    ensures '\n' !in Join(row, ',') && Trim(Join(row, ',')) != ""
  {
    JoinAvoids(row, ',', '\n');
    JoinHead(row, ',');
    assert !AllSpace(Join(row, ','));
  }

  /** A line of plain cells whose price, MRP, tax rate and stock are digit
      strings with price <= MRP and tax rate <= 100 parses without errors. */
  lemma TemplateLineValid(row: seq<string>)
    requires PlainRow(row) && NumbersInRange(row)
    ensures ParseRow(TemplateHeader, Join(row, ',')).errors.None?
  {
    forall k | 0 <= k < |row| ensures ',' !in row[k] {
      assert PlainCell(row[k]);
    }
    SplitJoin(row, ',');
    assert Cells(Join(row, ',')) == row;
    TemplateRowValid(row);
    CheckedValidity(ReadRow(TemplateHeader, row));
  }

  /** The fields read from such a row pass every check. */
  lemma TemplateRowValid(row: seq<string>)
    requires PlainRow(row) && NumbersInRange(row)
    ensures RowValid(ReadRow(TemplateHeader, row))
  {
    ReadTemplateRow(row);
    assert PlainCell(row[0]) && PlainCell(row[2]) && PlainCell(row[3]) && PlainCell(row[4]);
    assert PlainCell(row[7]) && PlainCell(row[8]) && PlainCell(row[9]) && PlainCell(row[10]);
  }

  /** The numbers of the template's data lines are digit strings with
      price <= MRP and tax rate <= 100. */
  predicate NumbersInRange(row: seq<string>)
    requires |row| == |TemplateHeader|
  {
    && AllDigits(row[7]) && AllDigits(row[8]) && AllDigits(row[9]) && AllDigits(row[10])
    && DigitsValue(row[7]) <= DigitsValue(row[8]) && DigitsValue(row[9]) <= 100
  }

  lemma TemplateNumbers1()
    ensures |TemplateRows[1]| == |TemplateHeader| && NumbersInRange(TemplateRows[1])
  {
    assert "499"[..2] == "49" && "49"[..1] == "4";
    assert "999"[..2] == "99" && "99"[..1] == "9";
  }

  lemma TemplateNumbers2()
    ensures |TemplateRows[2]| == |TemplateHeader| && NumbersInRange(TemplateRows[2])
  {
    assert "1299"[..3] == "129" && "129"[..2] == "12" && "12"[..1] == "1";
    assert "2499"[..3] == "249" && "249"[..2] == "24" && "24"[..1] == "2";
  }

  lemma TemplateNumbers3()
    ensures |TemplateRows[3]| == |TemplateHeader| && NumbersInRange(TemplateRows[3])
  {
    assert "1599"[..3] == "159" && "159"[..2] == "15" && "15"[..1] == "1";
    assert "2999"[..3] == "299" && "299"[..2] == "29" && "29"[..1] == "2";
    assert "12"[..1] == "1";
  }

  /** The cells of `parts` and the separator avoid `c`, so the join does. */
  lemma {:induction false} JoinAvoids(parts: seq<string>, sep: char, c: char)
    requires |parts| >= 1 && c != sep
    requires forall k :: 0 <= k < |parts| ==> c !in parts[k]
    ensures c !in Join(parts, sep)
  {
    if |parts| > 1 {
      JoinAvoids(parts[1..], sep, c);
    }
  }

  lemma JoinHead(parts: seq<string>, sep: char)
    requires |parts| >= 1 && parts[0] != []
    ensures Join(parts, sep) != [] && Join(parts, sep)[0] == parts[0][0]
  {
  }

  /** Template-shaped files: the template header, then lines of plain cells
      with numbers in range. */
  predicate TemplateShaped(rows: seq<seq<string>>) {
    && |rows| >= 2 && rows[0] == TemplateHeader
    && (forall j :: 0 <= j < |rows| ==> PlainRow(rows[j]))
    && (forall j :: 1 <= j < |rows| ==> NumbersInRange(rows[j]))
  }

  lemma TemplateShapedLines(rows: seq<seq<string>>)
    requires TemplateShaped(rows)
    ensures var ps := ParseRows(TemplateHeader, JoinRows(rows)[1..]);
      forall k :: 0 <= k < |ps| ==> ps[k].errors.None?
  {
    var lines := JoinRows(rows)[1..];
    forall k | 0 <= k < |lines| ensures ParseRow(TemplateHeader, lines[k]).errors.None? {
      TemplateLineValid(rows[k + 1]);
    }
  }

  /** The lines of a template-shaped file survive the split and the blank
      line filter unchanged. */
  lemma TemplateShapedSplit(rows: seq<seq<string>>)
    requires TemplateShaped(rows)
    ensures NonBlankLines(Split(Join(JoinRows(rows), '\n'), '\n')) == JoinRows(rows)
  {
    var lines := JoinRows(rows);
    forall j | 0 <= j < |rows| ensures '\n' !in lines[j] && NonBlank(lines[j]) {
      PlainLine(rows[j]);
    }
    SplitJoin(lines, '\n');
    FilterKeepsAll(NonBlank, lines);
  }

  lemma TemplateShapedHeader(rows: seq<seq<string>>)
    requires TemplateShaped(rows)
    ensures HeaderNames(JoinRows(rows)[0]) == TemplateHeader
  {
    assert JoinRows(rows)[0] == Join(TemplateHeader, ',');
    assert PlainRow(rows[0]);
    HeaderRoundTrip(TemplateHeader);
  }

  /** A header line of plain cells reads back as those cells. */
  lemma HeaderRoundTrip(h: seq<string>)
    requires PlainRow(h)
    ensures HeaderNames(Join(h, ',')) == h
  {
    forall k | 0 <= k < |h| ensures ',' !in h[k] && Trim(h[k]) == h[k] {
      PlainCellTrimmed(h[k]);
    }
    SplitJoin(h, ',');
    var names := TrimAll(h);
    assert names == h;
  }

  /** A plain cell holds no comma and is its own trim. */
  lemma PlainCellTrimmed(s: string)
    requires PlainCell(s)
    ensures ',' !in s && Trim(s) == s
  {
    TrimOfTrimmed(s);
  }

  /** A template-shaped file parses to one error-free product per data
      line. */
  lemma PlainFileParses(rows: seq<seq<string>>)
    requires TemplateShaped(rows)
    ensures var r := ParseCsvText(Join(JoinRows(rows), '\n'));
      r.Some? && |r.value| == |rows| - 1 && forall k :: 0 <= k < |r.value| ==> r.value[k].errors.None?
  {
    TemplateShapedSplit(rows);
    TemplateShapedHeader(rows);
    TemplateShapedLines(rows);
    assert ParseCsvText(Join(JoinRows(rows), '\n')) == Some(ParseRows(TemplateHeader, JoinRows(rows)[1..]));
  }

  /** The template's own rows are template-shaped. */
  lemma TemplateIsShaped()
    ensures TemplateShaped(TemplateRows)
  {
    assert TemplateRows[0] == TemplateHeader;
    PlainTemplateRow0(); PlainTemplateRow1(); PlainTemplateRow2(); PlainTemplateRow3();
    TemplateNumbers1(); TemplateNumbers2(); TemplateNumbers3();
  }

  /** The downloadable template parses to three products, none with errors. */
  lemma TemplateParses()
    ensures var r := ParseCsvText(TemplateCsv());
      r.Some? && |r.value| == 3 && forall k :: 0 <= k < 3 ==> r.value[k].errors.None?
  {
    TemplateIsShaped();
    PlainFileParses(TemplateRows);
  }
}
