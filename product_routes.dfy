/** The product handlers' logic: a draft product built from a request body
    with the falsy-input defaults, the owner's listing, and the bulk upload
    loop with its duplicate-SKU skip. */
module ProductRoutes {
  import opened Common
  import opened ProductValidation
  import opened Records

  /** A product request body. A text field left out and an empty one are the
      same `""`, and a number left out and zero the same `0`: every default
      below is a `||`, which treats them alike. */
  datatype ProductInput = ProductInput(
    title: string,
    description: string,
    category: string,
    brand: string,
    sku: string,
    barcode: string,
    hsn: string,
    price: real,
    mrp: real,
    taxRate: real,
    stock: int,
    weight: real,
    dimensions: Option<Dimensions>,
    originCountry: string,
    images: Option<seq<string>>)

  /** The product `POST /api/products` inserts: owned by the caller, a draft,
      and with the defaults of the handler. */
  function DraftProduct(id: Id, owner: Id, b: ProductInput, now: int): Product {
    Product(
      id, owner, b.title, TextOrNull(b.description), b.category, b.brand, b.sku,
      TextOrNull(b.barcode), TextOrNull(b.hsn), b.price, b.mrp,
      NumberOr(b.taxRate, 18.0),
      if b.stock == 0 then 0 else b.stock,
      if b.weight == 0.0 then None else Some(b.weight),
      b.dimensions,
      if b.originCountry == "" then "India" else b.originCountry,
      b.images,
      "draft",
      now)
  }

  /** The product the bulk handler inserts: the same, without dimensions or
      images. */
  function BulkDraftProduct(id: Id, owner: Id, b: ProductInput, now: int): Product {
    DraftProduct(id, owner, b, now).(dimensions := None, images := None)
  }

  /** A created product is the caller's draft and keeps what was sent, except
      that falsy optional inputs become their defaults: tax rate 18 (even for
      an explicit 0), origin "India", and null description, barcode, HSN and
      weight. Price and MRP are stored as sent, with no check between them. */
  lemma DraftDefaults(id: Id, owner: Id, b: ProductInput, now: int)
    ensures var p := DraftProduct(id, owner, b, now);
      && p.userId == owner && p.status == "draft" && p.id == id && p.createdAt == now
      && p.title == b.title && p.sku == b.sku && p.category == b.category && p.brand == b.brand
      && p.price == b.price && p.mrp == b.mrp && p.stock == b.stock
      && (b.taxRate == 0.0 ==> p.taxRate == 18.0)
      && (b.taxRate != 0.0 ==> p.taxRate == b.taxRate)
      && (b.originCountry == "" ==> p.originCountry == "India")
      && (b.originCountry != "" ==> p.originCountry == b.originCountry)
      && (p.description.None? <==> b.description == "")
      && (p.barcode.None? <==> b.barcode == "")
      && (p.hsn.None? <==> b.hsn == "")
      && (p.weight.None? <==> b.weight == 0.0)
      && p.dimensions == b.dimensions && p.images == b.images
  {
  }

  // ---------------------------------------------------------------------
  // listing

  function ProductsOf(rows: seq<Product>, owner: Id): seq<Product> {
    Filter((p: Product) => p.userId == owner, rows)
  }

  /** `GET /api/products`: the caller's products, newest first. */
  function OwnerListing(rows: seq<Product>, owner: Id): (r: seq<Product>)
    ensures SortedDesc(ProductTime, r)
    ensures multiset(r) == multiset(ProductsOf(rows, owner))
  {
    SortDesc(ProductTime, ProductsOf(rows, owner))
  }

  /** The listing holds exactly the caller's products. */
  lemma OwnerListingExact(rows: seq<Product>, owner: Id)
    ensures forall p :: p in OwnerListing(rows, owner) ==> p in rows && p.userId == owner
    ensures forall k :: 0 <= k < |rows| && rows[k].userId == owner ==> rows[k] in OwnerListing(rows, owner)
  {
    var l := OwnerListing(rows, owner);
    var f := ProductsOf(rows, owner);
    forall p | p in l ensures p in rows && p.userId == owner {
      assert p in multiset(l);
      assert p in multiset(f);
      var k :| 0 <= k < |f| && f[k] == p;
    }
    forall k | 0 <= k < |rows| && rows[k].userId == owner ensures rows[k] in l {
      assert rows[k] in f;
      assert rows[k] in multiset(f);
      assert rows[k] in multiset(l);
    }
  }

  // ---------------------------------------------------------------------
  // bulk upload

  /** Whether the caller already has a product with this SKU. */
  predicate HasSku(rows: seq<Product>, owner: Id, sku: string) {
    exists k :: 0 <= k < |rows| && rows[k].userId == owner && rows[k].sku == sku
  }

  /** No two of the caller's products share a SKU. */
  predicate SkusDistinct(rows: seq<Product>, owner: Id) {
    forall i, j :: 0 <= i < j < |rows| && rows[i].userId == owner && rows[j].userId == owner ==> rows[i].sku != rows[j].sku
  }

  datatype BulkError = BulkError(sku: string, error: string)

  /** The two reasons an input of a bulk upload is skipped. */
  const SkuExists: string := "SKU already exists"
  const CreateFailed: string := "Failed to create product"

  /** The product table, the next id, and the loop's two result lists. */
  datatype BulkState = BulkState(rows: seq<Product>, nextId: Id, created: seq<Product>, errors: seq<BulkError>)

  /** One turn of the loop: a SKU the caller already has (counting the rows
      created earlier in the same request) is skipped with an error; an insert
      the store refuses (`fault`) is recorded as an error; otherwise the draft
      is inserted and counted. */
  function BulkStep(st: BulkState, owner: Id, b: ProductInput, fault: bool, now: int): BulkState {
    if HasSku(st.rows, owner, b.sku) then st.(errors := st.errors + [BulkError(b.sku, SkuExists)])
    else if fault then st.(errors := st.errors + [BulkError(b.sku, CreateFailed)])
    else
      var p := BulkDraftProduct(st.nextId, owner, b, now);
      st.(rows := st.rows + [p], nextId := st.nextId + 1, created := st.created + [p])
  }

  /** The loop over `inputs`, in order; `faults` holds the positions whose
      insert the store refuses. */
  function BulkRun(st: BulkState, owner: Id, inputs: seq<ProductInput>, faults: set<nat>, now: int): BulkState
    decreases |inputs|
  {
    if inputs == [] then st
    else
      var n := |inputs| - 1;
      BulkStep(BulkRun(st, owner, inputs[..n], faults, now), owner, inputs[n], n in faults, now)
  }

  /** What the loop keeps: every input is either created or reported, the
      table only grows by the created rows, each of them the caller's draft
      with the bulk defaults, and the caller's SKUs stay pairwise distinct. */
  predicate BulkInvariant(st0: BulkState, st: BulkState, owner: Id, n: nat) {
    && |st.created| + |st.errors| == n
    && st.rows == st0.rows + st.created
    && (forall k :: 0 <= k < |st.created| ==> st.created[k].userId == owner && st.created[k].status == "draft")
    && (SkusDistinct(st0.rows, owner) ==> SkusDistinct(st.rows, owner))
  }

  lemma BulkStepKeeps(st0: BulkState, st: BulkState, owner: Id, n: nat, b: ProductInput, fault: bool, now: int)
    requires BulkInvariant(st0, st, owner, n)
    ensures BulkInvariant(st0, BulkStep(st, owner, b, fault, now), owner, n + 1)
  {
    var r := BulkStep(st, owner, b, fault, now);
    if !HasSku(st.rows, owner, b.sku) && !fault {
      var p := BulkDraftProduct(st.nextId, owner, b, now);
      assert r.rows == st.rows + [p];
      assert r.rows == st0.rows + r.created;
      if SkusDistinct(st0.rows, owner) {
        forall i, j | 0 <= i < j < |r.rows| && r.rows[i].userId == owner && r.rows[j].userId == owner
          ensures r.rows[i].sku != r.rows[j].sku
        {
          if j == |st.rows| {
            assert r.rows[i] == st.rows[i];
          } else {
            assert r.rows[i] == st.rows[i] && r.rows[j] == st.rows[j];
          }
        }
      }
    }
  }

  /** Starting from empty result lists, the whole loop keeps the invariant:
      `count + errors.length == products.length`. */
  lemma {:induction false} BulkRunInvariant(st0: BulkState, owner: Id, inputs: seq<ProductInput>, faults: set<nat>, now: int)
    requires st0.created == [] && st0.errors == []
    ensures BulkInvariant(st0, BulkRun(st0, owner, inputs, faults, now), owner, |inputs|)
    decreases |inputs|
  {
    if inputs != [] {
      var n := |inputs| - 1;
      BulkRunInvariant(st0, owner, inputs[..n], faults, now);
      BulkStepKeeps(st0, BulkRun(st0, owner, inputs[..n], faults, now), owner, n, inputs[n], n in faults, now);
    }
  }

  /** An input whose SKU the caller already had before the request is never
      created: it is reported as a duplicate. */
  lemma {:induction false} BulkSkipsExistingSku(st0: BulkState, owner: Id, inputs: seq<ProductInput>, faults: set<nat>, now: int, sku: string)
    requires HasSku(st0.rows, owner, sku) && st0.created == []
    ensures forall k :: 0 <= k < |BulkRun(st0, owner, inputs, faults, now).created| ==>
      BulkRun(st0, owner, inputs, faults, now).created[k].sku != sku || BulkRun(st0, owner, inputs, faults, now).created[k].userId != owner
    decreases |inputs|
  {
    if inputs != [] {
      var n := |inputs| - 1;
      var st := BulkRun(st0, owner, inputs[..n], faults, now);
      BulkSkipsExistingSku(st0, owner, inputs[..n], faults, now, sku);
      BulkRowsGrow(st0, owner, inputs[..n], faults, now);
      var k0 :| 0 <= k0 < |st0.rows| && st0.rows[k0].userId == owner && st0.rows[k0].sku == sku;
      assert st.rows[k0] == st0.rows[k0];
      assert HasSku(st.rows, owner, sku);
      var r := BulkRun(st0, owner, inputs, faults, now);
      assert r == BulkStep(st, owner, inputs[n], n in faults, now);
      forall k | 0 <= k < |r.created| ensures r.created[k].sku != sku || r.created[k].userId != owner {
        if k < |st.created| {
          assert r.created[k] == st.created[k];
        } else {
          assert r.created[k].sku == inputs[n].sku && !HasSku(st.rows, owner, inputs[n].sku);
        }
      }
    }
  }

  /** The loop never changes or removes a row; it only appends. */
  lemma {:induction false} BulkRowsGrow(st0: BulkState, owner: Id, inputs: seq<ProductInput>, faults: set<nat>, now: int)
    ensures var st := BulkRun(st0, owner, inputs, faults, now);
      |st.rows| >= |st0.rows| && st.rows[..|st0.rows|] == st0.rows
    decreases |inputs|
  {
    if inputs != [] {
      BulkRowsGrow(st0, owner, inputs[..|inputs| - 1], faults, now);
    }
  }

  /** Counting the caller's products after the loop gives the number just
      created exactly when the caller had none before: this is the test the
      handler uses to recognise a first upload. */
  lemma FirstUploadDetected(before: seq<Product>, created: seq<Product>, owner: Id)
    requires forall k :: 0 <= k < |created| ==> created[k].userId == owner
    ensures |ProductsOf(before + created, owner)| == |created| <==> |ProductsOf(before, owner)| == 0
  {
    ProductsOfAppend(before, created, owner);
    assert ProductsOf(created, owner) == created by {
      FilterAll(created, owner);
    }
  }

  lemma {:induction false} ProductsOfAppend(a: seq<Product>, b: seq<Product>, owner: Id)
    ensures ProductsOf(a + b, owner) == ProductsOf(a, owner) + ProductsOf(b, owner)
  {
    if a != [] {
      ProductsOfAppend(a[1..], b, owner);
      assert (a + b)[1..] == a[1..] + b;
    } else {
      assert a + b == b;
    }
  }

  lemma {:induction false} FilterAll(s: seq<Product>, owner: Id)
    requires forall k :: 0 <= k < |s| ==> s[k].userId == owner
    ensures ProductsOf(s, owner) == s
  {
    if s != [] {
      FilterAll(s[1..], owner);
    }
  }
}
