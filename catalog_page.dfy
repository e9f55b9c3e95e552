/** The catalog page: its own product form schema, the status filter, the
    stat cards, the publish button and where a save goes. */
module CatalogPage {
  import opened Common
  import opened ProductValidation

  // ---------------------------------------------------------------------
  // the page's form schema

  /** The fields of the page's product form. */
  datatype CatalogForm = CatalogForm(
    title: string,
    description: Option<string>,
    category: string,
    brand: string,
    sku: string,
    barcode: Option<string>,
    hsn: Option<string>,
    price: real,
    mrp: real,
    taxRate: Option<real>,
    stock: Option<real>,
    weight: Option<real>,
    originCountry: Option<string>)

  /** The form after its defaults are filled in. */
  datatype CatalogData = CatalogData(form: CatalogForm, taxRate: real, stock: int, originCountry: string)

  /** The page schema's checks. Unlike the shared product schema it has no
      image list and no rule tying the price to the MRP. */
  predicate CatalogFieldsValid(f: CatalogForm) {
    && |f.title| >= 3
    && |f.category| >= 1
    && |f.brand| >= 1
    && |f.sku| >= 1
    && f.price >= 0.0
    && f.mrp >= 0.0
    && (f.taxRate.None? || 0.0 <= f.taxRate.value <= 100.0)
    && (f.stock.None? || (IsInteger(f.stock.value) && f.stock.value >= 0.0))
    && Positive(f.weight)
  }

  function ParseCatalogForm(f: CatalogForm): (r: Option<CatalogData>)
    ensures r.Some? <==> CatalogFieldsValid(f)
    ensures r.Some? ==> r.value.form == f
  {
    if CatalogFieldsValid(f) then
      Some(CatalogData(f, f.taxRate.GetOr(18.0), f.stock.GetOr(0.0).Floor, f.originCountry.GetOr("India")))
    else None
  }

  /** A parsed form has a title of at least three characters, a tax rate in
      [0,100] that is 18 when left out, and a whole non-negative stock that
      is 0 when left out. */
  lemma CatalogFormBounds(f: CatalogForm)
    requires ParseCatalogForm(f).Some?
    ensures var d := ParseCatalogForm(f).value;
      && |d.form.title| >= 3
      && 0.0 <= d.taxRate <= 100.0 && (f.taxRate.None? ==> d.taxRate == 18.0)
      && d.stock >= 0 && (f.stock.None? ==> d.stock == 0)
      && (f.stock.Some? ==> d.stock as real == f.stock.value)
      && (f.originCountry.None? ==> d.originCountry == "India")
  {
  }

  /** The same fields as the shared schema's product form, with the given
      images and no dimensions, variants, care or warranty. */
  function AsProductForm(f: CatalogForm, images: seq<string>): ProductForm {
    ProductForm(f.title, f.description, f.category, f.brand, f.sku, f.barcode, f.hsn,
      f.price, f.mrp, f.taxRate, f.stock, f.weight, None, f.originCountry, images, None, None, None)
  }

  /** A price above the MRP passes the page's form, while the shared schema
      rejects the same fields whatever the images. */
  lemma PriceAboveMrpPassesPage(f: CatalogForm, images: seq<string>)
    requires CatalogFieldsValid(f) && f.price > f.mrp
    ensures ParseCatalogForm(f).Some?
    ensures ParseProduct(AsProductForm(f, images)).None?
  {
  }

  // ---------------------------------------------------------------------
  // listing and stat cards

  /** A product as the page lists it. */
  datatype Listed = Listed(id: Id, title: string, sku: string, price: real, mrp: real, stock: int, status: string)

  /** `filteredProducts` for filter value `filter`. */
  function Filtered(products: seq<Listed>, filter: string): (r: seq<Listed>)
    ensures forall k :: 0 <= k < |r| ==> r[k] in products && (filter == "all" || r[k].status == filter)
    ensures forall k :: 0 <= k < |products| && (filter == "all" || products[k].status == filter) ==> products[k] in r
  {
    Filter((p: Listed) => filter == "all" || p.status == filter, products)
  }

  lemma FilterAllListsEverything(products: seq<Listed>)
    ensures Filtered(products, "all") == products
  {
    FilterKeepsAll((p: Listed) => "all" == "all" || p.status == "all", products);
  }

  predicate IsReady(p: Listed) { p.status == "ready" }
  predicate IsDraft(p: Listed) { p.status == "draft" }

  function ReadyCount(products: seq<Listed>): (n: nat)
    ensures n <= |products|
  {
    |Filter(IsReady, products)|
  }

  function DraftCount(products: seq<Listed>): (n: nat)
    ensures n <= |products|
  {
    |Filter(IsDraft, products)|
  }

  /** 'Total Inventory': the sum of the stock of every product. */
  function TotalInventory(products: seq<Listed>): int {
    if products == [] then 0 else products[0].stock + TotalInventory(products[1..])
  }

  /** Ready and draft products are disjoint, so the two cards never exceed
      'Total Products', and they add up to it when every product is one or
      the other. */
  lemma {:induction false} ReadyDraftWithinTotal(products: seq<Listed>)
    ensures ReadyCount(products) + DraftCount(products) <= |products|
    ensures (forall k :: 0 <= k < |products| ==> IsReady(products[k]) || IsDraft(products[k])) ==>
      ReadyCount(products) + DraftCount(products) == |products|
  {
    if products != [] {
      var p, t := products[0], products[1..];
      ReadyDraftWithinTotal(t);
      assert forall k :: 0 <= k < |t| ==> t[k] == products[k + 1];
      assert Filter(IsReady, products) == (if IsReady(p) then [p] else []) + Filter(IsReady, t);
      assert Filter(IsDraft, products) == (if IsDraft(p) then [p] else []) + Filter(IsDraft, t);
    }
  }

  /** The inventory of a list is the inventory of its first part plus that of
      the rest; with stock never negative it never drops when products are
      added. */
  lemma {:induction false} InventoryAppend(a: seq<Listed>, b: seq<Listed>)
    ensures TotalInventory(a + b) == TotalInventory(a) + TotalInventory(b)
  {
    if a != [] {
      InventoryAppend(a[1..], b);
      assert (a + b)[1..] == a[1..] + b;
    } else {
      assert a + b == b;
    }
  }

  lemma {:induction false} InventoryNonNegative(products: seq<Listed>)
    requires forall k :: 0 <= k < |products| ==> products[k].stock >= 0
    ensures TotalInventory(products) >= 0
  {
    if products != [] {
      InventoryNonNegative(products[1..]);
    }
  }

  /** Publish is offered only on drafts. */
  predicate PublishOffered(p: Listed) { p.status == "draft" }

  /** The Publish buttons on the full list are as many as the Drafts card
      counts, and no ready product carries one. */
  lemma {:induction false} PublishButtonsMatchDrafts(products: seq<Listed>)
    ensures |Filter(PublishOffered, products)| == DraftCount(products)
    ensures forall k :: 0 <= k < |products| && IsReady(products[k]) ==> !PublishOffered(products[k])
  {
    if products != [] {
      var p, t := products[0], products[1..];
      PublishButtonsMatchDrafts(t);
      assert products == [p] + t;
      assert Filter(PublishOffered, products) == (if PublishOffered(p) then [p] else []) + Filter(PublishOffered, t);
      assert Filter(IsDraft, products) == (if IsDraft(p) then [p] else []) + Filter(IsDraft, t);
    }
  }

  // ---------------------------------------------------------------------
  // saving

  /** Where a save goes: the product's own URL by PATCH while editing, the
      collection by POST otherwise. */
  datatype SaveRequest = PatchProduct(id: Id) | PostProduct

  function SaveRequestFor(editing: Option<Listed>): (r: SaveRequest)
    ensures r.PatchProduct? <==> editing.Some?
    ensures r.PatchProduct? ==> r.id == editing.value.id
  {
    if editing.Some? then PatchProduct(editing.value.id) else PostProduct
  }

  /** The dialog state around the product form. */
  class CatalogView {
    var products: seq<Listed>
    var filterStatus: string
    var editing: Option<Listed>
    var dialogOpen: bool

    constructor ()
      ensures products == [] && filterStatus == "all" && editing.None? && !dialogOpen
    {
      products := [];
      filterStatus := "all";
      editing := None;
      dialogOpen := false;
    }

    /** `fetchProducts`, given the answer (`None` when the request was not
        ok): an ok answer replaces the list, a failed one keeps it. */
    method FetchProducts(answer: Option<seq<Listed>>)
      modifies this
      ensures products == if answer.Some? then answer.value else old(products)
      ensures filterStatus == old(filterStatus) && editing == old(editing) && dialogOpen == old(dialogOpen)
    {
      if answer.Some? {
        products := answer.value;
      }
    }

    /** `handleEdit`: the product becomes the one being edited and the
        dialog opens. */
    method HandleEdit(p: Listed)
      modifies this
      ensures editing == Some(p) && dialogOpen
      ensures products == old(products) && filterStatus == old(filterStatus)
    {
      editing := Some(p);
      dialogOpen := true;
    }

    /** The Add Product button: the form is reset and nothing is being
        edited, and the dialog it triggers opens, so a save creates a new
        product. */
    method OpenAdd()
      modifies this
      ensures editing.None? && dialogOpen
      ensures SaveRequestFor(editing) == PostProduct
      ensures products == old(products) && filterStatus == old(filterStatus)
    {
      editing := None;
      dialogOpen := true;
    }

    /** The dialog's Cancel button: the dialog closes, the form is reset and
        editing ends, whatever was being edited. */
    method Cancel()
      modifies this
      ensures editing.None? && !dialogOpen
      ensures products == old(products) && filterStatus == old(filterStatus)
    {
      dialogOpen := false;
      editing := None;
    }

    /** `onSubmit`, given whether the server answered ok: the request goes by
        PATCH or POST as `SaveRequestFor` says; a success closes the dialog
        and ends editing, a failure changes nothing. */
    method OnSubmit(ok: bool) returns (request: SaveRequest)
      modifies this
      ensures request == SaveRequestFor(old(editing))
      ensures ok ==> editing.None? && !dialogOpen
      ensures !ok ==> editing == old(editing) && dialogOpen == old(dialogOpen)
      ensures products == old(products) && filterStatus == old(filterStatus)
    {
      request := SaveRequestFor(editing);
      if ok {
        dialogOpen := false;
        editing := None;
      }
    }
  }
}
