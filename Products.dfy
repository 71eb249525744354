/**
 * The products page of src/pages/Products.tsx: the product and category
 * lists, the add/edit dialog with its draft product, and the delete
 * confirmation. It talks to the backend through the shared client of
 * src/services/api.ts (base URL `/api`), whose rejections are raw axios
 * errors.
 */
module Products {
  import opened Util
  import opened Http
  import opened Notice

  /** The optional fields of the TypeScript interface are `Option`s. */
  datatype Product = Product(
    id: string,
    name: string,
    description: Option<string>,
    price: real,
    sku: string,
    stock: real,
    categoryId: string,
    weight: Option<real>,
    imageUrl: Option<string>)

  datatype Category = Category(id: string, name: string)

  /** The draft a new product starts from: every text empty, every number zero. */
  const EmptyProduct := Product("", "", Some(""), 0.0, "", 0.0, "", Some(0.0), Some(""))

  // ---------------------------------------------------------------------
  // handleInputChange: one field of the draft at a time.

  datatype Field = Id | Name | Description | Price | Sku | Stock | CategoryId | Weight | ImageUrl

  /** What a field holds; an optional field that is not there is `Missing`. */
  datatype Value = Text(text: string) | Number(number: real) | Missing

  function Get(p: Product, f: Field): Value
  {
    match f
    case Id => Text(p.id)
    case Name => Text(p.name)
    case Description => if p.description.Some? then Text(p.description.value) else Missing
    case Price => Number(p.price)
    case Sku => Text(p.sku)
    case Stock => Number(p.stock)
    case CategoryId => Text(p.categoryId)
    case Weight => if p.weight.Some? then Number(p.weight.value) else Missing
    case ImageUrl => if p.imageUrl.Some? then Text(p.imageUrl.value) else Missing
  }

  /** A product is its fields: two products that agree on every field are equal. */
  lemma ProductExtensionality(p: Product, q: Product)
    requires forall f :: Get(p, f) == Get(q, f)
    ensures p == q
  {
    assert Get(p, Id) == Get(q, Id) && Get(p, Name) == Get(q, Name);
    assert Get(p, Description) == Get(q, Description) && Get(p, Price) == Get(q, Price);
    assert Get(p, Sku) == Get(q, Sku) && Get(p, Stock) == Get(q, Stock);
    assert Get(p, CategoryId) == Get(q, CategoryId) && Get(p, Weight) == Get(q, Weight);
    assert Get(p, ImageUrl) == Get(q, ImageUrl);
  }

  /**
   * One `handleInputChange(field, value)` call. The text inputs pass their
   * text, the number inputs `Number(text)`.
   */
  datatype Edit =
    | SetId(id: string)
    | SetName(name: string)
    | SetDescription(description: string)
    | SetPrice(price: real)
    | SetSku(sku: string)
    | SetStock(stock: real)
    | SetCategoryId(categoryId: string)
    | SetWeight(weight: real)
    | SetImageUrl(imageUrl: string)

  function FieldOf(e: Edit): Field
  {
    match e
    case SetId(_) => Id
    case SetName(_) => Name
    case SetDescription(_) => Description
    case SetPrice(_) => Price
    case SetSku(_) => Sku
    case SetStock(_) => Stock
    case SetCategoryId(_) => CategoryId
    case SetWeight(_) => Weight
    case SetImageUrl(_) => ImageUrl
  }

  function ValueOf(e: Edit): Value
  {
    match e
    case SetId(v) => Text(v)
    case SetName(v) => Text(v)
    case SetDescription(v) => Text(v)
    case SetPrice(v) => Number(v)
    case SetSku(v) => Text(v)
    case SetStock(v) => Number(v)
    case SetCategoryId(v) => Text(v)
    case SetWeight(v) => Number(v)
    case SetImageUrl(v) => Text(v)
  }

  /** `{ ...prev, [field]: value }`: the edited field takes the value, every other field keeps its own. */
  function Apply(p: Product, e: Edit): (r: Product)
    ensures Get(r, FieldOf(e)) == ValueOf(e)
    ensures forall f :: f != FieldOf(e) ==> Get(r, f) == Get(p, f)
  {
    match e
    case SetId(v) => p.(id := v)
    case SetName(v) => p.(name := v)
    case SetDescription(v) => p.(description := Some(v))
    case SetPrice(v) => p.(price := v)
    case SetSku(v) => p.(sku := v)
    case SetStock(v) => p.(stock := v)
    case SetCategoryId(v) => p.(categoryId := v)
    case SetWeight(v) => p.(weight := Some(v))
    case SetImageUrl(v) => p.(imageUrl := Some(v))
  }

  /** Two changes of the same field: the later one wins. */
  lemma {:induction false} ApplyLastWins(p: Product, e1: Edit, e2: Edit)
    requires FieldOf(e1) == FieldOf(e2)
    ensures Apply(Apply(p, e1), e2) == Apply(p, e2)
  {
    var a, b := Apply(Apply(p, e1), e2), Apply(p, e2);
    forall f ensures Get(a, f) == Get(b, f) {
    }
    ProductExtensionality(a, b);
  }

  /** Changes of two different fields can be made in either order. */
  lemma {:induction false} ApplyCommutes(p: Product, e1: Edit, e2: Edit)
    requires FieldOf(e1) != FieldOf(e2)
    ensures Apply(Apply(p, e1), e2) == Apply(Apply(p, e2), e1)
  {
    var a, b := Apply(Apply(p, e1), e2), Apply(Apply(p, e2), e1);
    forall f ensures Get(a, f) == Get(b, f) {
    }
    ProductExtensionality(a, b);
  }

  // ---------------------------------------------------------------------
  // handleSaveProduct: create or update, decided by the draft's id.

  /** A draft with an id is an existing product. */
  predicate IsUpdate(draft: Product)
  {
    draft.id != ""
  }

  function SaveRequest(draft: Product): (r: Request)
    ensures r.verb == PUT <==> IsUpdate(draft)
    ensures IsUpdate(draft) ==> r.path == "/api/products/" + draft.id
    ensures !IsUpdate(draft) ==> r == Request(POST, "/api/products")
  {
    if draft.id != "" then Request(PUT, "/api/products/" + draft.id) else Request(POST, "/api/products")
  }

  /** The verb of the failure text: "update" exactly when the request is a PUT. */
  function SaveAction(draft: Product): (r: string)
    ensures r == "update" <==> SaveRequest(draft).verb == PUT
    ensures r == "add" <==> SaveRequest(draft).verb == POST
  {
    if draft.id != "" then "update" else "add"
  }

  /** The participle of the success text, chosen by the same test. */
  function SaveDone(draft: Product): (r: string)
    ensures r == "updated" <==> SaveAction(draft) == "update"
    ensures r == "added" <==> SaveAction(draft) == "add"
  {
    if draft.id != "" then "updated" else "added"
  }

  /** Saving the fresh draft of "Add Product" always creates. */
  lemma EmptyDraftCreates(edits: seq<Edit>)
    requires forall i :: 0 <= i < |edits| ==> FieldOf(edits[i]) != Id
    ensures SaveRequest(ApplyAll(EmptyProduct, edits)) == Request(POST, "/api/products")
  {
    ApplyAllKeeps(EmptyProduct, edits, Id);
  }

  /** A sequence of input changes, oldest first. */
  function ApplyAll(p: Product, edits: seq<Edit>): Product
    decreases |edits|
  {
    if edits == [] then p else ApplyAll(Apply(p, edits[0]), edits[1..])
  }

  /** A field no change touches keeps its value through any sequence of changes. */
  lemma {:induction false} ApplyAllKeeps(p: Product, edits: seq<Edit>, f: Field)
    requires forall i :: 0 <= i < |edits| ==> FieldOf(edits[i]) != f
    ensures Get(ApplyAll(p, edits), f) == Get(p, f)
    decreases |edits|
  {
    if edits != [] {
      ApplyAllKeeps(Apply(p, edits[0]), edits[1..], f);
    }
  }

  const MissingCategory := "Please select a category"

  // ---------------------------------------------------------------------
  // The page.

  class ProductsView {
    var products: seq<Product>
    var categories: seq<Category>
    var loading: bool
    var openModal: bool
    var editingProduct: Product
    var selectedProduct: Option<Product>
    var deleteConfirmOpen: bool
    var notification: Option<Notification>
    /** Every request the page has issued, oldest first. */
    var requests: seq<Request>

    constructor ()
      ensures products == [] && categories == [] && loading && !openModal
      ensures editingProduct == EmptyProduct && selectedProduct == None && !deleteConfirmOpen
      ensures notification == None && requests == []
    {
      products, categories, loading, openModal := [], [], true, false;
      editingProduct, selectedProduct, deleteConfirmOpen := EmptyProduct, None, false;
      notification, requests := None, [];
    }

    /** loadProducts: it catches its own failure, so it never rejects. */
    method LoadProducts(reply: Reply<seq<Product>>)
      modifies this`products, this`notification, this`loading, this`requests
      ensures requests == old(requests) + [Request(GET, "/api/products")]
      ensures reply.Ok? ==> products == reply.data && notification == old(notification)
      ensures reply.Fail? ==> (products == old(products) &&
        notification == Some(Notification(Error, "Failed to load products: " + ServerErrorOrMessage(reply.error))))
      ensures !loading
    {
      requests := requests + [Request(GET, "/api/products")];
      match reply {
        case Ok(data) =>
          products := data;
        case Fail(e) =>
          notification := Some(Notification(Error, "Failed to load products: " + ServerErrorOrMessage(e)));
      }
      loading := false;
    }

    /** loadCategories */
    method LoadCategories(reply: Reply<seq<Category>>)
      modifies this`categories, this`notification, this`requests
      ensures requests == old(requests) + [Request(GET, "/api/categories")]
      ensures reply.Ok? ==> categories == reply.data && notification == old(notification)
      ensures reply.Fail? ==> (categories == old(categories) &&
        notification == Some(Notification(Error, "Failed to load categories: " + ServerErrorOrMessage(reply.error))))
    {
      requests := requests + [Request(GET, "/api/categories")];
      match reply {
        case Ok(data) =>
          categories := data;
        case Fail(e) =>
          notification := Some(Notification(Error, "Failed to load categories: " + ServerErrorOrMessage(e)));
      }
    }

    /** handleAddProduct */
    method AddProduct()
      modifies this`editingProduct, this`openModal
      ensures editingProduct == EmptyProduct && openModal
    {
      editingProduct := EmptyProduct;
      openModal := true;
    }

    /** handleEditProduct */
    method EditProduct(product: Product)
      modifies this`editingProduct, this`openModal
      ensures editingProduct == product && openModal
    {
      editingProduct := product;
      openModal := true;
    }

    /** handleDeleteProduct */
    method DeleteProduct(product: Product)
      modifies this`selectedProduct, this`deleteConfirmOpen
      ensures selectedProduct == Some(product) && deleteConfirmOpen
    {
      selectedProduct := Some(product);
      deleteConfirmOpen := true;
    }

    /**
     * handleDeleteConfirm, with the answers to the DELETE call and to the
     * reload that follows a successful one. Without a selection it does
     * nothing; otherwise the dialog closes and the selection is cleared
     * whatever the outcome.
     */
    method DeleteConfirm(reply: Reply<()>, reload: Reply<seq<Product>>)
      modifies this`products, this`notification, this`loading, this`requests
      modifies this`deleteConfirmOpen, this`selectedProduct
      ensures old(selectedProduct).None? ==>
        (products == old(products) && notification == old(notification) && requests == old(requests) &&
         deleteConfirmOpen == old(deleteConfirmOpen) && selectedProduct == None && loading == old(loading))
      ensures old(selectedProduct).Some? ==> (!deleteConfirmOpen && selectedProduct == None)
      ensures old(selectedProduct).Some? && reply.Ok? ==>
        (requests == old(requests) + [Request(DELETE, "/api/products/" + old(selectedProduct).value.id),
                                      Request(GET, "/api/products")] &&
         products == (if reload.Ok? then reload.data else old(products)) &&
         notification == Some(Notification(Success, "Product deleted successfully")) && !loading)
      ensures old(selectedProduct).Some? && reply.Fail? ==>
        (requests == old(requests) + [Request(DELETE, "/api/products/" + old(selectedProduct).value.id)] &&
         products == old(products) && loading == old(loading) &&
         notification == Some(Notification(Error, "Failed to delete product: " + ServerErrorOrMessage(reply.error))))
    {
      if selectedProduct.None? {
        return;
      }
      requests := requests + [Request(DELETE, "/api/products/" + selectedProduct.value.id)];
      match reply {
        case Ok(_) =>
          LoadProducts(reload);
          notification := Some(Notification(Success, "Product deleted successfully"));
        case Fail(e) =>
          notification := Some(Notification(Error, "Failed to delete product: " + ServerErrorOrMessage(e)));
      }
      deleteConfirmOpen := false;
      selectedProduct := None;
    }

    /**
     * handleSaveProduct, with the answers to the save call and to the reload
     * that follows a successful one. A draft without a category is refused
     * before any request; a failed save keeps the dialog open.
     */
    method SaveProduct(reply: Reply<()>, reload: Reply<seq<Product>>)
      modifies this`products, this`notification, this`loading, this`requests, this`openModal
      ensures editingProduct.categoryId == "" ==>
        (requests == old(requests) && products == old(products) && openModal == old(openModal) &&
         loading == old(loading) &&
         notification == Some(Notification(Error, "Failed to " + SaveAction(editingProduct) + " product: " + MissingCategory)))
      ensures editingProduct.categoryId != "" && reply.Ok? ==>
        (requests == old(requests) + [SaveRequest(editingProduct), Request(GET, "/api/products")] &&
         products == (if reload.Ok? then reload.data else old(products)) && !loading && !openModal &&
         notification == Some(Notification(Success, "Product " + SaveDone(editingProduct) + " successfully")))
      ensures editingProduct.categoryId != "" && reply.Fail? ==>
        (requests == old(requests) + [SaveRequest(editingProduct)] &&
         products == old(products) && openModal == old(openModal) && loading == old(loading) &&
         notification == Some(Notification(Error, "Failed to " + SaveAction(editingProduct) + " product: " + ServerErrorOrMessage(reply.error))))
    {
      if editingProduct.categoryId == "" {
        notification := Some(Notification(Error, "Failed to " + SaveAction(editingProduct) + " product: " + MissingCategory));
        return;
      }
      requests := requests + [SaveRequest(editingProduct)];
      match reply {
        case Ok(_) =>
          LoadProducts(reload);
          notification := Some(Notification(Success, "Product " + SaveDone(editingProduct) + " successfully"));
          openModal := false;
        case Fail(e) =>
          notification := Some(Notification(Error, "Failed to " + SaveAction(editingProduct) + " product: " + ServerErrorOrMessage(e)));
      }
    }

    /** handleInputChange */
    method InputChange(e: Edit)
      modifies this`editingProduct
      ensures editingProduct == Apply(old(editingProduct), e)
    {
      editingProduct := Apply(editingProduct, e);
    }

    /** The form dialog's Cancel and `onClose`: the draft stays as it is. */
    method CloseModal()
      modifies this`openModal
      ensures !openModal
    {
      openModal := false;
    }

    /** The delete dialog's Cancel and `onClose`: the selection stays. */
    method CancelDelete()
      modifies this`deleteConfirmOpen
      ensures !deleteConfirmOpen
    {
      deleteConfirmOpen := false;
    }

    /** The snackbar's `onClose`. */
    method DismissNotification()
      modifies this`notification
      ensures notification == None
    {
      notification := None;
    }
  }
}
