/**
 * The admin product-management screen: a product list shown ten per page with
 * Previous/Next and numbered page buttons, a "Showing a to b of n" line, and a
 * modal form for adding or editing a product, validated by the product schema.
 */
module AdminProducts {

  import opened Wrappers
  import opened Forms
  import JsMath

  /** Shown as a badge; the list's values are fixed data, not computed from the stock. */
  datatype StockStatus = InStock | LowStock | OutOfStock

  datatype Product = Product(id: int, name: string, price: real, category: string, stock: real, status: StockStatus)

  /** The values edited in the modal form. */
  datatype ProductForm = ProductForm(name: string, price: real, category: string, stock: real)

  /** The form's reset values for a new product. */
  const EmptyForm: ProductForm := ProductForm("", 0.0, "", 0.0)

  /** The form values taken from an existing product by `reset(product)`. */
  function FormOf(p: Product): ProductForm
  {
    ProductForm(p.name, p.price, p.category, p.stock)
  }

  // ---------------------------------------------------------------- schema

  predicate ProductValid(f: ProductForm)
    ensures ProductValid(f) ==> f.name != [] && f.category != []
  {
    |f.name| >= 2 && f.price >= 0.0 && |f.category| >= 2 && f.stock >= 0.0
  }

  /** The product schema's field errors, in field order. */
  function ProductErrors(f: ProductForm): (errs: seq<FieldError>)
    ensures errs == [] <==> ProductValid(f)
    ensures f.price < 0.0 <==> FieldError("price", "Price must be greater than 0") in errs
    ensures |errs| <= 4
  {
    Rule(|f.name| >= 2, "name", "Name must be at least 2 characters")
    + Rule(f.price >= 0.0, "price", "Price must be greater than 0")
    + Rule(|f.category| >= 2, "category", "Category must be at least 2 characters")
    + Rule(f.stock >= 0.0, "stock", "Stock must be greater than or equal to 0")
  }

  /** A price of 0 passes, although the message speaks of "greater than 0". */
  lemma ZeroPriceAccepted(f: ProductForm)
    requires f.price == 0.0 && |f.name| >= 2 && |f.category| >= 2 && f.stock >= 0.0
    ensures ProductErrors(f) == []
  {
  }

  /** The empty form a new product starts from is refused: its name and category are too short. */
  lemma EmptyFormRefused()
    ensures Paths(ProductErrors(EmptyForm)) == {"name", "category"}
  {
    assert ProductErrors(EmptyForm) == [FieldError("name", "Name must be at least 2 characters"),
                                        FieldError("category", "Category must be at least 2 characters")];
  }

  // ------------------------------------------------------------ pagination

  const ItemsPerPage: nat := 10

  /** `Math.ceil(n / itemsPerPage)` */
  function TotalPages(n: nat): (r: nat)
    ensures r * ItemsPerPage >= n
    ensures r == 0 || (r - 1) * ItemsPerPage < n
    ensures r == 0 <==> n == 0
  {
    JsMath.CeilDiv(n, ItemsPerPage)
  }

  /** `startIndex`: the position of page `page`'s first product. */
  function StartIndex(page: int): (r: int)
    ensures page >= 1 ==> r >= 0
    ensures r % ItemsPerPage == 0
  {
    (page - 1) * ItemsPerPage
  }

  /** `endIndex`: one past page `page`'s last slot, the start of the next page. */
  function EndIndex(page: int): (r: int)
    ensures r - StartIndex(page) == ItemsPerPage
    ensures r == StartIndex(page + 1)
  {
    StartIndex(page) + ItemsPerPage
  }

  /** Where `Array.prototype.slice` puts a bound: a negative one counts from the end; both are clamped to 0..n. */
  function SliceBound(n: nat, k: int): (r: nat)
    ensures r <= n
    ensures k >= 0 ==> r == JsMath.Min(k, n)
  {
    if k < 0 then JsMath.Max(n + k, 0) else JsMath.Min(k, n)
  }

  /** `s.slice(start, end)` */
  function Slice<T>(s: seq<T>, start: int, end: int): (r: seq<T>)
    ensures |r| <= |s|
    ensures 0 <= start <= end && start < |s| ==> r == s[start..JsMath.Min(end, |s|)]
    ensures start >= |s| || 0 <= end <= start ==> r == []
  {
    var a, b := SliceBound(|s|, start), SliceBound(|s|, end);
    if a < b then s[a..b] else []
  }

  /** `currentProducts`: the products on page `page`. */
  function CurrentProducts(products: seq<Product>, page: int): (r: seq<Product>)
    ensures 1 <= page <= TotalPages(|products|) ==>
      && 1 <= |r| <= ItemsPerPage
      && r == products[StartIndex(page)..JsMath.Min(EndIndex(page), |products|)]
    ensures page == 0 || page > TotalPages(|products|) ==> r == []
  {
    Slice(products, StartIndex(page), EndIndex(page))
  }

  /** Pages 1 to k, one after the other (the numbered page buttons). */
  function PagesUpTo(products: seq<Product>, k: nat): seq<Product>
  {
    if k == 0 then [] else PagesUpTo(products, k - 1) + CurrentProducts(products, k)
  }

  /** The first k pages are the list's first `min(10k, n)` products. */
  lemma {:induction false} PagesUpToPrefix(products: seq<Product>, k: nat)
    requires k <= TotalPages(|products|)
    ensures PagesUpTo(products, k) == products[..JsMath.Min(k * ItemsPerPage, |products|)]
  {
    if k > 0 {
      PagesUpToPrefix(products, k - 1);
      var n := |products|;
      assert (k - 1) * ItemsPerPage < n;
      assert JsMath.Min((k - 1) * ItemsPerPage, n) == StartIndex(k);
      assert products[..StartIndex(k)] + products[StartIndex(k)..JsMath.Min(EndIndex(k), n)]
          == products[..JsMath.Min(EndIndex(k), n)];
    }
  }

  /** The pages together hold the whole list, in order, each product once. */
  lemma AllPagesCoverList(products: seq<Product>)
    ensures PagesUpTo(products, TotalPages(|products|)) == products
  {
    PagesUpToPrefix(products, TotalPages(|products|));
    assert products[..|products|] == products;
  }

  /** "Showing `first` to `last` of `total` results" */
  datatype ShowingLine = ShowingLine(first: int, last: int, total: int)

  function Showing(products: seq<Product>, page: int): (l: ShowingLine)
    ensures l.total == |products|
    ensures 1 <= page <= TotalPages(|products|) ==>
      && l.first == StartIndex(page) + 1
      && 1 <= l.first <= l.last <= l.total
      && l.last - l.first + 1 == |CurrentProducts(products, page)|
  {
    ShowingLine(StartIndex(page) + 1, JsMath.Min(EndIndex(page), |products|), |products|)
  }

  /** The page numbers the page can hold for a list of `totalPages` pages (see `NextPage` for page 0). */
  predicate PageInRange(page: int, totalPages: nat)
  {
    if totalPages == 0 then page == 0 || page == 1 else 1 <= page <= totalPages
  }

  /** Previous: `Math.max(prev - 1, 1)` */
  function PreviousPage(page: int): (r: int)
    ensures r >= 1
    ensures page > 1 ==> r == page - 1
    ensures page <= 1 ==> r == 1
  {
    JsMath.Max(page - 1, 1)
  }

  /** Next: `Math.min(prev + 1, totalPages)` */
  function NextPage(page: int, totalPages: nat): (r: int)
    ensures r <= totalPages
    ensures page < totalPages ==> r == page + 1
    ensures page >= totalPages ==> r == totalPages
  {
    JsMath.Min(page + 1, totalPages)
  }

  /** Previous, Next and the numbered buttons keep the page within its range. */
  lemma NavigationKeepsPageInRange(page: int, totalPages: nat, target: int)
    requires PageInRange(page, totalPages)
    ensures PageInRange(PreviousPage(page), totalPages)
    ensures PageInRange(NextPage(page, totalPages), totalPages)
    ensures 1 <= target <= totalPages ==> PageInRange(target, totalPages)
  {
  }

  /** A disabled button would not have changed the page anyway. */
  lemma DisabledButtonsAreNoOps(totalPages: nat)
    ensures PreviousPage(1) == 1
    ensures NextPage(totalPages, totalPages) == totalPages
  {
  }

  /**
   * With no products there are no pages, yet Next is enabled on page 1 (1 is not 0)
   * and moves to page 0: no products, and "Showing -9 to 0 of 0".
   */
  lemma EmptyListNextGoesToPageZero()
    ensures TotalPages(0) == 0
    ensures NextPage(1, TotalPages(0)) == 0
    ensures CurrentProducts([], 0) == []
    ensures Showing([], 0) == ShowingLine(-9, 0, 0)
    ensures Showing([], 1) == ShowingLine(1, 0, 0)
  {
  }

  // ------------------------------------------------------ screen state

  const DeleteFailedMessage: string := "Failed to delete product. Please try again."
  const SaveFailedMessage: string := "Failed to save product. Please try again."

  /**
   * The screen's state. The product list is fixed data; nothing here changes it.
   * `apiFailed` inputs say whether the awaited save or delete call raised.
   */
  class AdminProductsPage {

    const products: seq<Product>
    var currentPage: int
    var isModalOpen: bool
    var editingProduct: Option<Product>
    var isSubmitting: bool
    var isDeleting: bool
    var error: Option<string>
    var form: ProductForm

    ghost predicate Valid()
      reads this
    {
      PageInRange(currentPage, TotalPages(|products|))
    }

    constructor (products: seq<Product>)
      ensures this.products == products && Valid()
      ensures currentPage == 1 && !isModalOpen && editingProduct == None
      ensures !isSubmitting && !isDeleting && error == None && form == EmptyForm
    {
      this.products := products;
      currentPage := 1;
      isModalOpen, editingProduct := false, None;
      isSubmitting, isDeleting, error := false, false, None;
      form := EmptyForm;
    }

    /** The products of the current page. */
    function Visible(): (r: seq<Product>)
      reads this
      ensures Valid() && |products| > 0 ==> 1 <= |r| <= ItemsPerPage
    {
      CurrentProducts(products, currentPage)
    }

    method Previous()
      modifies this`currentPage
      ensures currentPage == PreviousPage(old(currentPage))
      ensures old(Valid()) ==> Valid()
    {
      currentPage := JsMath.Max(currentPage - 1, 1);
    }

    method Next()
      modifies this`currentPage
      ensures currentPage == NextPage(old(currentPage), TotalPages(|products|))
      ensures old(Valid()) ==> Valid()
    {
      currentPage := JsMath.Min(currentPage + 1, TotalPages(|products|));
    }

    /** A numbered page button; only pages 1..totalPages have one. */
    method GoToPage(page: int)
      requires 1 <= page <= TotalPages(|products|)
      modifies this`currentPage
      ensures currentPage == page && Valid()
    {
      currentPage := page;
    }

    method HandleEdit(p: Product)
      modifies this`editingProduct, this`form, this`isModalOpen, this`error
      ensures editingProduct == Some(p) && form == FormOf(p) && isModalOpen && error == None
    {
      editingProduct := Some(p);
      form := FormOf(p);
      isModalOpen := true;
      error := None;
    }

    method HandleAddNew()
      modifies this`editingProduct, this`form, this`isModalOpen, this`error
      ensures editingProduct == None && form == EmptyForm && isModalOpen && error == None
    {
      editingProduct := None;
      form := EmptyForm;
      isModalOpen := true;
      error := None;
    }

    /** Delete: `confirmed` is the answer to the confirmation prompt. */
    method HandleDelete(productId: int, confirmed: bool, apiFailed: bool)
      modifies this`isDeleting, this`error
      ensures !confirmed ==> isDeleting == old(isDeleting) && error == old(error)
      ensures confirmed ==> !isDeleting && error == (if apiFailed then Some(DeleteFailedMessage) else None)
    {
      if !confirmed {
        return;
      }
      isDeleting := true;
      error := None;
      if apiFailed {
        error := Some(DeleteFailedMessage);
      }
      isDeleting := false;
    }

    /** `onSubmit`, run once the form has passed the schema. */
    method OnSubmit(data: ProductForm, apiFailed: bool)
      modifies this`isSubmitting, this`error, this`isModalOpen
      ensures !isSubmitting
      ensures !apiFailed ==> !isModalOpen && error == None
      ensures apiFailed ==> isModalOpen == old(isModalOpen) && error == Some(SaveFailedMessage)
    {
      isSubmitting := true;
      error := None;
      if apiFailed {
        error := Some(SaveFailedMessage);
      } else {
        isModalOpen := false;
      }
      isSubmitting := false;
    }

    /** The modal's submit: the schema runs first and `onSubmit` only when it reports nothing. */
    method Submit(data: ProductForm, apiFailed: bool) returns (errors: seq<FieldError>)
      modifies this`isSubmitting, this`error, this`isModalOpen
      ensures errors == ProductErrors(data)
      ensures errors != [] ==> isSubmitting == old(isSubmitting) && error == old(error) && isModalOpen == old(isModalOpen)
      ensures errors == [] ==> !isSubmitting && (!apiFailed ==> !isModalOpen && error == None)
      ensures errors == [] && apiFailed ==> isModalOpen == old(isModalOpen) && error == Some(SaveFailedMessage)
    {
      errors := ProductErrors(data);
      if errors == [] {
        OnSubmit(data, apiFailed);
      }
    }

    /** The overlay, the close icon and Cancel. */
    method CloseModal()
      modifies this`isModalOpen
      ensures !isModalOpen
    {
      isModalOpen := false;
    }
  }

}
