/** The product table: paging and sorting state, the loaded page of products, and the
    confirm-then-delete dialog. The list request and the delete request are inputs. */
module ProductList {
  import opened Common

  /** A row of the table; only `id` takes part in the table's logic. */
  datatype Product = Product(id: string, name: string, price: string, stockQuantity: int, images: seq<string>)

  /** A sort request of the table header: the column key and the order. */
  datatype SortParam = SortParam(order: string, key: string)

  /** The table's query state. */
  datatype TableQueries = TableQueries(pageIndex: int, pageSize: int, sort: Option<SortParam>)

  const InitialQueries: TableQueries := TableQueries(0, 10, None)

  /** The JSON body of the list response, `{ items, count }`. The response status is never
      looked at, so either field may be missing (`None`, read as `undefined`), as in the
      `{ message }` body of an error response. */
  datatype ProductPage = ProductPage(items: Option<seq<Product>>, count: Option<int>)

  /** `products.filter((product) => product.id !== id)`. */
  function WithoutId(products: seq<Product>, id: string): (r: seq<Product>)
    ensures |r| <= |products|
    decreases |products|
  {
    if products == [] then []
    else (if products[0].id == id then [] else [products[0]]) + WithoutId(products[1..], id)
  }

  /** The filter keeps exactly the products whose id differs. */
  lemma {:induction false} WithoutIdMembers(products: seq<Product>, id: string)
    ensures forall p :: p in WithoutId(products, id) <==> p in products && p.id != id
    decreases |products|
  {
    if products != [] {
      WithoutIdMembers(products[1..], id);
      assert products == [products[0]] + products[1..];
    }
  }

  /** The filter keeps the order of the products it keeps: filtering a concatenation
      filters each part. */
  lemma {:induction false} WithoutIdConcat(a: seq<Product>, b: seq<Product>, id: string)
    ensures WithoutId(a + b, id) == WithoutId(a, id) + WithoutId(b, id)
    decreases |a|
  {
    if a != [] {
      var h := if a[0].id == id then [] else [a[0]];
      assert (a + b)[0] == a[0];
      assert (a + b)[1..] == a[1..] + b;
      WithoutIdConcat(a[1..], b, id);
      calc {
        WithoutId(a + b, id);
        h + WithoutId(a[1..] + b, id);
        h + (WithoutId(a[1..], id) + WithoutId(b, id));
        (h + WithoutId(a[1..], id)) + WithoutId(b, id);
      }
    } else {
      assert a + b == b;
    }
  }

  /** A list with no product of that id is left as it is. */
  lemma {:induction false} WithoutIdAbsent(products: seq<Product>, id: string)
    requires forall k :: 0 <= k < |products| ==> products[k].id != id
    ensures WithoutId(products, id) == products
    decreases |products|
  {
    if products != [] {
      WithoutIdAbsent(products[1..], id);
    }
  }

  /** Removing an id a second time removes nothing more. */
  lemma WithoutIdIdempotent(products: seq<Product>, id: string)
    ensures WithoutId(WithoutId(products, id), id) == WithoutId(products, id)
  {
    var r := WithoutId(products, id);
    WithoutIdMembers(products, id);
    forall k | 0 <= k < |r| ensures r[k].id != id {
      assert r[k] in r;
    }
    WithoutIdAbsent(r, id);
  }

  class ProductTable {
    var deleteConfirmationOpen: bool
    var toDeleteId: string
    /** `None` is `undefined`, which a body without `items` stores. */
    var productList: Option<seq<Product>>
    var productListTotal: Option<int>
    var isLoading: bool
    var tableData: TableQueries

    constructor ()
      ensures !deleteConfirmationOpen && toDeleteId == ""
      ensures productList == Some([]) && productListTotal == Some(0) && isLoading
      ensures tableData == InitialQueries
    {
      deleteConfirmationOpen := false;
      toDeleteId := "";
      productList := Some([]);
      productListTotal := Some(0);
      isLoading := true;
      tableData := InitialQueries;
    }

    /** The table shows its empty state: loading is over and the list is empty. */
    predicate NoData()
      reads this
    {
      !isLoading && productList == Some([])
    }

    /** Rendering throws: the `noData` test reads `length` of an `undefined` list. */
    predicate RenderFails()
      reads this
    {
      !isLoading && productList.None?
    }

    /** `fetchProducts(pageIndex, pageSize)`, with the response as input: the body's
        `items` and `count` replace the list and the total, missing or not; a request
        that throws (no response, or a body that is not JSON) keeps both. Loading is over
        either way. */
    method FetchProducts(response: Outcome<ProductPage>)
      modifies this
      ensures !isLoading
      ensures response.Returned? ==> productList == response.value.items && productListTotal == response.value.count
      ensures response.Returned? ==> (NoData() <==> response.value.items == Some([]))
      ensures response.Returned? ==> (RenderFails() <==> response.value.items.None?)
      ensures response.Threw? ==> productList == old(productList) && productListTotal == old(productListTotal)
      ensures deleteConfirmationOpen == old(deleteConfirmationOpen) && toDeleteId == old(toDeleteId)
      ensures tableData == old(tableData)
    {
      isLoading := true;
      if response.Returned? {
        productList := response.value.items;
        productListTotal := response.value.count;
      }
      isLoading := false;
    }

    /** `handleDelete(product)`: open the dialog for this product. */
    method HandleDelete(product: Product)
      modifies this
      ensures deleteConfirmationOpen && toDeleteId == product.id
      ensures productList == old(productList) && productListTotal == old(productListTotal)
      ensures isLoading == old(isLoading) && tableData == old(tableData)
    {
      deleteConfirmationOpen := true;
      toDeleteId := product.id;
    }

    /** The dialog's close button: the pending id stays. */
    method CloseDialog()
      modifies this
      ensures !deleteConfirmationOpen && toDeleteId == old(toDeleteId)
      ensures productList == old(productList) && productListTotal == old(productListTotal)
      ensures isLoading == old(isLoading) && tableData == old(tableData)
    {
      deleteConfirmationOpen := false;
    }

    /** `handleConfirmDelete()`, with the delete request's outcome as input: on an ok
        response every product with the pending id leaves the list, the others stay in
        order, and the dialog closes with no pending id; otherwise nothing changes. An
        `undefined` list makes the filter throw, and the catch leaves everything as it
        was. */
    method HandleConfirmDelete(response: FetchOutcome)
      modifies this
      ensures Succeeded(response) && old(productList).Some? ==>
                && productList == Some(WithoutId(old(productList).value, old(toDeleteId)))
                && !deleteConfirmationOpen && toDeleteId == ""
      ensures !(Succeeded(response) && old(productList).Some?) ==>
                && productList == old(productList)
                && deleteConfirmationOpen == old(deleteConfirmationOpen) && toDeleteId == old(toDeleteId)
      ensures productListTotal == old(productListTotal) && isLoading == old(isLoading) && tableData == old(tableData)
    {
      if Succeeded(response) && productList.Some? {
        var newProductList := WithoutId(productList.value, toDeleteId);
        productList := Some(newProductList);
        deleteConfirmationOpen := false;
        toDeleteId := "";
      }
    }

    /** `handlePaginationChange(page)`. */
    method HandlePaginationChange(page: int)
      modifies this
      ensures tableData == old(tableData).(pageIndex := page)
      ensures productList == old(productList) && productListTotal == old(productListTotal) && isLoading == old(isLoading)
      ensures deleteConfirmationOpen == old(deleteConfirmationOpen) && toDeleteId == old(toDeleteId)
    {
      var newTableData := tableData;
      newTableData := newTableData.(pageIndex := page);
      tableData := newTableData;
    }

    /** `handleSelectChange(value)`: a new page size, and the page index set to 1. */
    method HandleSelectChange(value: int)
      modifies this
      ensures tableData == TableQueries(1, value, old(tableData).sort)
      ensures productList == old(productList) && productListTotal == old(productListTotal) && isLoading == old(isLoading)
      ensures deleteConfirmationOpen == old(deleteConfirmationOpen) && toDeleteId == old(toDeleteId)
    {
      var newTableData := tableData;
      newTableData := newTableData.(pageSize := value);
      newTableData := newTableData.(pageIndex := 1);
      tableData := newTableData;
    }

    /** `handleSort(sort)`: the page index and size stay. */
    method HandleSort(sort: SortParam)
      modifies this
      ensures tableData == old(tableData).(sort := Some(sort))
      ensures productList == old(productList) && productListTotal == old(productListTotal) && isLoading == old(isLoading)
      ensures deleteConfirmationOpen == old(deleteConfirmationOpen) && toDeleteId == old(toDeleteId)
    {
      var newTableData := tableData;
      newTableData := newTableData.(sort := Some(sort));
      tableData := newTableData;
    }
  }
}
