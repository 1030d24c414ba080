/** The inventory table (components/Inventory.js): the category and stock-status
    filters, paging with guarded previous/next, the page list and the "Showing"
    line, and the delete confirmation. */
module InventoryView {
  import opened Js
  import Lists
  import Paging
  import Session

  datatype InventoryItem = InventoryItem(id: Value, name: Value, category: Value, stockStatus: Value)

  /** An empty filter lets everything through; a set one must equal the field exactly. */
  predicate FieldMatches(filter: string, field: Value) {
    filter == "" || field == Str(filter)
  }

  function KeepItem(category: string, stockStatus: string): InventoryItem -> bool {
    (item: InventoryItem) => FieldMatches(category, item.category) && FieldMatches(stockStatus, item.stockStatus)
  }

  /** `item => item.id === id`. */
  function HasId(id: Value): InventoryItem -> bool {
    (item: InventoryItem) => item.id == id
  }

  function FilteredItems(items: seq<InventoryItem>, category: string, stockStatus: string): seq<InventoryItem> {
    Lists.Filter(items, KeepItem(category, stockStatus))
  }

  /** An item is listed iff each set filter equals its field; the list keeps order. */
  lemma FilteredItemsSpec(items: seq<InventoryItem>, category: string, stockStatus: string, x: InventoryItem)
    ensures x in FilteredItems(items, category, stockStatus) <==>
      && x in items
      && (category != "" ==> x.category == Str(category))
      && (stockStatus != "" ==> x.stockStatus == Str(stockStatus))
    ensures Lists.Subsequence(FilteredItems(items, category, stockStatus), items)
  {
    Lists.FilterIsSubsequence(items, KeepItem(category, stockStatus));
  }

  function Categories(items: seq<InventoryItem>): seq<Value> {
    seq(|items|, i requires 0 <= i < |items| => items[i].category)
  }

  function StockStatuses(items: seq<InventoryItem>): seq<Value> {
    seq(|items|, i requires 0 <= i < |items| => items[i].stockStatus)
  }

  /** The filter options: each category once, in first-occurrence order, and
      exactly the categories the items have. */
  lemma CategoryOptions(items: seq<InventoryItem>)
    ensures var options := Lists.Distinct(Categories(items));
      && (forall i, j :: 0 <= i < j < |options| ==> options[i] != options[j])
      && (forall c :: c in options <==> exists k :: 0 <= k < |items| && items[k].category == c)
  {
    Lists.DistinctProperties(Categories(items));
    forall c | c in Lists.Distinct(Categories(items))
      ensures exists k :: 0 <= k < |items| && items[k].category == c
    {
      var k :| 0 <= k < |Categories(items)| && Categories(items)[k] == c;
    }
    forall c | exists k :: 0 <= k < |items| && items[k].category == c
      ensures c in Lists.Distinct(Categories(items))
    {
      var k :| 0 <= k < |items| && items[k].category == c;
      assert Categories(items)[k] == c;
    }
  }

  class InventoryScreen {
    var inventoryItems: seq<InventoryItem>
    var totalItems: nat
    var categories: seq<Value>
    var stockStatuses: seq<Value>
    var error: Value
    var categoryFilter: string
    var stockStatusFilter: string
    var currentPage: int
    var itemsPerPage: nat
    var showDeleteModal: bool
    var itemToDelete: Option<InventoryItem>
    var isModalOpen: bool
    var currentItem: Option<InventoryItem>
    var fetches: nat

    predicate Valid()
      reads this`itemsPerPage
    {
      itemsPerPage > 0
    }

    constructor ()
      ensures Valid() && itemsPerPage == 10 && currentPage == 1
      ensures inventoryItems == [] && categoryFilter == "" && stockStatusFilter == ""
      ensures !showDeleteModal && itemToDelete == None && fetches == 0
    {
      inventoryItems, totalItems := [], 0;
      categories, stockStatuses := [], [];
      error := Null;
      categoryFilter, stockStatusFilter := "", "";
      currentPage, itemsPerPage := 1, 10;
      showDeleteModal, itemToDelete := false, None;
      isModalOpen, currentItem := false, None;
      fetches := 0;
    }

    function Filtered(): seq<InventoryItem>
      reads this`inventoryItems, this`categoryFilter, this`stockStatusFilter
    {
      FilteredItems(inventoryItems, categoryFilter, stockStatusFilter)
    }

    function PaginatedItems(): seq<InventoryItem>
      reads this`inventoryItems, this`categoryFilter, this`stockStatusFilter, this`currentPage, this`itemsPerPage
    {
      Paging.PageSlice(Filtered(), currentPage, itemsPerPage)
    }

    function TotalPages(): nat
      reads this`inventoryItems, this`categoryFilter, this`stockStatusFilter, this`itemsPerPage
      requires Valid()
    {
      Paging.TotalPages(|Filtered()|, itemsPerPage)
    }

    /** Pages 1..totalPages that are first, last or next to the current one,
        each with its (never drawn) '...' separator flag. */
    function PageList(): seq<Paging.PageButton>
      reads this`inventoryItems, this`categoryFilter, this`stockStatusFilter, this`currentPage, this`itemsPerPage
      requires Valid()
    {
      Paging.EdgeButtons(currentPage, TotalPages())
    }

    function ShowingFrom(): int
      reads this`inventoryItems, this`categoryFilter, this`stockStatusFilter, this`currentPage, this`itemsPerPage
    {
      Paging.ShowingFrom(currentPage, itemsPerPage, |Filtered()|)
    }

    function ShowingTo(): int
      reads this`inventoryItems, this`categoryFilter, this`stockStatusFilter, this`currentPage, this`itemsPerPage
    {
      Paging.ShowingTo(currentPage, itemsPerPage, |Filtered()|)
    }

    predicate PageInRange()
      reads this`inventoryItems, this`categoryFilter, this`stockStatusFilter, this`currentPage, this`itemsPerPage
      requires Valid()
    {
      1 <= currentPage <= Max(1, TotalPages())
    }

    /** A successful fetch: the items, their count and the filter options. */
    method ReceiveItems(items: seq<InventoryItem>)
      modifies this`inventoryItems, this`totalItems, this`categories, this`stockStatuses
      ensures inventoryItems == items && totalItems == |items|
      ensures categories == Lists.Distinct(Categories(items))
      ensures stockStatuses == Lists.Distinct(StockStatuses(items))
    {
      inventoryItems := items;
      totalItems := |items|;
      categories := Lists.Distinct(Categories(items));
      stockStatuses := Lists.Distinct(StockStatuses(items));
    }

    /** A failed fetch reports the wrapper's error or a fixed message. */
    method ReceiveFailure(reported: Value)
      modifies this`error
      ensures error == Or(reported, Str("Failed to fetch inventory items"))
    {
      error := Or(reported, Str("Failed to fetch inventory items"));
    }

    /** A fetch whose wrapper throws: a fixed message, the list kept. */
    method FetchThrew()
      modifies this`error
      ensures error == Str("An error occurred while fetching inventory items")
    {
      error := Str("An error occurred while fetching inventory items");
    }

    /** handleDelete: ask for confirmation only when an item has that id, on
        the first such item. */
    method HandleDelete(id: Value)
      modifies this`itemToDelete, this`showDeleteModal
      ensures (exists k :: 0 <= k < |inventoryItems| && inventoryItems[k].id == id) ==>
        showDeleteModal && itemToDelete.Some? && itemToDelete.value in inventoryItems && itemToDelete.value.id == id
        && itemToDelete == Lists.Find(inventoryItems, HasId(id))
      ensures (forall k :: 0 <= k < |inventoryItems| ==> inventoryItems[k].id != id) ==>
        showDeleteModal == old(showDeleteModal) && itemToDelete == old(itemToDelete)
    {
      var item := Lists.Find(inventoryItems, HasId(id));
      if item.Some? {
        itemToDelete := item;
        showDeleteModal := true;
      }
    }

    method HandleAddNew()
      modifies this`currentItem, this`isModalOpen
      ensures currentItem == None && isModalOpen
    {
      currentItem := None;
      isModalOpen := true;
    }

    method HandleEdit(item: InventoryItem)
      modifies this`currentItem, this`isModalOpen
      ensures currentItem == Some(item) && isModalOpen
    {
      currentItem := Some(item);
      isModalOpen := true;
    }

    /** confirmDelete: `deleteItem` is the delete wrapper, `None` when it throws.
        Success re-fetches and closes; failure keeps the dialog and sets the error. */
    method ConfirmDelete(deleteItem: Value -> Option<Session.Mutation>)
      modifies this`fetches, this`showDeleteModal, this`itemToDelete, this`error
      ensures old(itemToDelete).None? ==>
        fetches == old(fetches) && showDeleteModal == old(showDeleteModal) && error == old(error)
      ensures old(itemToDelete).Some? ==>
        var response := deleteItem(old(itemToDelete).value.id);
        && (response.Some? && response.value.success ==>
              fetches == old(fetches) + 1 && !showDeleteModal && itemToDelete == None)
        && (response.Some? && !response.value.success ==>
              error == Or(response.value.error, Str("Failed to delete inventory item"))
              && showDeleteModal == old(showDeleteModal) && itemToDelete == old(itemToDelete))
        && (response.None? ==>
              error == Str("An error occurred while deleting inventory item")
              && showDeleteModal == old(showDeleteModal) && itemToDelete == old(itemToDelete))
    {
      if itemToDelete.None? {
        return;
      }
      var response := deleteItem(itemToDelete.value.id);
      if response.None? {
        error := Str("An error occurred while deleting inventory item");
      } else if response.value.success {
        fetches := fetches + 1;
        showDeleteModal := false;
        itemToDelete := None;
      } else {
        error := Or(response.value.error, Str("Failed to delete inventory item"));
      }
    }

    method HandleCategoryFilter(value: string)
      modifies this`categoryFilter, this`currentPage
      ensures categoryFilter == value && currentPage == 1
    {
      categoryFilter := value;
      currentPage := 1;
    }

    method HandleStockStatusFilter(value: string)
      modifies this`stockStatusFilter, this`currentPage
      ensures stockStatusFilter == value && currentPage == 1
    {
      stockStatusFilter := value;
      currentPage := 1;
    }

    /** The page-size select offers 10, 25, 50 and 100. */
    method HandleItemsPerPageChange(n: nat)
      requires n > 0
      modifies this`itemsPerPage, this`currentPage
      ensures Valid() && itemsPerPage == n && currentPage == 1
    {
      itemsPerPage := n;
      currentPage := 1;
    }

    /** nextPage: move on only when there is a later page. */
    method NextPage()
      requires Valid()
      modifies this`currentPage
      ensures old(currentPage) < TotalPages() ==> currentPage == old(currentPage) + 1
      ensures old(currentPage) >= TotalPages() ==> currentPage == old(currentPage)
      ensures old(PageInRange()) ==> PageInRange()
    {
      if currentPage < TotalPages() {
        currentPage := currentPage + 1;
      }
    }

    /** prevPage: move back only when not on the first page. */
    method PrevPage()
      requires Valid()
      modifies this`currentPage
      ensures old(currentPage) > 1 ==> currentPage == old(currentPage) - 1
      ensures old(currentPage) <= 1 ==> currentPage == old(currentPage)
      ensures old(PageInRange()) ==> PageInRange()
    {
      if currentPage > 1 {
        currentPage := currentPage - 1;
      }
    }

    method GoToPage(page: int)
      modifies this`currentPage
      ensures currentPage == page
    {
      currentPage := page;
    }
  }

  /** What the table shows: at most a page of items, the page list is ascending with no separator drawn,
      and the "Showing" bounds lie within the filtered list. */
  lemma PageViewSpec(items: seq<InventoryItem>, category: string, stockStatus: string, cur: int, n: nat)
    requires n > 0 && cur >= 1
    ensures var f := FilteredItems(items, category, stockStatus);
      && |Paging.PageSlice(f, cur, n)| <= n
      && Paging.ShowingFrom(cur, n, |f|) <= |f| && Paging.ShowingTo(cur, n, |f|) <= |f|
      && (|f| == 0 ==> Paging.ShowingFrom(cur, n, |f|) == 0 && Paging.ShowingTo(cur, n, |f|) == 0)
      && forall b :: b in Paging.EdgeButtons(cur, Paging.TotalPages(|f|, n)) ==> !b.ellipsisBefore
  {
    var f := FilteredItems(items, category, stockStatus);
    Paging.PageSliceContents(f, cur, n);
    Paging.ShowingBounds(f, cur, n);
  }
}
