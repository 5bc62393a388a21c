/** The pharmacy inventory screen: the stock status shown for each batch, and
    the paging state the screen keeps while it asks the server for pages.
    A request is modelled as the value the component hands to the pharmacy
    client; its answer arrives later through one of two callbacks. */
module Inventory {
  /** An `InventoryItem` as the server sends it; the fields the screen only
      prints are kept as text. */
  datatype InventoryItem = InventoryItem(
    id: int,
    medicationName: string,
    batchNumber: string,
    quantity: int,
    reorderLevel: int,
    expiryDate: string,
    location: string)

  /** The three levels a batch can be at. */
  datatype StockLevel = OutOfStock | LowStock | InStock

  /** The level of a batch: none left, at or below its reorder level, or
      above it. An empty batch is out of stock whatever its reorder level. */
  function Level(item: InventoryItem): (l: StockLevel)
    ensures l == OutOfStock <==> item.quantity == 0
    ensures l == LowStock <==> item.quantity != 0 && item.quantity <= item.reorderLevel
    ensures l == InStock <==> item.quantity != 0 && item.quantity > item.reorderLevel
  {
    if item.quantity == 0 then OutOfStock
    else if item.quantity <= item.reorderLevel then LowStock
    else InStock
  }

  /** `getStockStatus`: the CSS class of the status chip. */
  function StockStatus(item: InventoryItem): (c: string)
    ensures c == StatusClassOf(Level(item))
  {
    if item.quantity == 0 then "out-of-stock"
    else if item.quantity <= item.reorderLevel then "low-stock"
    else "in-stock"
  }

  /** `getStockStatusLabel`: the text of the status chip. */
  function StockStatusLabel(item: InventoryItem): (s: string)
    ensures s == LabelOf(Level(item))
  {
    if item.quantity == 0 then "Out of Stock"
    else if item.quantity <= item.reorderLevel then "Low Stock"
    else "In Stock"
  }

  function StatusClassOf(l: StockLevel): string {
    match l
    case OutOfStock => "out-of-stock"
    case LowStock => "low-stock"
    case InStock => "in-stock"
  }

  function LabelOf(l: StockLevel): string {
    match l
    case OutOfStock => "Out of Stock"
    case LowStock => "Low Stock"
    case InStock => "In Stock"
  }

  /** The chip's class and its label never disagree: each names one level,
      and different levels get different classes and labels. */
  lemma ClassAndLabelAgree(a: InventoryItem, b: InventoryItem)
    ensures StockStatus(a) == StockStatus(b) <==> Level(a) == Level(b)
    ensures StockStatusLabel(a) == StockStatusLabel(b) <==> Level(a) == Level(b)
    ensures StockStatus(a) == StockStatus(b) <==> StockStatusLabel(a) == StockStatusLabel(b)
  {
  }

  /** The quantity cell is highlighted when the quantity is at or below the
      reorder level. */
  predicate QuantityHighlighted(item: InventoryItem) {
    item.quantity <= item.reorderLevel
  }

  /** The highlight and the chip agree except on an empty batch with a
      negative reorder level: a low batch is always highlighted, a batch in
      stock never, and an empty one whenever its reorder level is at least
      0. */
  lemma HighlightMatchesLevel(item: InventoryItem)
    ensures Level(item) == LowStock ==> QuantityHighlighted(item)
    ensures Level(item) == InStock ==> !QuantityHighlighted(item)
    ensures Level(item) == OutOfStock ==> (QuantityHighlighted(item) <==> item.reorderLevel >= 0)
  {
  }

  /** What the screen asks the pharmacy client for: a page of the inventory,
      or the low-stock list (a request without parameters). */
  datatype Request = GetInventory(page: int, size: int) | GetLowStockItems

  /** A `PageResponse`, as far as the screen reads it. */
  datatype PageResponse = PageResponse(content: seq<InventoryItem>, totalElements: int)

  /** A `PageEvent` from the paginator. */
  datatype PageEvent = PageEvent(pageIndex: int, pageSize: int)

  class InventoryComponent {
    var data: seq<InventoryItem>
    var lowStockItems: seq<InventoryItem>
    var isLoading: bool
    var pageSize: int
    var totalElements: int

    constructor ()
      ensures data == [] && lowStockItems == [] && !isLoading && pageSize == 10 && totalElements == 0
    {
      data, lowStockItems, isLoading, pageSize, totalElements := [], [], false, 10, 0;
    }

    /** `loadInventory`: loading starts and the given page is asked for at
        the current page size. */
    method LoadInventory(page: int) returns (req: Request)
      modifies this
      ensures isLoading && req == GetInventory(page, pageSize)
      ensures data == old(data) && lowStockItems == old(lowStockItems)
      ensures pageSize == old(pageSize) && totalElements == old(totalElements)
    {
      isLoading := true;
      req := GetInventory(page, pageSize);
    }

    /** `loadLowStockAlerts`: asks for the low-stock list and changes nothing
        until it arrives. */
    method LoadLowStockAlerts() returns (req: Request)
      ensures req == GetLowStockItems
    {
      req := GetLowStockItems;
    }

    /** `ngOnInit`: the first page is asked for, then the low-stock list; the
        two requests are sent in that order. */
    method NgOnInit() returns (sent: seq<Request>)
      modifies this
      ensures isLoading && sent == [GetInventory(0, pageSize), GetLowStockItems]
      ensures data == old(data) && lowStockItems == old(lowStockItems)
      ensures pageSize == old(pageSize) && totalElements == old(totalElements)
    {
      var page := LoadInventory(0);
      var alerts := LoadLowStockAlerts();
      sent := [page, alerts];
    }

    /** The success callback: the page shown and the total are replaced, and
        loading stops. */
    method OnInventoryLoaded(response: PageResponse)
      modifies this
      ensures data == response.content && totalElements == response.totalElements && !isLoading
      ensures lowStockItems == old(lowStockItems) && pageSize == old(pageSize)
    {
      data := response.content;
      totalElements := response.totalElements;
      isLoading := false;
    }

    /** The error callback: loading stops and the page already shown stays. */
    method OnInventoryError()
      modifies this
      ensures !isLoading
      ensures data == old(data) && totalElements == old(totalElements)
      ensures lowStockItems == old(lowStockItems) && pageSize == old(pageSize)
    {
      isLoading := false;
    }

    /** The success callback of `loadLowStockAlerts`; the request has no error
        callback, so a failure changes nothing. */
    method OnLowStockLoaded(items: seq<InventoryItem>)
      modifies this
      ensures lowStockItems == items
      ensures data == old(data) && totalElements == old(totalElements)
      ensures isLoading == old(isLoading) && pageSize == old(pageSize)
    {
      lowStockItems := items;
    }

    /** `onPageChange`: the new page size is kept first, so the request is
        for the event's page at the event's size. */
    method OnPageChange(event: PageEvent) returns (req: Request)
      modifies this
      ensures pageSize == event.pageSize && isLoading
      ensures req == GetInventory(event.pageIndex, event.pageSize)
      ensures data == old(data) && lowStockItems == old(lowStockItems) && totalElements == old(totalElements)
    {
      pageSize := event.pageSize;
      req := LoadInventory(event.pageIndex);
    }
  }
}
