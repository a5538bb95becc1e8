/** The stock status shown on the inventory page (frontend/src/pages/Inventory.jsx). */
module InventoryPage {
  import opened Wrappers

  datatype StockLevel = OutOfStock | LowStock | InStock

  /** The level, its label and whether the warning icon is shown. */
  datatype StockStatus = StockStatus(level: StockLevel, text: string, icon: bool)

  /** The threshold used when a product has none (or zero). */
  const DefaultMinStockLevel: int := 10

  /** The new-product form's initial threshold field. */
  const DefaultMinStockField: string := "10"

  /** `product.minStockLevel || 10`. */
  function EffectiveMinLevel(minStockLevel: Option<int>): (r: int)
    ensures minStockLevel.None? || minStockLevel == Some(0) ==> r == DefaultMinStockLevel
    ensures minStockLevel.Some? && minStockLevel.value != 0 ==> r == minStockLevel.value
  {
    if minStockLevel.Some? && minStockLevel.value != 0 then minStockLevel.value else DefaultMinStockLevel
  }

  /** `getStockStatus`: empty first, then at or under the threshold, else in stock. */
  function GetStockStatus(stock: int, minLevel: int): (r: StockStatus)
    ensures r.level == OutOfStock <==> stock == 0
    ensures r.level == LowStock <==> stock != 0 && stock <= minLevel
    ensures r.level == InStock <==> stock != 0 && stock > minLevel
    ensures r.icon <==> r.level != InStock
    ensures r.text == match r.level
      case OutOfStock => "Out of Stock"
      case LowStock => "Low Stock"
      case InStock => "In Stock"
  {
    if stock == 0 then StockStatus(OutOfStock, "Out of Stock", true)
    else if stock <= minLevel then StockStatus(LowStock, "Low Stock", true)
    else StockStatus(InStock, "In Stock", false)
  }

  /** An empty shelf is out of stock whatever the threshold, even a negative one. */
  lemma EmptyIsOutBeforeLow(minLevel: int)
    ensures GetStockStatus(0, minLevel).text == "Out of Stock"
  {
  }

  /** Raising the threshold never turns a warning off. */
  lemma {:induction false} WarningMonotoneInThreshold(stock: int, low: int, high: int)
    requires low <= high
    ensures GetStockStatus(stock, low).icon ==> GetStockStatus(stock, high).icon
  {
  }

  /** The new-product form starts with the same threshold a product without one gets. */
  lemma FormDefaultMatchesFallback()
    ensures DefaultMinStockField == "10" && EffectiveMinLevel(None) == 10
  {
  }
}
