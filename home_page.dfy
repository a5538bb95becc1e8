/**
 * The catalogue page (frontend/src/pages/Home.jsx): search and category
 * filters, the chosen sort, the per-product quantity picker and the guards in
 * front of adding to the cart.
 */
module HomePage {
  import opened Wrappers
  import opened Ids
  import opened Text
  import opened ProductModel
  import Sorting
  import CartContext

  /** The search keeps a product whose lower-cased name or description includes the lower-cased term. */
  predicate MatchesSearch(p: Product, term: string) {
    Contains(ToLower(p.name), ToLower(term))
    || (p.description.Some? && Contains(ToLower(p.description.value), ToLower(term)))
  }

  /** The category filter keeps everything for `all`, else exactly the equal categories. */
  predicate MatchesCategory(p: Product, category: string) {
    category == "all" || p.category == Some(category)
  }

  function FilterBySearch(products: seq<Product>, term: string): (r: seq<Product>)
    ensures forall p :: p in r <==> p in products && MatchesSearch(p, term)
    ensures |r| <= |products|
  {
    if products == [] then []
    else (if MatchesSearch(products[0], term) then [products[0]] else []) + FilterBySearch(products[1..], term)
  }

  function FilterByCategory(products: seq<Product>, category: string): (r: seq<Product>)
    ensures forall p :: p in r <==> p in products && MatchesCategory(p, category)
    ensures |r| <= |products|
  {
    if products == [] then []
    else (if MatchesCategory(products[0], category) then [products[0]] else []) + FilterByCategory(products[1..], category)
  }

  /** The products both filters keep, in catalogue order; an empty term filters nothing. */
  function Selected(products: seq<Product>, term: string, category: string): seq<Product> {
    var searched := if term != [] then FilterBySearch(products, term) else products;
    if category != "all" then FilterByCategory(searched, category) else searched
  }

  /** A product is selected exactly when it is in the catalogue and passes both filters. */
  lemma SelectedMembers(products: seq<Product>, term: string, category: string, p: Product)
    ensures p in Selected(products, term, category) <==>
      p in products && (term == [] || MatchesSearch(p, term)) && MatchesCategory(p, category)
  {
  }

  /** Every product passes the empty search (the empty string is included in every name). */
  lemma EmptyTermMatchesAll(p: Product)
    ensures MatchesSearch(p, "")
  {
    ContainsTrivial(ToLower(p.name));
  }

  predicate ByPriceAscending(a: Product, b: Product) { a.price <= b.price }
  predicate ByPriceDescending(a: Product, b: Product) { a.price >= b.price }
  predicate ByName(a: Product, b: Product) { LexLe(a.name, b.name) }

  /** The comparator of each sort mode; anything but the price modes sorts by name. */
  function SortOrder(sortBy: string): (Product, Product) -> bool {
    if sortBy == "price_asc" then ByPriceAscending
    else if sortBy == "price_desc" then ByPriceDescending
    else ByName
  }

  lemma {:induction false} SortOrderIsTotalPreorder(sortBy: string)
    ensures Sorting.Total(SortOrder(sortBy)) && Sorting.Transitive(SortOrder(sortBy))
  {
    if sortBy != "price_asc" && sortBy != "price_desc" {
      forall a: Product, b: Product
        ensures ByName(a, b) || ByName(b, a)
      {
        LexLeTotal(a.name, b.name);
      }
      forall a: Product, b: Product, c: Product | ByName(a, b) && ByName(b, c)
        ensures ByName(a, c)
      {
        LexLeTransitive(a.name, b.name, c.name);
      }
    }
  }

  /**
   * `filterAndSortProducts`: the catalogue copy is narrowed by the search
   * term, then by the category, then sorted by the chosen mode.
   */
  method FilterAndSortProducts(products: seq<Product>, term: string, category: string, sortBy: string)
    returns (filtered: seq<Product>)
    ensures multiset(filtered) == multiset(Selected(products, term, category))
    ensures forall p :: p in filtered <==>
      p in products && (term == [] || MatchesSearch(p, term)) && MatchesCategory(p, category)
    ensures Sorting.Sorted(filtered, SortOrder(sortBy))
    ensures sortBy == "price_asc" ==> forall i, j | 0 <= i < j < |filtered| :: filtered[i].price <= filtered[j].price
    ensures sortBy == "price_desc" ==> forall i, j | 0 <= i < j < |filtered| :: filtered[i].price >= filtered[j].price
  {
    var selected := products;
    if term != [] {
      selected := FilterBySearch(selected, term);
    }
    if category != "all" {
      selected := FilterByCategory(selected, category);
    }
    assert selected == Selected(products, term, category);
    filtered := Sorting.Sort(selected, SortOrder(sortBy));
    Sorting.SortPermutes(selected, SortOrder(sortBy));
    SortOrderIsTotalPreorder(sortBy);
    Sorting.SortSorted(selected, SortOrder(sortBy));
    Sorting.PermutationKeepsMembers(filtered, selected);
    forall p
      ensures p in filtered <==> p in products && (term == [] || MatchesSearch(p, term)) && MatchesCategory(p, category)
    {
      SelectedMembers(products, term, category, p);
    }
    SortedByPrice(filtered, sortBy);
  }

  /** Sorted by a price mode means the prices run up (or down) the list. */
  lemma SortedByPrice(s: seq<Product>, sortBy: string)
    requires Sorting.Sorted(s, SortOrder(sortBy))
    ensures sortBy == "price_asc" ==> forall i, j | 0 <= i < j < |s| :: s[i].price <= s[j].price
    ensures sortBy == "price_desc" ==> forall i, j | 0 <= i < j < |s| :: s[i].price >= s[j].price
  {
    if sortBy == "price_asc" {
      assert forall i, j | 0 <= i < j < |s| :: ByPriceAscending(s[i], s[j]);
    } else if sortBy == "price_desc" {
      assert forall i, j | 0 <= i < j < |s| :: ByPriceDescending(s[i], s[j]);
    }
  }

  /** `getQuantity`: the picked quantity, with a missing or zero entry read as one. */
  function GetQuantity(quantities: map<ProductId, int>, id: ProductId): (r: int)
    ensures r != 0
    ensures id in quantities && quantities[id] != 0 ==> r == quantities[id]
    ensures (id !in quantities || quantities[id] == 0) ==> r == 1
  {
    if id in quantities && quantities[id] != 0 then quantities[id] else 1
  }

  /** The first catalogue product with this id (`find`). */
  function FindProduct(products: seq<Product>, id: ProductId): (r: Option<Product>)
    ensures r.Some? ==> r.value in products && r.value.id == id
    ensures r.None? ==> forall i | 0 <= i < |products| :: products[i].id != id
  {
    if products == [] then None
    else if products[0].id == id then Some(products[0])
    else FindProduct(products[1..], id)
  }

  /** `Math.max(1, Math.min(n, stock))`. */
  function Clamp(n: int, stock: int): (r: int)
    ensures 1 <= r
    ensures stock >= 1 ==> r <= stock
    ensures 1 <= n <= stock ==> r == n
    ensures stock >= 1 && n > stock ==> r == stock
    ensures n < 1 || stock < 1 ==> r == 1
  {
    var low := if n < stock then n else stock;
    if low > 1 then low else 1
  }

  /** `updateQuantity`: the picked quantity becomes the request clamped to [1, stock]; an unknown id changes nothing. */
  function UpdateQuantity(products: seq<Product>, quantities: map<ProductId, int>, id: ProductId, n: int)
    : (r: map<ProductId, int>)
    ensures FindProduct(products, id).None? ==> r == quantities
    ensures FindProduct(products, id).Some? ==>
      var stock := FindProduct(products, id).value.stock;
      && r == quantities[id := Clamp(n, stock)]
      && 1 <= r[id]
      && (stock >= 1 ==> r[id] <= stock)
      && (1 <= n <= stock ==> r[id] == n)
      && (stock >= 1 && n > stock ==> r[id] == stock)
      && (n < 1 || stock < 1 ==> r[id] == 1)
      && forall other | other in quantities && other != id :: other in r && r[other] == quantities[other]
  {
    match FindProduct(products, id)
    case None => quantities
    case Some(p) => quantities[id := Clamp(n, p.stock)]
  }

  /** The picked quantity of a product in stock stays within [1, stock] whatever the buttons do. */
  lemma {:induction false} PickerStaysInRange(products: seq<Product>, quantities: map<ProductId, int>, id: ProductId, n: int)
    requires FindProduct(products, id).Some? && FindProduct(products, id).value.stock >= 1
    ensures 1 <= GetQuantity(UpdateQuantity(products, quantities, id, n), id) <= FindProduct(products, id).value.stock
  {
    var r := UpdateQuantity(products, quantities, id, n);
    assert r[id] >= 1;
  }

  /** What `handleAddToCart` does with a click. */
  datatype AddOutcome =
    | LoginRequired
    | OutOfStock
    | ExceedsStock
    | Added(cart: seq<CartContext.CartLine>, quantities: map<ProductId, int>)

  /**
   * `handleAddToCart`: a visitor must log in first, a product with no stock
   * and a pick above the stock are refused; otherwise the pick goes to the
   * cart and the picker is reset to one.
   */
  function HandleAddToCart(loggedIn: bool, product: Product, quantities: map<ProductId, int>,
                           cart: seq<CartContext.CartLine>): (r: AddOutcome)
    ensures !loggedIn <==> r == LoginRequired
    ensures loggedIn && product.stock == 0 <==> r == OutOfStock
    ensures r.Added? <==> loggedIn && product.stock != 0 && GetQuantity(quantities, product.id) <= product.stock
    ensures r.Added? ==> r.quantities == quantities[product.id := 1]
    ensures r.Added? ==> r.cart == CartContext.AddToCart(cart, product, GetQuantity(quantities, product.id))
  {
    if !loggedIn then LoginRequired
    else if product.stock == 0 then OutOfStock
    else
      var qty := GetQuantity(quantities, product.id);
      if qty > product.stock then ExceedsStock
      else Added(CartContext.AddToCart(cart, product, qty), quantities[product.id := 1])
  }

  /**
   * The page's check looks only at the pick, not at what the cart already
   * holds: here the cart refuses the request, yet the picker is still reset.
   */
  lemma AddedEvenWhenCartRefuses()
    ensures var milk := Product("milk", "Milk", 3000, 2, None, None, None);
      var cart := [CartContext.CartLine(milk, 2)];
      var r := HandleAddToCart(true, milk, map[], cart);
      r.Added? && r.cart == cart && r.quantities["milk"] == 1
  {
    var milk := Product("milk", "Milk", 3000, 2, None, None, None);
    var cart := [CartContext.CartLine(milk, 2)];
    assert CartContext.FindLine(cart, "milk") == Some(0);
  }

  /** Where `x` first occurs in `s`. */
  function FirstIndex(s: seq<string>, x: string): (k: nat)
    requires x in s
    ensures k < |s| && s[k] == x
    ensures forall i | 0 <= i < k :: s[i] != x
  {
    if s[0] == x then 0 else 1 + FirstIndex(s[1..], x)
  }

  /** Dropping the last element keeps the first occurrence of everything still present. */
  lemma FirstIndexOfInit(s: seq<string>, x: string)
    requires s != [] && x in s[..|s| - 1]
    ensures FirstIndex(s, x) == FirstIndex(s[..|s| - 1], x)
  {
    var init := s[..|s| - 1];
    var k, k' := FirstIndex(s, x), FirstIndex(init, x);
    assert s[k'] == init[k'];
    assert k <= k';
    assert init[k] == s[k];
  }

  /** The distinct values, each once, in the order they are first seen (`new Set`). */
  function Distinct(s: seq<string>): (r: seq<string>)
    ensures forall x :: x in r <==> x in s
    ensures forall i, j | 0 <= i < j < |r| :: r[i] != r[j]
    ensures forall i, j | 0 <= i < j < |r| :: FirstIndex(s, r[i]) < FirstIndex(s, r[j])
  {
    if s == [] then []
    else
      var init, last := s[..|s| - 1], s[|s| - 1];
      var d := Distinct(init);
      assert forall x :: x in s <==> x in init || x == last;
      assert forall x | x in init :: FirstIndex(s, x) == FirstIndex(init, x) by {
        forall x | x in init {
          FirstIndexOfInit(s, x);
        }
      }
      if last in d then d
      else
        assert FirstIndex(s, last) == |s| - 1;
        d + [last]
  }

  /** The truthy categories of the catalogue, in catalogue order. */
  function PresentCategories(products: seq<Product>): (r: seq<string>)
    ensures forall c :: c in r <==> c != [] && exists i | 0 <= i < |products| :: products[i].category == Some(c)
  {
    if products == [] then []
    else
      var c := products[0].category;
      var rest := PresentCategories(products[1..]);
      assert forall i | 1 <= i < |products| :: products[i] == products[1..][i - 1];
      if c.Some? && c.value != [] then [c.value] + rest else rest
  }

  /** Some product of category `a` comes before every product of category `b`. */
  predicate SeenBefore(products: seq<Product>, a: string, b: string) {
    exists k | 0 <= k < |products| ::
      products[k].category == Some(a) && forall m | 0 <= m <= k :: products[m].category != Some(b)
  }

  /** A product of another category in front keeps `a` seen before `b`. */
  lemma SeenBeforeShift(products: seq<Product>, a: string, b: string)
    requires products != [] && products[0].category != Some(b)
    requires SeenBefore(products[1..], a, b)
    ensures SeenBefore(products, a, b)
  {
    var tail := products[1..];
    var k :| 0 <= k < |tail| && tail[k].category == Some(a) && forall m | 0 <= m <= k :: tail[m].category != Some(b);
    assert products[k + 1] == tail[k];
    forall m | 0 <= m <= k + 1
      ensures products[m].category != Some(b)
    {
      if m > 0 {
        assert products[m] == tail[m - 1];
      }
    }
  }

  /** The truthy categories keep the catalogue's order: an earlier first occurrence is an earlier product. */
  lemma {:induction false} PresentCategoriesOrder(products: seq<Product>, a: string, b: string)
    requires a in PresentCategories(products) && b in PresentCategories(products)
    requires FirstIndex(PresentCategories(products), a) < FirstIndex(PresentCategories(products), b)
    ensures SeenBefore(products, a, b)
  {
    var present := PresentCategories(products);
    var c := products[0].category;
    var rest := PresentCategories(products[1..]);
    if c == Some(a) && a != [] {
      assert present == [a] + rest;
      assert products[0].category == Some(a);
    } else if c.Some? && c.value != [] {
      assert present == [c.value] + rest;
      assert FirstIndex(present, a) == 1 + FirstIndex(rest, a);
      assert FirstIndex(present, b) == 1 + FirstIndex(rest, b);
      PresentCategoriesOrder(products[1..], a, b);
      SeenBeforeShift(products, a, b);
    } else {
      assert present == rest;
      PresentCategoriesOrder(products[1..], a, b);
      SeenBeforeShift(products, a, b);
    }
  }

  /** `categories`: `all`, then each truthy category once, in the order the catalogue first shows it. */
  function Categories(products: seq<Product>): (r: seq<string>)
    ensures |r| >= 1 && r[0] == "all"
    ensures forall c :: c in r[1..] <==> c != [] && exists i | 0 <= i < |products| :: products[i].category == Some(c)
    ensures forall i, j | 1 <= i < j < |r| :: r[i] != r[j]
    ensures forall i, j | 1 <= i < j < |r| :: SeenBefore(products, r[i], r[j])
  {
    var d := Distinct(PresentCategories(products));
    CategoriesInOrder(products, d);
    assert (["all"] + d)[1..] == d;
    ["all"] + d
  }

  lemma CategoriesInOrder(products: seq<Product>, d: seq<string>)
    requires d == Distinct(PresentCategories(products))
    ensures forall i, j | 0 <= i < j < |d| :: SeenBefore(products, d[i], d[j])
  {
    forall i, j | 0 <= i < j < |d|
      ensures SeenBefore(products, d[i], d[j])
    {
      PresentCategoriesOrder(products, d[i], d[j]);
    }
  }
}
