/**
 * The search box of the navigation bar (frontend/src/components/Navbar.jsx):
 * the suggestion list, the search route, and the stock badge of a suggestion.
 */
module Navbar {
  import opened Wrappers
  import opened Text
  import opened ProductModel

  /** Where the page navigates: the catalogue, or the catalogue with a search term. */
  datatype Route = Home | Search(term: string)

  /** What the search box shows. */
  datatype SearchBox = SearchBox(query: string, suggestions: seq<Product>, showSuggestions: bool, route: Route)

  /** The most suggestions shown. */
  const MaxSuggestions: nat := 5

  /** A suggestion's lower-cased name or category includes the lower-cased query, as typed. */
  predicate MatchesQuery(p: Product, query: string): (b: bool)
    ensures query == [] ==> b
    ensures b ==> |query| <= |p.name| || (p.category.Some? && |query| <= |p.category.value|)
  {
    ContainsTrivial(ToLower(p.name));
    if Contains(ToLower(p.name), ToLower(query)) then
      ContainsLength(ToLower(p.name), ToLower(query));
      true
    else if p.category.Some? && Contains(ToLower(p.category.value), ToLower(query)) then
      ContainsLength(ToLower(p.category.value), ToLower(query));
      true
    else false
  }

  /** The matching products, in catalogue order. */
  function Matches(products: seq<Product>, query: string): (r: seq<Product>)
    ensures forall p :: p in r <==> p in products && MatchesQuery(p, query)
    ensures |r| <= |products|
  {
    if products == [] then []
    else (if MatchesQuery(products[0], query) then [products[0]] else []) + Matches(products[1..], query)
  }

  /** Matching is piecewise, so the matches keep catalogue order. */
  lemma {:induction false} MatchesAppend(a: seq<Product>, b: seq<Product>, query: string)
    ensures Matches(a + b, query) == Matches(a, query) + Matches(b, query)
  {
    if a != [] {
      var head := if MatchesQuery(a[0], query) then [a[0]] else [];
      var ab := a + b;
      assert ab[0] == a[0] && ab[1..] == a[1..] + b;
      MatchesAppend(a[1..], b, query);
      assert Matches(ab, query) == head + Matches(a[1..] + b, query);
      assert Matches(a, query) == head + Matches(a[1..], query);
    } else {
      assert a + b == b;
    }
  }

  /**
   * The suggestions for a query: none and hidden when the trimmed query is
   * empty, else the first five matches of the query as typed, shown.
   */
  function Suggestions(products: seq<Product>, query: string): (r: (seq<Product>, bool))
    ensures IsBlank(query) <==> !r.1
    ensures IsBlank(query) ==> r.0 == []
    ensures |r.0| <= MaxSuggestions
    ensures forall p | p in r.0 :: p in products && MatchesQuery(p, query)
    ensures !IsBlank(query) ==> r.0 <= Matches(products, query)
    ensures !IsBlank(query) && |Matches(products, query)| <= MaxSuggestions ==> r.0 == Matches(products, query)
    ensures !IsBlank(query) ==>
      |r.0| == if |Matches(products, query)| <= MaxSuggestions then |Matches(products, query)| else MaxSuggestions
  {
    TrimEmptyIffBlank(query);
    if |Trim(query)| > 0 then
      var m := Matches(products, query);
      var r := if |m| <= MaxSuggestions then m else m[..MaxSuggestions];
      assert forall p | p in r :: p in m;
      (r, true)
    else ([], false)
  }

  /** "Milk" does not include "milk " once both are lower-cased: the query is longer than the name. */
  lemma MilkMissesSpacedQuery(milk: Product)
    requires milk.name == "Milk" && milk.category.None?
    ensures !MatchesQuery(milk, "milk ")
  {
    assert |ToLower(milk.name)| < |ToLower("milk ")|;
    if Contains(ToLower(milk.name), ToLower("milk ")) {
      ContainsLength(ToLower(milk.name), ToLower("milk "));
    }
  }

  /** Trimming "milk " drops the one trailing space. */
  lemma TrimMilkSpace()
    ensures Trim("milk ") == "milk"
  {
    var spaced, word := "milk ", "milk";
    assert !IsSpace(spaced[0]);
    assert TrimStart(spaced) == spaced;
    assert IsSpace(spaced[4]) && spaced[..4] == word;
    assert TrimEnd(spaced) == TrimEnd(word);
    assert !IsSpace(word[3]);
    assert TrimEnd(word) == word;
  }

  /**
   * The suggestions match the query untrimmed, so a trailing space can hide a
   * product that the search itself (which trims) would find.
   */
  lemma TrailingSpaceHidesMatch()
    ensures var milk := Product("m1", "Milk", 3000, 10, None, None, None);
      && Suggestions([milk], "milk ") == ([], true)
      && Trim("milk ") == "milk"
  {
    var milk := Product("m1", "Milk", 3000, 10, None, None, None);
    MilkMissesSpacedQuery(milk);
    assert [milk][1..] == [];
    assert Matches([milk], "milk ") == [];
    assert !IsSpace("milk "[0]);
    TrimMilkSpace();
  }

  /** `handleSearch`: to the trimmed term when there is one, else to the catalogue; suggestions close. */
  function HandleSearch(box: SearchBox): (r: SearchBox)
    ensures r.route == Home <==> IsBlank(box.query)
    ensures r.route.Search? ==> r.route.term == Trim(box.query)
    ensures r.query == box.query && !r.showSuggestions
  {
    TrimEmptyIffBlank(box.query);
    if Trim(box.query) != [] then box.(route := Search(Trim(box.query)), showSuggestions := false)
    else box.(route := Home, showSuggestions := false)
  }

  /** `handleSuggestionClick`: the query becomes the product's name and the page searches for it. */
  function HandleSuggestionClick(box: SearchBox, name: string): (r: SearchBox)
    ensures r.query == name && r.route == Search(name) && !r.showSuggestions
    ensures r.suggestions == box.suggestions
  {
    box.(query := name, route := Search(name), showSuggestions := false)
  }

  /** `clearSearch`: an empty query, no suggestions shown, back to the catalogue. */
  function ClearSearch(box: SearchBox): (r: SearchBox)
    ensures r.query == [] && !r.showSuggestions && r.route == Home
  {
    box.(query := "", showSuggestions := false, route := Home)
  }

  /** A cleared box searches for nothing: pressing search then stays on the catalogue. */
  lemma ClearedSearchGoesHome(box: SearchBox)
    ensures HandleSearch(ClearSearch(box)).route == Home
  {
  }

  /** The badge of a suggestion. */
  datatype StockBadge = FewLeft(count: int) | SoldOut | NoBadge

  /** A stock of one to five shows how many are left, none shows out of stock. */
  function GetStockBadge(stock: int): (r: StockBadge)
    ensures r.FewLeft? <==> 0 < stock <= 5
    ensures r.FewLeft? ==> r.count == stock
    ensures r == SoldOut <==> stock == 0
  {
    if stock <= 5 && stock > 0 then FewLeft(stock)
    else if stock == 0 then SoldOut
    else NoBadge
  }
}
