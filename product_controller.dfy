/**
 * The product controller (backend/controllers/productController.js):
 * cache-aside reads of the full listing under one key, and writes that drop
 * every listing key from the cache.
 */
module ProductController {
  import opened Wrappers
  import opened Ids
  import opened ProductModel
  import opened Database

  /** The one key the listing is read from and cached under. */
  const ListingKey: string := "products:all"

  /** The prefix matched by the `products:*` pattern. */
  const ListingPrefix: string := "products:"

  predicate IsListingKey(k: string) {
    |ListingPrefix| <= |k| && k[..|ListingPrefix|] == ListingPrefix
  }

  /** The cache after deleting every key that matches `products:*`. */
  function InvalidateListings(cache: map<string, map<ProductId, Product>>): (r: map<string, map<ProductId, Product>>)
    ensures forall k :: k in r <==> k in cache && !IsListingKey(k)
    ensures forall k | k in r :: r[k] == cache[k]
  {
    map k | k in cache && !IsListingKey(k) :: cache[k]
  }

  /** What a listing read serves: the cached listing if there is one, else the collection. */
  function ServedListing(cache: map<string, map<ProductId, Product>>, products: map<ProductId, Product>): map<ProductId, Product> {
    if ListingKey in cache then cache[ListingKey] else products
  }

  /** After invalidation a read always reflects the collection. */
  lemma InvalidatedReadIsFresh(cache: map<string, map<ProductId, Product>>, products: map<ProductId, Product>)
    ensures ServedListing(InvalidateListings(cache), products) == products
  {
    assert IsListingKey(ListingKey);
  }

  /**
   * `getProducts`: on a hit the cached listing is returned and the collection
   * is not consulted; on a miss the collection is read, cached and returned.
   */
  method GetProducts(db: Db) returns (r: map<ProductId, Product>)
    modifies db`cache
    ensures r == ServedListing(old(db.cache), db.products)
    ensures ListingKey in old(db.cache) ==> db.cache == old(db.cache)
    ensures ListingKey !in old(db.cache) ==> db.cache == old(db.cache)[ListingKey := db.products]
  {
    if ListingKey in db.cache {
      return db.cache[ListingKey];
    }
    r := db.products;
    db.cache := db.cache[ListingKey := r];
  }

  /** The fields a product update may carry; an absent field is left as it is. */
  datatype ProductPatch = ProductPatch(
    name: Option<string>,
    price: Option<int>,
    stock: Option<int>,
    category: Option<string>,
    description: Option<string>,
    minStockLevel: Option<int>)

  /**
   * The update of `findByIdAndUpdate` with the request body: every field the
   * body carries replaces the stored one, every absent field keeps its value.
   */
  function ApplyPatch(p: Product, patch: ProductPatch): (r: Product)
    ensures r.id == p.id
    ensures patch == ProductPatch(None, None, None, None, None, None) ==> r == p
    ensures r.name == if patch.name.Some? then patch.name.value else p.name
    ensures r.price == if patch.price.Some? then patch.price.value else p.price
    ensures r.stock == if patch.stock.Some? then patch.stock.value else p.stock
    ensures r.category == if patch.category.Some? then patch.category else p.category
    ensures r.description == if patch.description.Some? then patch.description else p.description
    ensures r.minStockLevel == if patch.minStockLevel.Some? then patch.minStockLevel else p.minStockLevel
  {
    p.(name := patch.name.GetOr(p.name),
       price := patch.price.GetOr(p.price),
       stock := patch.stock.GetOr(p.stock),
       category := if patch.category.Some? then patch.category else p.category,
       description := if patch.description.Some? then patch.description else p.description,
       minStockLevel := if patch.minStockLevel.Some? then patch.minStockLevel else p.minStockLevel)
  }

  /** Sending the same update twice leaves the product as the first one did. */
  lemma ApplyPatchIdempotent(p: Product, patch: ProductPatch)
    ensures ApplyPatch(ApplyPatch(p, patch), patch) == ApplyPatch(p, patch)
  {
  }

  /** `createProduct`: stores the new product under its fresh id and drops the listings. */
  method CreateProduct(db: Db, p: Product) returns (res: Response<Product>)
    requires p.id !in db.products
    modifies db`products, db`cache
    ensures db.products == old(db.products)[p.id := p]
    ensures db.cache == InvalidateListings(old(db.cache))
    ensures res == Success(201, p)
  {
    db.products := db.products[p.id := p];
    db.cache := InvalidateListings(db.cache);
    res := Success(201, p);
  }

  /** `updateProduct`: 404 for an unknown id, with nothing changed. */
  method UpdateProduct(db: Db, id: ProductId, patch: ProductPatch) returns (res: Response<Product>)
    modifies db`products, db`cache
    ensures id !in old(db.products) ==>
      res == Failure(404) && db.products == old(db.products) && db.cache == old(db.cache)
    ensures id in old(db.products) ==>
      var p := ApplyPatch(old(db.products)[id], patch);
      && res == Success(200, p)
      && db.products == old(db.products)[id := p]
      && db.cache == InvalidateListings(old(db.cache))
  {
    if id !in db.products {
      return Failure(404);
    }
    var p := ApplyPatch(db.products[id], patch);
    db.products := db.products[id := p];
    db.cache := InvalidateListings(db.cache);
    res := Success(200, p);
  }

  /** `deleteProduct`: 404 for an unknown id, with nothing changed. */
  method DeleteProduct(db: Db, id: ProductId) returns (res: Response<()>)
    modifies db`products, db`cache
    ensures id !in old(db.products) ==>
      res == Failure(404) && db.products == old(db.products) && db.cache == old(db.cache)
    ensures id in old(db.products) ==>
      && res == Success(200, ())
      && db.products == old(db.products) - {id}
      && db.cache == InvalidateListings(old(db.cache))
  {
    if id !in db.products {
      return Failure(404);
    }
    db.products := db.products - {id};
    db.cache := InvalidateListings(db.cache);
    res := Success(200, ());
  }

  /** `uploadImage`: refuses a request without a file; otherwise returns the stored path. */
  function UploadImage(file: Option<string>): (res: Response<string>)
    ensures file.None? <==> res == Failure(400)
    ensures file.Some? ==> res == Success(200, file.value)
  {
    match file
    case None => Failure(400)
    case Some(path) => Success(200, path)
  }
}
