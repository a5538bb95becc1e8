/**
 * A catalogue product as the API hands it out and the client keeps it. The
 * product schema itself (backend/models/Product.js) is not part of this model;
 * the fields are the ones the controllers, the seed data and the pages use.
 */
module ProductModel {
  import opened Wrappers
  import opened Ids

  datatype Product = Product(
    id: ProductId,
    name: string,
    price: int,
    stock: int,
    category: Option<string>,
    description: Option<string>,
    minStockLevel: Option<int>)
}
