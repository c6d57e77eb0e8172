/**
 * The rows of the store's product table and the constraints the schema
 * declares on it (backend/src/scripts/migrate.js). Prices are exact reals.
 */
module Schema {
  import opened Wrappers

  type ProductId = string
  type UserId = string

  datatype ProductRow = ProductRow(
    name: string,
    brand: string,
    description: Option<string>,
    price: real,
    discount: int,
    category: string,
    gender: string,
    stockQuantity: int,
    inStock: bool)

  /** The CHECK constraint on `category`. */
  predicate ValidCategory(c: string) { c == "optical" || c == "sunglasses" }

  /** The CHECK constraint on `gender`. */
  predicate ValidGender(g: string) { g == "men" || g == "women" || g == "unisex" }

  /** `in_stock` agrees with `stock_quantity > 0` on every product. */
  ghost predicate InStockConsistent(products: map<ProductId, ProductRow>)
  {
    forall id :: id in products ==> products[id].inStock == (products[id].stockQuantity > 0)
  }
}
