/** The product catalog: an external, read-only collaborator of the cart. */
module Catalog {
  type ProductId = int

  /** A product as the cart sees it. Prices are integer cents and never negative. */
  datatype Product = Product(id: ProductId, name: string, price: nat)

  /** The products table, keyed by product id. */
  type Products = map<ProductId, Product>

  /** Every product is stored under its own id. */
  predicate WellFormed(catalog: Products) {
    forall id :: id in catalog ==> catalog[id].id == id
  }
}
