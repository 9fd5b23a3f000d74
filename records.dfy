/**
 * The records of the shop's local database (the `products`, `sales` and `jobs`
 * stores declared at app.js:3-7) and the store itself, abstracted as a map from
 * product id to product and the sequence of recorded sales. Money is in cents.
 */
module Records {
  import opened Wrappers

  datatype Product = Product(
    id: int,
    name: string,
    barcode: string,       // "" when the product has none
    category: string,
    costPrice: int,
    sellingPrice: int,
    stockQuantity: int,    // no floor: overselling drives it negative
    dateAdded: int)

  /** One cart line; its name and price are snapshots taken when it was added. */
  datatype Line = Line(productId: int, name: string, price: int, quantity: int, total: int)

  datatype Sale = Sale(
    date: int,
    items: seq<Line>,
    subTotal: int,
    discount: int,
    totalAmount: int,      // subTotal - discount, stored without clamping
    paymentMethod: string)

  datatype Job = Job(
    id: int,
    customerName: string,
    contact: string,
    jobType: string,
    totalAmount: int,
    advance: Option<int>,  // None: the record has no usable advance
    status: string,
    deadline: string,
    dateCreated: int)

  /** The persistent store, as far as checkout touches it. */
  class Store {
    var products: map<int, Product>
    var sales: seq<Sale>

    constructor (products: map<int, Product>, sales: seq<Sale>)
      ensures this.products == products && this.sales == sales
    {
      this.products := products;
      this.sales := sales;
    }
  }
}
