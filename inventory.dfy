/** The records shared by the point-of-sale screen and the product catalog screen. */
module Inventory {

  datatype Option<+T> = None | Some(value: T)

  /** The units a product can be sold in (the catalog form's unit selector). */
  datatype Unit = Piece | Kg | G | Liter | Ml | Bottle | HalfBottle | QuarterBottle

  /** A priced, dated lot of one product. `expiry` is the ISO date as an order-preserving day key;
      `quantity` is what `Number.parseInt` stored, `price` what `Number.parseFloat` stored. */
  datatype Batch = Batch(id: string, batchNumber: string, expiry: int, quantity: int, price: real)

  /** A catalog entry. Every product owns its ordered list of batches. */
  datatype Product = Product(
    id: string,
    name: string,
    unit: Unit,
    category: string,
    barcode: string,
    imageUrl: string,
    batches: seq<Batch>)

  /** A customer of the store-credit payment method. */
  datatype Customer = Customer(id: string, name: string, phone: string)
}
