/** The rows the pages read from and write to the hosted database, shaped
    like the types of src/lib/supabase.ts and of the Sales page, with the
    columns the pages use beyond those types (size, price_per_piece,
    pieces_per_box, the payment columns of a bill). Money is exact. */
module Records {
  import opened Base

  /** A catalogue entry; `quantity` counts single pieces. */
  datatype Item = Item(
    id: string,
    itemCode: string,
    itemName: string,
    make: string,
    brandName: string,
    size: string,
    purchasePrice: real,
    sellingPrice: real,
    pricePerPiece: real,
    supplierCode: string,
    quantity: int,
    piecesPerBox: int)

  /** An item snapshot in the cart together with the pieces being sold. */
  datatype CartLine = CartLine(item: Item, cartQuantity: int)

  datatype PaymentStatus = Paid | Pending

  datatype PaymentMethod = Cash | Online | UdhaarMethod

  /** A row of the `bills` table. */
  datatype Bill = Bill(
    id: string,
    totalAmount: real,
    discountAmount: real,
    finalAmount: real,
    customerName: Option<string>,
    customerPhone: Option<string>,
    paymentStatus: PaymentStatus,
    paymentMethod: PaymentMethod)

  /** One line of a bill as the Sales page reads it back. */
  datatype SoldItem = SoldItem(quantity: int, priceAtSale: real, itemName: string)

  /** A bill joined with its lines, as the Sales page fetches it. */
  datatype SalesBill = SalesBill(
    id: string,
    finalAmount: real,
    paymentMethod: PaymentMethod,
    paymentStatus: PaymentStatus,
    customerName: Option<string>,
    billItems: seq<SoldItem>)
}
