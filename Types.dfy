/**
 * The entities of the storefront's shopping domain (src/types/index.ts),
 * restricted to the fields the cart, checkout and catalog logic reads.
 * Prices and quantities are whole numbers; the tax is an exact real.
 */
module Types {

  datatype Option<T> = None | Some(value: T)

  /** `deliveryInfo` of a product: free or paid, and the estimated days. */
  datatype DeliveryInfo = DeliveryInfo(freeDelivery: bool, estimatedDays: int)

  /**
   * A catalog record. `stockCount`, `images` and `deliveryInfo` are optional
   * in the catalog store, hence `Option`.
   */
  datatype Product = Product(
    id: string,
    name: string,
    description: string,
    price: int,
    category: string,
    inStock: bool,
    stockCount: Option<int>,
    image: string,
    images: Option<seq<string>>,
    deliveryInfo: Option<DeliveryInfo>)

  /** One line of the cart: a product record and how many of it. */
  datatype CartItem = CartItem(product: Product, quantity: int)

  /** A delivery address; the form keeps the optional landmark as a string that may be empty. */
  datatype Address = Address(
    name: string,
    email: string,
    phone: string,
    street: string,
    city: string,
    state: string,
    pincode: string,
    landmark: string)

  /** One line of an invoice. */
  datatype InvoiceItem = InvoiceItem(productName: string, quantity: int, price: int, total: int)

  /** The five order states an invoice can carry. */
  datatype OrderStatus = Pending | Confirmed | Shipped | Delivered | Cancelled

  datatype Invoice = Invoice(
    id: string,
    orderDate: int,
    items: seq<InvoiceItem>,
    subtotal: int,
    gst: real,
    total: real,
    address: Address,
    paymentMethod: string,
    orderStatus: OrderStatus)

  /** The signed-in user as the identity provider reports it. */
  datatype User = User(uid: string, email: string, displayName: Option<string>)

  /** What a handler asks the router to do: stay on the page or go to a path. */
  datatype Navigation = Stay | GoTo(path: string)
}
