/** The storefront's order record, as the webhook delivers it and the order
    lookups return it. Leaf fields keep their JavaScript values because the
    translation tests them for truthiness and prints them with `String(...)`. */
module Orders {
  import opened Wrappers
  import opened Js

  datatype Customer = Customer(firstName: Value, lastName: Value, email: Value)

  datatype ShippingAddress = ShippingAddress(
    firstName: Value,
    lastName: Value,
    address1: Value,
    address2: Value,
    city: Value,
    province: Value,
    countryCode: Value)

  /** One ordered line; the storefront reports quantities as integers. */
  datatype LineItem = LineItem(title: Value, sku: Value, variantId: Value, quantity: int, price: Value)

  /** `customer`, `shipping_address` and `line_items` are `None` when absent or falsy. */
  datatype Order = Order(
    id: Value,
    name: Value,
    currency: Value,
    customer: Option<Customer>,
    shippingAddress: Option<ShippingAddress>,
    lineItems: Option<seq<LineItem>>)
}
