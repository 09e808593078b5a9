/** The records the storefront exchanges with its backend and between its
    components. Prices and totals are whole cents. */
module Store {
  import opened Wrappers

  /** A colour-specific version of a shoe; `sizes` is a comma-separated list. */
  datatype Variant = Variant(id: int, color: string, image: string, sizes: string)

  /** A shoe as the backend returns it from `GET /shoes/{id}/`. */
  datatype Product = Product(id: int, name: string, price: int, description: string, variants: seq<Variant>)

  /** A product handed to the cart by "Add to Cart": the product's own fields
      (`id`, `name`, `price`, `description`, `variants`) plus the selection. */
  datatype CartItem = CartItem(
    id: int, name: string, price: int, description: string, variants: seq<Variant>,
    backendId: int, selectedColor: string, selectedSize: string,
    variantId: Option<int>, image: string)

  /** One line of the body of `POST /orders/`; an absent `variant` is left out
      of the JSON. */
  datatype OrderLine = OrderLine(shoe: int, variant: Option<int>, size: string, quantity: int)

  /** The body of `POST /orders/`. */
  datatype OrderRequest = OrderRequest(clientName: string, email: string, phone: string, total: int, items: seq<OrderLine>)

  /** What the order endpoint answered: a 2xx with the new order's id, or
      anything else (a non-2xx status or a network error). */
  datatype OrderOutcome = Accepted(orderId: int) | Rejected

  /** The message both order forms show after a failed submission. */
  const RetryMessage: string := "Failed to submit order. Please try again."
}
