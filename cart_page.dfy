/**
 * The cart page (src/pages/Cart.tsx): the order summary computed from the
 * cart's lines and total price, and the quantity requests its buttons send.
 * The cart store itself is not part of this model: its lines and its total
 * price are inputs here.
 */
module CartPage {

  /** A cart line as the page reads it. */
  datatype CartLine = CartLine(id: int, name: string, price: int, image: string, quantity: int)

  const FreeShippingAbove: int := 2000
  const ShippingFee: int := 99

  /** Shipping in rupees: free above 2000, else 99. */
  function Shipping(subtotal: int): int
  {
    if subtotal > FreeShippingAbove then 0 else ShippingFee
  }

  function Total(subtotal: int): int
  {
    subtotal + Shipping(subtotal)
  }

  /**
   * Shipping is free exactly above 2000, so the total exceeds the subtotal by
   * 0 or 99; crossing the threshold can lower the total (2000 costs 2099,
   * 2001 costs 2001).
   */
  lemma ShippingThreshold(subtotal: int)
    ensures Shipping(subtotal) == 0 <==> subtotal > 2000
    ensures Total(subtotal) - subtotal in {0, 99}
    ensures Total(2000) == 2099 && Total(2001) == 2001
  {
  }

  /** A line's displayed amount. */
  function LineAmount(line: CartLine): int
  {
    line.price * line.quantity
  }

  /** What the page shows: the empty-cart view, or the lines with their amounts and the summary. */
  datatype CartView =
    | EmptyCart
    | Summary(amounts: seq<int>, subtotal: int, shipping: int, total: int)

  function View(lines: seq<CartLine>, totalPrice: int): CartView
  {
    if |lines| == 0 then EmptyCart
    else Summary(seq(|lines|, i requires 0 <= i < |lines| => LineAmount(lines[i])),
                 totalPrice, Shipping(totalPrice), Total(totalPrice))
  }

  /**
   * An empty cart shows the empty view and no totals; otherwise there is one
   * amount per line, price times quantity, and the summary is the cart's
   * total price plus shipping.
   */
  lemma ViewCases(lines: seq<CartLine>, totalPrice: int)
    ensures View(lines, totalPrice).EmptyCart? <==> lines == []
    ensures View(lines, totalPrice).Summary? ==>
              var v := View(lines, totalPrice);
              |v.amounts| == |lines| &&
              (forall i :: 0 <= i < |lines| ==> v.amounts[i] == lines[i].price * lines[i].quantity) &&
              v.subtotal == totalPrice && v.total == v.subtotal + v.shipping &&
              (v.shipping == 0 <==> totalPrice > 2000)
  {
  }

  /** The call a quantity button makes: the cart's `updateQuantity(id, quantity)`. */
  datatype QuantityRequest = QuantityRequest(id: int, quantity: int)

  function MinusRequest(line: CartLine): QuantityRequest
  {
    QuantityRequest(line.id, line.quantity - 1)
  }

  function PlusRequest(line: CartLine): QuantityRequest
  {
    QuantityRequest(line.id, line.quantity + 1)
  }

  /**
   * The buttons ask for one less and one more for the line's own id, without
   * clamping: minus on a single item asks for 0.
   */
  lemma RequestsStepByOne(line: CartLine)
    ensures MinusRequest(line).id == line.id && PlusRequest(line).id == line.id
    ensures PlusRequest(line).quantity - MinusRequest(line).quantity == 2
    ensures MinusRequest(line).quantity < line.quantity < PlusRequest(line).quantity
    ensures line.quantity == 1 ==> MinusRequest(line).quantity == 0
  {
  }
}
