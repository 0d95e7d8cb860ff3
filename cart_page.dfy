/** The cart page: the totals it displays, the free-shipping hint, and the
    calls its buttons make on the cart store. */
module CartPage {
  import opened Seqs
  import opened CartStore
  import Pricing

  /** The figures in the order summary. */
  datatype Totals = Totals(subtotal: real, shipping: real, tax: real, total: real)

  /** What the page renders: the empty-cart view, or the lines with the
      summary and, below 35, the amount still missing for free shipping. */
  datatype CartView =
    | EmptyCart
    | Summary(lines: seq<CartLine>, totals: Totals, freeShippingHint: Option<real>)

  /** The page's own copy of the total formula; it is the checkout page's rule. */
  function PageTotals(subtotal: real): (t: Totals)
    ensures t.subtotal == subtotal
    ensures t.shipping == Pricing.Shipping(subtotal)
    ensures t.tax == Pricing.Tax(subtotal)
    ensures t.total == Pricing.FinalTotal(subtotal)
  {
    var shipping := if subtotal > 35.0 then 0.0 else 5.99;
    var tax := subtotal * 0.08;
    Totals(subtotal, shipping, tax, subtotal + shipping + tax)
  }

  /** The hint "Add $x more for FREE shipping!": shown exactly below 35, with a
      positive amount that brings the subtotal up to 35. */
  function FreeShippingHint(subtotal: real): (hint: Option<real>)
    ensures hint.Some? <==> subtotal < Pricing.FreeShippingThreshold
    ensures hint.Some? ==> hint.value > 0.0 && subtotal + hint.value == Pricing.FreeShippingThreshold
  {
    if subtotal < 35.0 then Some(35.0 - subtotal) else None
  }

  /** An empty items list renders the empty-cart view; otherwise the summary. */
  function Render(items: seq<CartLine>, subtotal: real): (v: CartView)
    ensures v.EmptyCart? <==> items == []
    ensures v.Summary? ==> v.lines == items && v.totals.total == Pricing.FinalTotal(subtotal)
    ensures v.Summary? ==> (v.freeShippingHint.Some? <==> subtotal < Pricing.FreeShippingThreshold)
  {
    if |items| == 0 then EmptyCart
    else Summary(items, PageTotals(subtotal), FreeShippingHint(subtotal))
  }

  /** Whenever the hint shows, shipping is charged. */
  lemma HintOnlyWhenShippingCharged(subtotal: real)
    ensures FreeShippingHint(subtotal).Some? ==> PageTotals(subtotal).shipping == Pricing.FlatShipping
  {
  }

  /** At exactly 35 the hint is gone yet shipping is still charged; and adding
      the hinted amount to any smaller subtotal lands exactly there. */
  lemma HintBoundaryDiffersFromShipping(subtotal: real)
    requires subtotal < Pricing.FreeShippingThreshold
    ensures FreeShippingHint(35.0) == None && PageTotals(35.0).shipping == 5.99
    ensures PageTotals(subtotal + FreeShippingHint(subtotal).value).shipping == Pricing.FlatShipping
  {
  }

  /** The effect of a handler: the store calls it makes and the toast it shows. */
  datatype Reaction = Reaction(calls: seq<StoreCall>, toast: Option<string>)

  /** `handleUpdateQuantity`: forwards the new quantity to the store, and
      announces a removal only when that quantity is exactly 0. */
  function HandleUpdateQuantity(id: string, newQuantity: int): (r: Reaction)
    ensures r.calls == [UpdateQuantity(id, newQuantity)]
    ensures r.toast.Some? <==> newQuantity == 0
  {
    Reaction([UpdateQuantity(id, newQuantity)],
             if newQuantity == 0 then Some("Item removed from cart") else None)
  }

  /** `handleRemoveItem`. */
  function HandleRemoveItem(id: string): (r: Reaction)
    ensures r.calls == [RemoveFromCart(id)] && r.toast.Some?
  {
    Reaction([RemoveFromCart(id)], Some("Item removed from cart"))
  }

  /** `handleClearCart`. */
  function HandleClearCart(): (r: Reaction)
    ensures r.calls == [ClearCart] && r.toast.Some?
  {
    Reaction([ClearCart], Some("Cart cleared"))
  }

  /** The minus button of a line. */
  function MinusPressed(line: CartLine): Reaction
  {
    HandleUpdateQuantity(line.item.id, line.quantity - 1)
  }

  /** The plus button of a line. */
  function PlusPressed(line: CartLine): Reaction
  {
    HandleUpdateQuantity(line.item.id, line.quantity + 1)
  }

  /** Minus asks for one unit fewer and plus for one more, of that line only;
      only the minus button on a single unit announces a removal. */
  lemma QuantityButtons(line: CartLine)
    requires line.quantity >= 1
    ensures MinusPressed(line).calls == [UpdateQuantity(line.item.id, line.quantity - 1)]
    ensures PlusPressed(line).calls == [UpdateQuantity(line.item.id, line.quantity + 1)]
    ensures MinusPressed(line).toast.Some? <==> line.quantity == 1
    ensures PlusPressed(line).toast.None?
  {
  }
}
