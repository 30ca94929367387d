/** The cart of a new order: its line items, the amount of a line (which
    the cart table shows per row) and the cart total the new-order form shows. */
module OrderCart {
  import opened Common

  /** One cart line: the product and its supplier (nested records), a size,
      and a price in cents and a quantity, either of which may be missing. */
  datatype CartItem = CartItem(id: int, product: Value, supplier: Value, size: string,
                               price: Option<int>, quantity: Option<int>)

  /** The cart line as the record the edit form reads. */
  function AsRecord(x: CartItem): Values {
    map["id" := Num(x.id), "product" := x.product, "supplier" := x.supplier, "size" := Str(x.size),
        "price" := AmountValue(x.price), "quantity" := AmountValue(x.quantity)]
  }

  function AmountValue(a: Option<int>): Value {
    if a.Some? then Num(a.value) else Nil
  }

  /** One line's amount: its price times its quantity, a missing amount
      counting as 0. The cart total reads `Number(price || 0) * Number(quantity || 0)`
      and the cart table's row `Number(price) * Number(quantity)`; with the
      null the API sends for a missing amount the two agree. */
  function LineAmount(x: CartItem): int {
    OrZero(x.price) * OrZero(x.quantity)
  }

  /** The cart total of the new-order form: the lines' amounts added up; it
      is not negative when no price or quantity is, and 0 when every line
      misses its price or its quantity. */
  function CartSum(items: seq<CartItem>): (r: int)
    ensures (forall i :: 0 <= i < |items| ==> OrZero(items[i].price) >= 0 && OrZero(items[i].quantity) >= 0) ==> r >= 0
    ensures (forall i :: 0 <= i < |items| ==> items[i].price.None? || items[i].quantity.None?) ==> r == 0
  {
    SumBounds(items, LineAmount);
    Sum(items, LineAmount)
  }

  /** Adding a line adds its amount to the cart total. */
  lemma CartSumOfAdd(items: seq<CartItem>, x: CartItem)
    ensures CartSum(items + [x]) == CartSum(items) + LineAmount(x)
  {
    assert (items + [x])[..|items + [x]| - 1] == items;
  }
}
