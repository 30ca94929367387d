/** The cart table of a new order: its rows, its line totals, and the
    selection state machine that opens the cart-line modal and sends the
    create, update and delete requests of cart lines. */
module CartProducts {
  import opened Common
  import opened OrderCart
  import opened ItemPages

  /** The page state of the cart table, wired to the cart-line requests. */
  method NewCartTable() returns (p: ItemPage)
    ensures fresh(p)
    ensures p.create == CreateOrderCartItem && p.update == UpdateOrderCartItem && p.delete == DeleteOrderCartItem
    ensures p.item == None && !p.formModal && !p.deleteModal && p.dispatched == []
  {
    p := new ItemPage(CreateOrderCartItem, UpdateOrderCartItem, DeleteOrderCartItem);
  }

  /** A cart line as the record the page selects. */
  function AsItem(x: CartItem): (r: Item)
    ensures r.id == x.id && r.fields == AsRecord(x)
  {
    Item(x.id, AsRecord(x))
  }

  /** What the cart table shows: a loading notice or "not found" while there
      is no cart, otherwise one row total per line. */
  datatype CartView = LoadingNotice | NotFound | Rows(totals: seq<int>)

  function View(items: Option<seq<CartItem>>, loading: bool): (v: CartView)
    ensures items.None? ==> (v == if loading then LoadingNotice else NotFound)
    ensures items.Some? ==> v.Rows? && |v.totals| == |items.value|
    ensures items.Some? ==> forall i :: 0 <= i < |items.value| ==> v.totals[i] == LineAmount(items.value[i])
  {
    match items
    case None => if loading then LoadingNotice else NotFound
    case Some(xs) => Rows(seq(|xs|, i requires 0 <= i < |xs| => LineAmount(xs[i])))
  }

  /** The row totals the table shows add up to the cart total of the order form. */
  lemma ShownRowsAddUpToCartTotal(items: seq<CartItem>, loading: bool)
    ensures Sum(View(Some(items), loading).totals, (t: int) => t) == CartSum(items)
  {
    RowsSum(items);
  }

  /** Summing the shown row totals is summing the lines' amounts. */
  lemma {:induction false} RowsSum(items: seq<CartItem>)
    ensures Sum(View(Some(items), false).totals, (t: int) => t) == Sum(items, LineAmount)
    decreases |items|
  {
    if items != [] {
      var init := items[..|items| - 1];
      RowsSum(init);
      assert View(Some(items), false).totals[..|items| - 1] == View(Some(init), false).totals;
    }
  }
}
