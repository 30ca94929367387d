/** The order details page: the money roll-ups of one order, the summary
    table, and the lifecycle buttons that decide which next status the user
    is offered; plus the page's own state (the roll-ups it keeps, its two
    modal flags) and the requests its handlers dispatch. */
module OrderDetails {
  import opened Common

  /** The lifecycle of an order. */
  datatype OrderStatus =
    | Draft | Registered | Accepted | Pending | Ready | OnDelivery | Delivered | Installed | Return

  /** The numeric code of a status. The constants are defined outside this
      model; assumed here: the chain DRAFT..INSTALLED numbered 0..7 in
      order, and RETURN numbered 8, after INSTALLED, so that RETURN passes
      every `status >= READY` test. */
  function Code(s: OrderStatus): (r: nat)
    ensures r <= 8
    ensures r == 8 <==> s == Return
    ensures r >= 4 <==> s == Ready || s == OnDelivery || s == Delivered || s == Installed || s == Return
  {
    match s
    case Draft => 0
    case Registered => 1
    case Accepted => 2
    case Pending => 3
    case Ready => 4
    case OnDelivery => 5
    case Delivered => 6
    case Installed => 7
    case Return => 8
  }

  /** The fulfilment chain: the status each status moves on to. A returned
      order goes back on delivery; an installed order is finished. */
  function Next(s: OrderStatus): (r: Option<OrderStatus>)
    ensures r.None? <==> s == Installed
    ensures r.Some? && s != Return ==> Code(r.value) == Code(s) + 1
    ensures s == Return ==> r == Some(OnDelivery)
  {
    match s
    case Draft => Some(Registered)
    case Registered => Some(Accepted)
    case Accepted => Some(Pending)
    case Pending => Some(Ready)
    case Ready => Some(OnDelivery)
    case Return => Some(OnDelivery)
    case OnDelivery => Some(Delivered)
    case Delivered => Some(Installed)
    case Installed => None
  }

  /** One line of an order; amounts in cents, each possibly missing. */
  datatype OrderItem = OrderItem(price: Option<int>, quantity: Option<int>, profit: Option<int>, isSold: bool)

  /** One expense booked against an order. */
  datatype OrderExpense = OrderExpense(price: Option<int>)

  /** An order as the details page reads it. */
  datatype Order = Order(
    id: int,
    status: OrderStatus,
    items: seq<OrderItem>,
    expenses: seq<OrderExpense>,
    discount: int,
    payed: int,
    sellerShare: int,
    deliveryPrice: int,
    installPrice: int,
    hasWorker: bool,
    hasDriver: bool)

  /** The results of `hasPermission(user, [WAREHOUSE])` and
      `hasPermissionByStatus(user, order.status)`. Both helpers are defined
      outside this model, so the page's decisions are stated for either answer. */
  datatype Permissions = Permissions(warehouse: bool, byStatus: bool)

  function ItemAmount(i: OrderItem): int { OrZero(i.price) * OrZero(i.quantity) }
  function ItemProfit(i: OrderItem): int { OrZero(i.profit) }
  function ExpenseAmount(e: OrderExpense): int { OrZero(e.price) }

  /** The sum of price times quantity over the items, a missing price or
      quantity counting as 0. */
  function PriceSum(items: seq<OrderItem>): (r: int)
    ensures (forall i :: 0 <= i < |items| ==> OrZero(items[i].price) >= 0 && OrZero(items[i].quantity) >= 0) ==> r >= 0
    ensures (forall i :: 0 <= i < |items| ==> items[i].price.None? || items[i].quantity.None?) ==> r == 0
  {
    SumBounds(items, ItemAmount);
    Sum(items, ItemAmount)
  }

  /** The sum of the items' profits, a missing profit counting as 0. */
  function ProfitSum(items: seq<OrderItem>): (r: int)
    ensures (forall i :: 0 <= i < |items| ==> OrZero(items[i].profit) >= 0) ==> r >= 0
    ensures (forall i :: 0 <= i < |items| ==> items[i].profit.None?) ==> r == 0
  {
    SumBounds(items, ItemProfit);
    Sum(items, ItemProfit)
  }

  /** The sum of the expenses' prices, a missing price counting as 0. */
  function ExpenseSum(expenses: seq<OrderExpense>): (r: int)
    ensures (forall i :: 0 <= i < |expenses| ==> OrZero(expenses[i].price) >= 0) ==> r >= 0
    ensures (forall i :: 0 <= i < |expenses| ==> expenses[i].price.None?) ==> r == 0
  {
    SumBounds(expenses, ExpenseAmount);
    Sum(expenses, ExpenseAmount)
  }

  /** An item's amount adds to the price sum wherever it stands; items with
      non-negative prices and quantities give a non-negative price sum. */
  lemma PriceSumOfAppend(items: seq<OrderItem>, more: seq<OrderItem>)
    ensures PriceSum(items + more) == PriceSum(items) + PriceSum(more)
    ensures (forall i :: 0 <= i < |items| ==> OrZero(items[i].price) >= 0 && OrZero(items[i].quantity) >= 0)
            ==> PriceSum(items) >= 0
  {
    SumAppend(items, more, ItemAmount);
    if forall i :: 0 <= i < |items| ==> OrZero(items[i].price) >= 0 && OrZero(items[i].quantity) >= 0 {
      SumNonNegative(items, ItemAmount);
    }
  }

  /** `items.every(item => item.is_sold)`: true of no items. */
  predicate AllSold(items: seq<OrderItem>) {
    forall i :: 0 <= i < |items| ==> items[i].isSold
  }

  /** What the order still owes once the discount and the payments are taken off. */
  function Debt(o: Order, priceSum: int): int {
    priceSum - o.discount - o.payed
  }

  /** The money rows of the details table. */
  datatype Summary = Summary(priceSum: int, discount: int, total: int, payed: int, debt: int, netProfit: Option<int>)

  /** The money rows: the total is the price sum less the discount, the
      debt is the total less what was paid, and the net profit row (the
      profit of the items less the seller's share, delivery, installation
      and expenses) is shown only from READY on and only to WAREHOUSE users. */
  function OrderSummary(o: Order, perms: Permissions, priceSum: int, profitSum: int, expenseSum: int): (s: Summary)
    ensures s.total == priceSum - o.discount
    ensures s.debt == s.total - o.payed && s.debt == Debt(o, priceSum)
    ensures s.netProfit.Some? <==> Code(o.status) >= Code(Ready) && perms.warehouse
    ensures s.netProfit.Some? ==>
              s.netProfit.value + o.sellerShare + o.deliveryPrice + o.installPrice + expenseSum == profitSum
  {
    Summary(
      priceSum, o.discount, priceSum - o.discount, o.payed, priceSum - o.discount - o.payed,
      if Code(o.status) >= Code(Ready) && perms.warehouse
      then Some(profitSum - o.sellerShare - o.deliveryPrice - o.installPrice - expenseSum)
      else None)
  }

  /** The controls under the details table: the edit and delete pair, a
      button that moves the order to a status (possibly shown disabled), and
      the link to the invoice. */
  datatype Control = EditAndDelete | StatusButton(target: OrderStatus, enabled: bool) | InvoiceLink

  /** The buttons only WAREHOUSE users see, in page order. */
  function WarehouseButtons(o: Order, priceSum: int): seq<Control> {
    (if o.status == Registered then [StatusButton(Accepted, true)] else [])
    + (if o.status == Accepted then [StatusButton(Pending, true)] else [])
    + (if o.status == Pending && AllSold(o.items) && o.hasWorker && o.hasDriver
       then [StatusButton(Ready, true)] else [])
    + (if o.status == Ready || o.status == Return then [StatusButton(OnDelivery, true)] else [])
    + (if o.status == OnDelivery then [StatusButton(Delivered, true)] else [])
    + (if o.status == Delivered then [StatusButton(Installed, o.payed == priceSum - o.discount)] else [])
    + (if Code(o.status) >= Code(Ready) && o.status != Return then [StatusButton(Return, true)] else [])
  }

  /** The controls of the page, in page order: edit and delete for users the
      status permits, the move DRAFT to REGISTERED for everyone, the invoice
      link once the order is past DRAFT, then the WAREHOUSE users' buttons. */
  function Controls(o: Order, perms: Permissions, priceSum: int): (r: seq<Control>)
    ensures EditAndDelete in r <==> perms.byStatus
    ensures InvoiceLink in r <==> o.status != Draft
    ensures o.status == Draft ==> StatusButton(Registered, true) in r
  {
    (if perms.byStatus then [EditAndDelete] else [])
    + (if o.status == Draft then [StatusButton(Registered, true)] else [])
    + (if o.status != Draft then [InvoiceLink] else [])
    + (if perms.warehouse then WarehouseButtons(o, priceSum) else [])
  }

  /** A move to a status that a button offers, and whether it is enabled. */
  datatype Move = Move(target: OrderStatus, enabled: bool)

  /** The status buttons among the controls, in page order. */
  function Moves(r: seq<Control>): seq<Move>
    decreases |r|
  {
    if r == [] then []
    else (if r[0].StatusButton? then [Move(r[0].target, r[0].enabled)] else []) + Moves(r[1..])
  }

  lemma {:induction false} MovesOfAppend(a: seq<Control>, b: seq<Control>)
    ensures Moves(a + b) == Moves(a) + Moves(b)
    decreases |a|
  {
    if a == [] {
      assert a + b == b;
    } else {
      assert (a + b)[0] == a[0];
      assert (a + b)[1..] == a[1..] + b;
      MovesOfAppend(a[1..], b);
    }
  }

  /** Whether some move goes to the given status. */
  predicate Offers(m: seq<Move>, t: OrderStatus) {
    Move(t, true) in m || Move(t, false) in m
  }

  /** The order lifecycle as a table from the current status to the moves
      offered, given whether the user has WAREHOUSE permission, whether the
      order is ready to ship (every item sold, a worker and a driver set)
      and whether it is settled (nothing owed). */
  function LifecycleTable(s: OrderStatus, warehouse: bool, readyToShip: bool, settled: bool): seq<Move> {
    if !warehouse then (if s == Draft then [Move(Registered, true)] else [])
    else
      match s
      case Draft => [Move(Registered, true)]
      case Registered => [Move(Accepted, true)]
      case Accepted => [Move(Pending, true)]
      case Pending => if readyToShip then [Move(Ready, true)] else []
      case Ready => [Move(OnDelivery, true), Move(Return, true)]
      case Return => [Move(OnDelivery, true)]
      case OnDelivery => [Move(Delivered, true), Move(Return, true)]
      case Delivered => [Move(Installed, settled), Move(Return, true)]
      case Installed => [Move(Return, true)]
  }

  /** The rules of the lifecycle. Without WAREHOUSE permission the only move
      is DRAFT to REGISTERED. Every move other than to RETURN goes to the
      next status of the chain, and there is at most one such move. READY is
      offered exactly for a PENDING order ready to ship; INSTALLED is offered
      exactly for DELIVERED and is enabled exactly when the order is settled;
      every other move is enabled; RETURN is offered exactly from READY on,
      except from RETURN itself. */
  lemma LifecycleRules(s: OrderStatus, warehouse: bool, readyToShip: bool, settled: bool)
    ensures var m := LifecycleTable(s, warehouse, readyToShip, settled);
      && (!warehouse ==> m == (if s == Draft then [Move(Registered, true)] else []))
      && (forall i :: 0 <= i < |m| && m[i].target != Return ==> Next(s) == Some(m[i].target))
      && (forall i, j :: 0 <= i < j < |m| ==> m[i].target == Return || m[j].target == Return)
      && (Offers(m, Ready) <==> warehouse && s == Pending && readyToShip)
      && (Offers(m, Installed) <==> warehouse && s == Delivered)
      && (forall i :: 0 <= i < |m| && m[i].target == Installed ==> (m[i].enabled <==> settled))
      && (forall i :: 0 <= i < |m| && m[i].target != Installed ==> m[i].enabled)
      && (Offers(m, Return) <==> warehouse && Code(s) >= Code(Ready) && s != Return)
  {
  }

  lemma MovesOfOne(c: Control)
    ensures Moves([c]) == if c.StatusButton? then [Move(c.target, c.enabled)] else []
  {
    assert [c][1..] == [];
  }

  lemma MovesOfTwo(c: Control, d: Control)
    ensures Moves([c, d]) == Moves([c]) + Moves([d])
  {
    MovesOfAppend([c], [d]);
    assert [c] + [d] == [c, d];
  }

  /** The WAREHOUSE users' buttons implement the table's moves, all but the
      move out of DRAFT, which every user is offered. */
  lemma {:induction false} WarehouseButtonsFollowLifecycle(o: Order, priceSum: int)
    ensures Moves(WarehouseButtons(o, priceSum)) ==
            if o.status == Draft then [] else LifecycleTable(o.status, true, AllSold(o.items) && o.hasWorker && o.hasDriver, Debt(o, priceSum) == 0)
  {
    var w := WarehouseButtons(o, priceSum);
    var ready := AllSold(o.items) && o.hasWorker && o.hasDriver;
    match o.status {
      case Draft => assert w == [];
      case Registered => assert w == [StatusButton(Accepted, true)]; MovesOfOne(w[0]);
      case Accepted => assert w == [StatusButton(Pending, true)]; MovesOfOne(w[0]);
      case Pending =>
        if ready { assert w == [StatusButton(Ready, true)]; MovesOfOne(w[0]); } else { assert w == []; }
      case Ready =>
        assert w == [StatusButton(OnDelivery, true), StatusButton(Return, true)];
        MovesOfTwo(w[0], w[1]); MovesOfOne(w[0]); MovesOfOne(w[1]);
      case Return => assert w == [StatusButton(OnDelivery, true)]; MovesOfOne(w[0]);
      case OnDelivery =>
        assert w == [StatusButton(Delivered, true), StatusButton(Return, true)];
        MovesOfTwo(w[0], w[1]); MovesOfOne(w[0]); MovesOfOne(w[1]);
      case Delivered =>
        assert w == [StatusButton(Installed, o.payed == priceSum - o.discount), StatusButton(Return, true)];
        MovesOfTwo(w[0], w[1]); MovesOfOne(w[0]); MovesOfOne(w[1]);
      case Installed => assert w == [StatusButton(Return, true)]; MovesOfOne(w[0]);
    }
  }

  /** The page's status buttons implement the lifecycle table. */
  lemma {:induction false} ControlsFollowLifecycle(o: Order, perms: Permissions, priceSum: int)
    ensures Moves(Controls(o, perms, priceSum)) ==
            LifecycleTable(o.status, perms.warehouse,
                           AllSold(o.items) && o.hasWorker && o.hasDriver, Debt(o, priceSum) == 0)
  {
    var head := if perms.byStatus then [EditAndDelete] else [];
    var draft := if o.status == Draft then [StatusButton(Registered, true)] else [];
    var link := if o.status != Draft then [InvoiceLink] else [];
    var wh := if perms.warehouse then WarehouseButtons(o, priceSum) else [];
    assert Controls(o, perms, priceSum) == head + draft + link + wh;
    MovesOfAppend(head + draft + link, wh);
    MovesOfAppend(head + draft, link);
    MovesOfAppend(head, draft);
    MovesOfOne(EditAndDelete);
    MovesOfOne(InvoiceLink);
    MovesOfOne(StatusButton(Registered, true));
    assert Moves(head) == [] && Moves(link) == [];
    if perms.warehouse {
      WarehouseButtonsFollowLifecycle(o, priceSum);
    }
  }

  /** The page renders nothing while there is no order or while the order's
      details are loading. */
  predicate Renders(order: Option<Order>, status: Status) {
    order.Some? && !(status.lastAction == Some(GetOrderDetails) && status.loading)
  }

  /** The state of the details page. */
  class OrderContainer {
    var order: Option<Order>
    var priceSum: int
    var profitSum: int
    var expenseSum: int
    var orderModal: bool
    var deleteModal: bool
    var dispatched: seq<Dispatch>

    constructor ()
      ensures order == None && priceSum == 0 && profitSum == 0 && expenseSum == 0
      ensures !orderModal && !deleteModal && dispatched == []
    {
      order := None;
      priceSum, profitSum, expenseSum := 0, 0, 0;
      orderModal, deleteModal := false, false;
      dispatched := [];
    }

    /** The store hands the page a (new) order, and the roll-up effect runs:
        the three sums are recomputed only when the order has items, and
        otherwise keep what they held. */
    method ReceiveOrder(o: Option<Order>)
      modifies this
      ensures order == o
      ensures o.Some? && |o.value.items| > 0 ==>
                priceSum == PriceSum(o.value.items) && profitSum == ProfitSum(o.value.items)
                && expenseSum == ExpenseSum(o.value.expenses)
      ensures !(o.Some? && |o.value.items| > 0) ==>
                priceSum == old(priceSum) && profitSum == old(profitSum) && expenseSum == old(expenseSum)
      ensures orderModal == old(orderModal) && deleteModal == old(deleteModal) && dispatched == old(dispatched)
    {
      order := o;
      if o.Some? && |o.value.items| > 0 {
        priceSum := PriceSum(o.value.items);
        profitSum := ProfitSum(o.value.items);
        expenseSum := ExpenseSum(o.value.expenses);
      }
    }

    /** The money rows the page shows for its order: the price sum it
        holds, the total less the order's discount, the debt less what was
        paid, and the net profit only from READY on for WAREHOUSE users. */
    function Shown(perms: Permissions): (s: Summary)
      reads this
      requires order.Some?
      ensures s.priceSum == priceSum && s.discount == order.value.discount && s.payed == order.value.payed
      ensures s.total == priceSum - order.value.discount
      ensures s.debt == s.total - order.value.payed
      ensures s.netProfit.Some? <==> Code(order.value.status) >= Code(Ready) && perms.warehouse
      ensures s.netProfit.Some? ==>
                s.netProfit.value == profitSum - order.value.sellerShare - order.value.deliveryPrice
                                     - order.value.installPrice - expenseSum
    {
      OrderSummary(order.value, perms, priceSum, profitSum, expenseSum)
    }

    /** The store hands the page an order and the page renders: nothing is
        shown while there is no order or its details are loading; an order
        with items is shown with its own roll-ups, so its total is its price
        sum less its discount and its debt is that total less what was paid. */
    method ReceiveAndShow(o: Option<Order>, status: Status, perms: Permissions) returns (s: Option<Summary>)
      modifies this
      ensures s.Some? <==> Renders(o, status)
      ensures s.Some? && |o.value.items| > 0 ==>
                && s.value.priceSum == PriceSum(o.value.items)
                && s.value.total == PriceSum(o.value.items) - o.value.discount
                && s.value.debt == PriceSum(o.value.items) - o.value.discount - o.value.payed
                && (s.value.netProfit.Some? ==>
                      s.value.netProfit.value == ProfitSum(o.value.items) - o.value.sellerShare
                        - o.value.deliveryPrice - o.value.installPrice - ExpenseSum(o.value.expenses))
      ensures s.Some? && |o.value.items| == 0 ==> s.value.priceSum == old(priceSum)
      ensures order == o && orderModal == old(orderModal) && deleteModal == old(deleteModal)
      ensures dispatched == old(dispatched)
    {
      ReceiveOrder(o);
      if Renders(o, status) {
        s := Some(Shown(perms));
      } else {
        s := None;
      }
    }

    /** The edit button opens the order modal. */
    method OnUpdate()
      modifies this
      ensures orderModal
      ensures order == old(order) && deleteModal == old(deleteModal) && dispatched == old(dispatched)
      ensures priceSum == old(priceSum) && profitSum == old(profitSum) && expenseSum == old(expenseSum)
    {
      orderModal := true;
    }

    /** The order modal's submission updates the order, if there is one. */
    method HandleSubmit(data: FormData)
      modifies this
      ensures dispatched == old(dispatched) + (if order.Some? then [Update(UpdateOrder, order.value.id, data)] else [])
      ensures order == old(order) && orderModal == old(orderModal) && deleteModal == old(deleteModal)
      ensures priceSum == old(priceSum) && profitSum == old(profitSum) && expenseSum == old(expenseSum)
    {
      if order.Some? {
        dispatched := dispatched + [Update(UpdateOrder, order.value.id, data)];
      }
    }

    /** The delete button opens the confirmation modal. */
    method OnDelete()
      modifies this
      ensures deleteModal
      ensures order == old(order) && orderModal == old(orderModal) && dispatched == old(dispatched)
      ensures priceSum == old(priceSum) && profitSum == old(profitSum) && expenseSum == old(expenseSum)
    {
      deleteModal := true;
    }

    /** Confirming deletes the order, if there is one, and closes the
        confirmation modal either way. */
    method HandleDelete()
      modifies this
      ensures dispatched == old(dispatched) + (if order.Some? then [Delete(DeleteOrder, order.value.id)] else [])
      ensures !deleteModal
      ensures order == old(order) && orderModal == old(orderModal)
      ensures priceSum == old(priceSum) && profitSum == old(profitSum) && expenseSum == old(expenseSum)
    {
      if order.Some? {
        dispatched := dispatched + [Delete(DeleteOrder, order.value.id)];
      }
      deleteModal := false;
    }

    /** A status button updates the order with its status code and nothing else. */
    method HandleStatusUpdate(target: OrderStatus)
      modifies this
      ensures dispatched == old(dispatched) +
                (if order.Some? then [Update(UpdateOrder, order.value.id, [("status", Num(Code(target)))])] else [])
      ensures order == old(order) && orderModal == old(orderModal) && deleteModal == old(deleteModal)
      ensures priceSum == old(priceSum) && profitSum == old(profitSum) && expenseSum == old(expenseSum)
    {
      if order.Some? {
        dispatched := dispatched + [Update(UpdateOrder, order.value.id, [("status", Num(Code(target)))])];
      }
    }
  }
}
