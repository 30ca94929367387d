/** The table of all orders: which columns a user sees, what each row's
    branch, worker, installation, debt and profit cells show, the footer
    totals read from the statistics request, the page count, the status
    filter options and the parameters of the two requests the table sends. */
module OrdersTable {
  import opened Common
  import opened OrderDetails

  /** The columns whose visibility depends on the user and the page. */
  datatype Visibility = Visibility(branch: bool, worker: bool, installDate: bool, profit: bool)

  /** `columnVisibility`: a STORE user sees none of the four columns; any
      other user sees the branch column only on the page of all branches
      (no `branchID`), and the other three always. */
  function ColumnVisibility(user: Option<User>, branchID: Option<int>): (v: Visibility)
    ensures IsStore(user) ==> v == Visibility(false, false, false, false)
    ensures !IsStore(user) ==> v.worker && v.installDate && v.profit && (v.branch <==> branchID.None?)
  {
    Visibility(!IsStore(user) && branchID.None?, !IsStore(user), !IsStore(user), !IsStore(user))
  }

  /** One row of the table, as the list request returns it. */
  datatype OrderRow = OrderRow(id: int, status: OrderStatus, branchName: string, workerName: Option<string>,
                               installDate: string, totalPrice: int, payed: int, profit: int)

  /** What a cell or a footer renders: nothing (`null`), a text, a date, an
      amount of money or a count. */
  datatype Cell = Blank | Text(text: Option<string>) | Day(day: string) | Price(amount: int) | Count(n: int)

  /** The branch cell: nothing for a STORE user, the branch's name for anyone else. */
  function BranchCell(user: Option<User>, row: OrderRow): (c: Cell)
    ensures c == Blank <==> IsStore(user)
    ensures c != Blank ==> c == Text(Some(row.branchName))
  {
    if IsStore(user) then Blank else Text(Some(row.branchName))
  }

  /** The worker cell: nothing for a STORE user; for anyone else a text
      field holding the worker's name, empty when the order has no worker. */
  function WorkerCell(user: Option<User>, row: OrderRow): (c: Cell)
    ensures c == Blank <==> IsStore(user)
    ensures c != Blank ==> c.Text? && c.text == row.workerName
  {
    if IsStore(user) then Blank else Text(row.workerName)
  }

  /** The installation-date cell: nothing for a STORE user, the date for anyone else. */
  function InstallDateCell(user: Option<User>, row: OrderRow): (c: Cell)
    ensures c == Blank <==> IsStore(user)
    ensures c != Blank ==> c == Day(row.installDate)
  {
    if IsStore(user) then Blank else Day(row.installDate)
  }

  /** The debt of a row: its total price less what was paid. */
  function DebtCell(row: OrderRow): (c: Cell)
    ensures c.Price? && c.amount + row.payed == row.totalPrice
  {
    Price(row.totalPrice - row.payed)
  }

  /** The profit of a row, shown to a non-STORE user once the order is ready
      (RETURN included, since its code follows READY's). */
  function ProfitCell(user: Option<User>, row: OrderRow): (c: Cell)
    ensures c != Blank <==> !IsStore(user) && Code(row.status) >= Code(Ready)
    ensures c != Blank ==> c == Price(row.profit)
    ensures row.status == Return && !IsStore(user) ==> c == Price(row.profit)
  {
    if IsStore(user) then Blank
    else if Code(row.status) < Code(Ready) then Blank
    else Price(row.profit)
  }

  /** Every column a user sees renders in every row (the profit column once
      the order is ready), and every column hidden from a STORE user renders
      nothing; a non-STORE user on one branch's page has the branch column
      hidden although its cells render. */
  lemma VisibleColumnsRender(user: Option<User>, branchID: Option<int>, row: OrderRow)
    ensures ColumnVisibility(user, branchID).branch ==> BranchCell(user, row) != Blank
    ensures ColumnVisibility(user, branchID).worker <==> WorkerCell(user, row) != Blank
    ensures ColumnVisibility(user, branchID).installDate <==> InstallDateCell(user, row) != Blank
    ensures ColumnVisibility(user, branchID).profit ==>
              (ProfitCell(user, row) != Blank <==> Code(row.status) >= Code(Ready))
    ensures !ColumnVisibility(user, branchID).profit ==> ProfitCell(user, row) == Blank
    ensures !ColumnVisibility(user, branchID).branch && !IsStore(user) ==>
              branchID.Some? && BranchCell(user, row) != Blank
  {
  }

  /** The profit of a row is shown exactly when the order's own page shows
      its net profit to a user with the warehouse permission: from READY on
      (RETURN included). */
  lemma ProfitShownAsOnOrderPage(user: Option<User>, row: OrderRow, o: Order, priceSum: int, profitSum: int, expenseSum: int)
    requires !IsStore(user) && o.status == row.status
    ensures ProfitCell(user, row) != Blank <==>
              OrderSummary(o, Permissions(true, true), priceSum, profitSum, expenseSum).netProfit.Some?
  {
  }

  /** The totals of the statistics request; `null` until it answers. */
  datatype OrderStats = OrderStats(totalOrders: Option<int>, totalAmount: Option<int>,
                                   totalPayed: Option<int>, totalProfit: Option<int>)

  /** `stats?.field || 0`. */
  function StatOr0(stats: Option<OrderStats>, pick: OrderStats -> Option<int>): (r: int)
    ensures stats.None? ==> r == 0
    ensures stats.Some? ==> r == OrZero(pick(stats.value))
  {
    if stats.Some? then OrZero(pick(stats.value)) else 0
  }

  /** The id column's footer: the number of orders, shown to everyone, 0
      until the statistics answer or when they lack the count. */
  function IdFooter(stats: Option<OrderStats>): (c: Cell)
    ensures c.Count?
    ensures stats.None? ==> c.n == 0
    ensures stats.Some? ==> c.n == OrZero(stats.value.totalOrders)
  {
    Count(StatOr0(stats, (s: OrderStats) => s.totalOrders))
  }

  /** The total column's footer: nothing for a STORE user, else the total
      amount of the orders (0 until the statistics answer). */
  function TotalFooter(user: Option<User>, stats: Option<OrderStats>): (c: Cell)
    ensures c == Blank <==> IsStore(user)
    ensures !IsStore(user) ==> c.Price? && c.amount == (if stats.Some? then OrZero(stats.value.totalAmount) else 0)
  {
    if IsStore(user) then Blank else Price(StatOr0(stats, (s: OrderStats) => s.totalAmount))
  }

  /** The debt column's footer: nothing for a STORE user, else the total
      amount less the amount paid. */
  function DebtFooter(user: Option<User>, stats: Option<OrderStats>): (c: Cell)
    ensures c == Blank <==> IsStore(user)
    ensures !IsStore(user) ==>
              c.Price? && c.amount == (if stats.Some? then OrZero(stats.value.totalAmount) - OrZero(stats.value.totalPayed) else 0)
  {
    if IsStore(user) then Blank
    else Price(StatOr0(stats, (s: OrderStats) => s.totalAmount) - StatOr0(stats, (s: OrderStats) => s.totalPayed))
  }

  /** The profit column's footer: nothing for a STORE user, else the total profit. */
  function ProfitFooter(user: Option<User>, stats: Option<OrderStats>): (c: Cell)
    ensures c == Blank <==> IsStore(user)
    ensures !IsStore(user) ==> c.Price? && c.amount == (if stats.Some? then OrZero(stats.value.totalProfit) else 0)
  {
    if IsStore(user) then Blank else Price(StatOr0(stats, (s: OrderStats) => s.totalProfit))
  }

  /** The money footers are hidden from a STORE user and shown to anyone
      else; the debt footer is the total footer less the amount paid, and
      before the statistics answer every footer shows 0. */
  lemma FootersAgree(user: Option<User>, stats: Option<OrderStats>)
    ensures IsStore(user) <==> TotalFooter(user, stats) == Blank
    ensures IsStore(user) <==> DebtFooter(user, stats) == Blank
    ensures IsStore(user) <==> ProfitFooter(user, stats) == Blank
    ensures !IsStore(user) ==>
              DebtFooter(user, stats).amount ==
              TotalFooter(user, stats).amount - StatOr0(stats, (s: OrderStats) => s.totalPayed)
    ensures stats.None? && !IsStore(user) ==>
              TotalFooter(user, stats) == Price(0) && DebtFooter(user, stats) == Price(0) &&
              ProfitFooter(user, stats) == Price(0)
    ensures stats.None? ==> IdFooter(stats) == Count(0)
  {
  }

  /** `Math.ceil(count / limit)`: the fewest pages of `limit` rows that hold
      `count` rows. */
  function PageCount(count: nat, limit: nat): (pages: nat)
    requires limit > 0
    ensures count <= pages * limit
    ensures pages > 0 ==> (pages - 1) * limit < count
    ensures pages == 0 <==> count == 0
  {
    CeilingDivision(count, limit);
    (count + limit - 1) / limit
  }

  lemma CeilingDivision(count: nat, limit: nat)
    requires limit > 0
    ensures count <= (count + limit - 1) / limit * limit
    ensures (count + limit - 1) / limit > 0 ==> ((count + limit - 1) / limit - 1) * limit < count
    ensures (count + limit - 1) / limit == 0 <==> count == 0
  {
    var q := (count + limit - 1) / limit;
    var r := (count + limit - 1) % limit;
    assert count + limit - 1 == q * limit + r;
    assert (q - 1) * limit == q * limit - limit;
  }

  /** The `branch_id` parameter: the page's branch, or null. */
  function BranchParam(branchID: Option<int>): Value {
    if branchID.Some? then Num(branchID.value) else Nil
  }

  /** `{...filters, page, limit, ordering, branch_id}`: later keys win, so
      the page, the page size, the order and the page's branch override any
      filter of the same name, and every other filter is passed on. */
  function ListQuery(filters: Values, page: int, limit: int, ordering: Value, branchID: Option<int>): (q: Values)
    ensures q.Keys == filters.Keys + {"page", "limit", "ordering", "branch_id"}
    ensures Get(q, "page") == Num(page) && Get(q, "limit") == Num(limit) && Get(q, "ordering") == ordering
    ensures Get(q, "branch_id") == (if branchID.Some? then Num(branchID.value) else Nil)
    ensures forall k :: k in filters && k != "page" && k != "limit" && k != "ordering" && k != "branch_id" ==>
              q[k] == filters[k]
  {
    filters["page" := Num(page)]["limit" := Num(limit)]["ordering" := ordering]["branch_id" := BranchParam(branchID)]
  }

  /** `{...filters, branch_id}`: the filters, with the page's branch over
      any branch filter. */
  function StatsQuery(filters: Values, branchID: Option<int>): (q: Values)
    ensures q.Keys == filters.Keys + {"branch_id"}
    ensures Get(q, "branch_id") == (if branchID.Some? then Num(branchID.value) else Nil)
    ensures forall k :: k in filters && k != "branch_id" ==> q[k] == filters[k]
  {
    filters["branch_id" := BranchParam(branchID)]
  }

  /** The statistics cover the rows the list shows on all its pages: the two
      requests agree on every parameter but the page, the page size and the
      order, and both carry the page's branch over any branch filter. */
  lemma StatsMatchList(filters: Values, page: int, limit: int, ordering: Value, branchID: Option<int>)
    ensures forall k :: k != "page" && k != "limit" && k != "ordering" ==>
              Get(ListQuery(filters, page, limit, ordering, branchID), k) == Get(StatsQuery(filters, branchID), k)
    ensures Get(ListQuery(filters, page, limit, ordering, branchID), "branch_id") == BranchParam(branchID)
    ensures Get(StatsQuery(filters, branchID), "branch_id") == BranchParam(branchID)
    ensures Get(ListQuery(filters, page, limit, ordering, branchID), "page") == Num(page)
    ensures Get(ListQuery(filters, page, limit, ordering, branchID), "limit") == Num(limit)
    ensures "page" !in filters ==> "page" !in StatsQuery(filters, branchID)
  {
  }

  /** Every status in code order, as the keys of the status labels enumerate them. */
  const ALL_STATUSES: seq<OrderStatus> :=
    [Draft, Registered, Accepted, Pending, Ready, OnDelivery, Delivered, Installed, Return]

  /** One option of the status filter: its value is the key as text. */
  datatype FilterOption = FilterOption(value: string, status: OrderStatus)

  /** The decimal text of a one-digit code. */
  function DigitText(n: nat): string
    requires n < 10
  {
    [(n + '0' as int) as char]
  }

  /** The status filter: one option per status, in code order. */
  function StatusFilterOptions(): (r: seq<FilterOption>)
    ensures |r| == |ALL_STATUSES|
    ensures forall i :: 0 <= i < |r| ==> r[i].status == ALL_STATUSES[i] && r[i].value == DigitText(Code(r[i].status))
  {
    seq(|ALL_STATUSES|, i requires 0 <= i < |ALL_STATUSES| =>
      FilterOption(DigitText(Code(ALL_STATUSES[i])), ALL_STATUSES[i]))
  }

  /** Every status is offered exactly once, and option i has code i. */
  lemma StatusFilterOffersEachStatusOnce(s: OrderStatus)
    ensures exists i :: 0 <= i < |StatusFilterOptions()| && StatusFilterOptions()[i].status == s
    ensures forall i, j :: 0 <= i < j < |StatusFilterOptions()| ==>
              StatusFilterOptions()[i].value != StatusFilterOptions()[j].value
    ensures forall i :: 0 <= i < |StatusFilterOptions()| ==> Code(StatusFilterOptions()[i].status) == i
  {
    var r := StatusFilterOptions();
    assert r[Code(s)].status == s;
    forall i, j | 0 <= i < j < |r|
      ensures r[i].value != r[j].value
    {
      assert r[i].value[0] != r[j].value[0];
    }
  }
}
