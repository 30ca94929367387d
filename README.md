# erp.topqapi.az — a Dafny model of the order, cart and form logic

The dashboard of erp.topqapi.az is a React/Redux admin panel for a furniture
business: sales orders move through a fulfilment lifecycle, a new order is built
from a cart of product lines, and expenses, factory products and factory sales are
recorded through create/edit modals. This project models the parts of the
dashboard that decide something:

- the money roll-ups of an order (price, profit and expense sums, total, debt,
  net profit) and the lifecycle buttons of the order details page;
- the validation schema of each modal, the initial values it opens with, and the
  changed-field diff that decides which fields a submission carries;
- the success and failure effects every modal shares, and the selects whose
  choice clears a dependent field (branch → seller, product → supplier);
- the selection state machine of the cart table and of the factory products page
  (which record is selected, whether a save creates or updates, when a delete is
  sent);
- the orders table: column visibility, cells, footers, page count, status filter
  and the parameters of its list and statistics requests;
- the reducers of the warehouse-item and authentication store slices.

Money is a whole number of cents (`int`); a missing amount is `None` and reads as
0, like `Number(x || 0)`. A form value is `Value`: nothing, a text, a number, or a
nested record (`Ref(id, name)`), which is how the API returns an order's branch and
seller and a cart line's product and supplier. A nested record is never equal to the
id the form holds for it. Requests sent are recorded as a sequence of `Dispatch`
values.

The order status codes are defined outside this model. They are assumed to be
DRAFT..INSTALLED = 0..7 in chain order and RETURN = 8 (see `OrderDetails.Code`).

Modules, one file each:

- `common.dfy`: Common.
- `config.dfy`: Config.
- `forms.dfy`: Forms.
- `order_details.dfy`: OrderDetails.
- `order_cart.dfy`: OrderCart.
- `new_order_modal.dfy`: NewOrderModal.
- `order_edit_modal.dfy`: OrderEditModal.
- `cart_product_modal.dfy`: CartProductModal.
- `factory_sale_modal.dfy`: FactorySaleModal.
- `expense_modal.dfy`: ExpenseModal.
- `item_pages.dfy`: ItemPages.
- `cart_products.dfy`: CartProducts.
- `factory_products.dfy`: FactoryProducts.
- `orders_table.dfy`: OrdersTable.
- `warehouse_item_slice.dfy`: WarehouseItemSlice.
- `auth_slice.dfy`: AuthSlice.

## Model

| member | source | states |
|---|---|---|
| Config.PageTitle | src/helpers/config.ts:3-5 | an empty title gives the project name alone; otherwise the title, then " \| ", then the project name |
| Config.PageTitleRoundTrip | src/helpers/config.ts:3-5 | the page title is read back from every document title, so no two titles give the same document title |
| Config.GetOptions | src/helpers/config.ts:7-9 | no list gives no options; otherwise one option per record, in order, labelled by the label key and valued by the value key |
| Config.FormatPrice | src/helpers/config.ts:11-13 | the amount text, then a space, then the currency |
| Forms.AcceptedIffEveryRule | src/pages/Orders/NewOrder/components/OrderModal.tsx:76-88 | a schema accepts the values exactly when every one of its rules does |
| Forms.Check | src/pages/Orders/NewOrder/components/ProductModal.tsx:71-81 | a value is missing exactly when it is empty and the field required; not a number exactly when a number field holds something else or a text field a nested record; too small exactly when a number is below the least one; too long exactly when a text has more characters than allowed |
| Forms.ErrorsNameFailingRules | src/pages/Orders/NewOrder/components/OrderModal.tsx:76-88 | there is at most one field error per rule, and each names a rule's field and the problem that rule finds with the field's value |
| Forms.AcceptedByRules | src/pages/Orders/NewOrder/components/OrderModal.tsx:76-88 | an empty schema accepts; otherwise a schema accepts exactly when its first rule and its remaining rules both do |
| Forms.CheckMeans | src/pages/Orders/NewOrder/components/ProductModal.tsx:71-81 | an empty value passes exactly when the field is optional; a number rule needs a number at or above its minimum; a text rule needs text within its maximum length |
| Forms.FieldsOf | src/pages/Orders/OrderDetails/components/OrderModal.tsx:73-83 | the fields of a schema, one per rule, in order |
| Forms.ChangedEntriesStep | src/pages/Orders/OrderDetails/components/OrderModal.tsx:85-121 | one more field appends its entry exactly when there is no record or the field changed |
| Forms.ChangedEntriesOfUnchangedTail | src/pages/Orders/OrderDetails/components/OrderModal.tsx:85-121 | unchanged fields after a position add nothing to the submission |
| Forms.AppendIfChanged | src/pages/Orders/OrderDetails/components/OrderModal.tsx:88-90 | one line of a changed-field submission: the entry is appended exactly when there is no record or the value differs, so a submission over the fields so far becomes the submission over one field more |
| Forms.AllEntries | src/pages/Orders/NewOrder/components/OrderModal.tsx:90-127 | one entry per field, in order, carrying the form's value |
| Forms.ChangedEntriesWithoutData | src/pages/Orders/NewOrder/components/ProductModal.tsx:83-107 | with no original record, every field is submitted, in order |
| Forms.ChangedEntriesOfChangedPrefix | src/pages/Orders/OrderDetails/components/OrderModal.tsx:85-121 | when exactly the first k fields changed, the submission is those k fields with their values, in order |
| Forms.ChangedEntriesOfChangedPair | src/pages/Orders/OrderDetails/components/OrderModal.tsx:85-121 | when exactly the first two fields changed, the submission is those two fields with the form's values, in order |
| Forms.ChangedEntriesMembership | src/pages/Orders/OrderDetails/components/OrderModal.tsx:85-121 | an entry is submitted exactly when its field is listed and changed, and it carries the form's value |
| Forms.ChangedPositions | src/pages/Orders/OrderDetails/components/OrderModal.tsx:85-121 | the positions considered for the submission are increasing, each holds a changed field, and every changed field is among them |
| Forms.ChangedEntriesOrdered | src/pages/Orders/OrderDetails/components/OrderModal.tsx:85-121 | the submission is the subsequence of the changed fields: entry k is the field at the k-th changed position, with the form's value |
| Forms.ModalForm.constructor | src/pages/Orders/OrderDetails/components/OrderModal.tsx:61-71 | the form opens on its initial values, with no errors and no alert |
| Forms.ModalForm.SetFieldValue | src/pages/Orders/NewOrder/components/OrderModal.tsx:524-527 | one field takes the value; errors and alert unchanged |
| Forms.ModalForm.Select | src/pages/Expenses/components/FormModal.tsx:205-208 | a falsy choice changes nothing; a truthy one sets the field |
| Forms.ModalForm.SelectWithDependent | src/pages/Orders/NewOrder/components/OrderModal.tsx:169-171 | a truthy choice sets the field and, when it differs from the previous value, clears the dependent field; a falsy one changes nothing |
| Forms.ModalForm.ResetForm | src/pages/Orders/NewOrder/components/OrderModal.tsx:189-197 | values back to the initial ones, no field errors |
| Forms.ModalForm.OnErrorsChanged | src/pages/Orders/NewOrder/components/OrderModal.tsx:199-208 | while open and failed: a 400 answer merges the server's field messages; any other failure shows the generic alert; otherwise nothing changes |
| Forms.ModalForm.OnStatusChanged | src/pages/Orders/NewOrder/components/ProductModal.tsx:148-159 | the modal closes, with the form reset, exactly when it is open and the request it expects succeeded |
| Forms.ExpectedAction | src/pages/Orders/NewOrder/components/ProductModal.tsx:148-159 | the update when editing, the create otherwise |
| OrderDetails.Code | src/pages/Orders/OrderDetails/components/OrderContainer.tsx:278-384 | codes run from 0 to 8; 8 is RETURN's alone; the codes from READY's up are those of READY, ON_DELIVERY, DELIVERED, INSTALLED and RETURN |
| OrderDetails.Next | src/pages/Orders/OrderDetails/components/OrderContainer.tsx:278-384 | INSTALLED alone has no next status; RETURN goes back to ON_DELIVERY; every other status moves to the one whose code is one higher |
| OrderDetails.PriceSum | src/pages/Orders/OrderDetails/components/OrderContainer.tsx:62-66 | the sum of price times quantity is not negative when no price or quantity is, and 0 when every item lacks its price or its quantity |
| OrderDetails.ProfitSum | src/pages/Orders/OrderDetails/components/OrderContainer.tsx:68-70 | the profit sum is not negative when no profit is, and 0 when every item lacks its profit |
| OrderDetails.ExpenseSum | src/pages/Orders/OrderDetails/components/OrderContainer.tsx:72-74 | the expense sum is not negative when no expense price is, and 0 when every expense lacks its price |
| OrderDetails.PriceSumOfAppend | src/pages/Orders/OrderDetails/components/OrderContainer.tsx:62-66 | the price sum is additive over the items, and non-negative when every price and quantity is |
| OrderDetails.OrderSummary | src/pages/Orders/OrderDetails/components/OrderContainer.tsx:138-210 | total = price sum − discount; debt = total − paid; the net profit row is shown exactly from READY on to WAREHOUSE users, and it is profit less the seller's share, delivery, installation and expenses |
| OrderDetails.Controls | src/pages/Orders/OrderDetails/components/OrderContainer.tsx:223-276 | edit/delete exactly when the status permits; the invoice link exactly past DRAFT; DRAFT → REGISTERED for every user |
| OrderDetails.MovesOfAppend | src/pages/Orders/OrderDetails/components/OrderContainer.tsx:251-384 | the status buttons of two control lists are those of each, in order |
| OrderDetails.LifecycleRules | src/pages/Orders/OrderDetails/components/OrderContainer.tsx:278-384 | without WAREHOUSE only DRAFT → REGISTERED; every non-RETURN move goes to the next status and there is at most one; READY only for a ready-to-ship PENDING order; INSTALLED only from DELIVERED and enabled exactly when settled; RETURN from READY on, except from RETURN |
| OrderDetails.WarehouseButtonsFollowLifecycle | src/pages/Orders/OrderDetails/components/OrderContainer.tsx:278-384 | the WAREHOUSE buttons offer exactly the lifecycle table's moves, except the move out of DRAFT |
| OrderDetails.ControlsFollowLifecycle | src/pages/Orders/OrderDetails/components/OrderContainer.tsx:223-384 | the page's status buttons are exactly the lifecycle table's moves, in order, for either permission |
| OrderDetails.OrderContainer.constructor | src/pages/Orders/OrderDetails/components/OrderContainer.tsx:33-58 | no order, sums 0, both modals closed, nothing sent |
| OrderDetails.OrderContainer.ReceiveOrder | src/pages/Orders/OrderDetails/components/OrderContainer.tsx:60-76 | the sums are recomputed only for an order with items; otherwise they keep their previous values |
| OrderDetails.OrderContainer.Shown | src/pages/Orders/OrderDetails/components/OrderContainer.tsx:126-210 | the price sum held, the total as that sum less the order's discount, the debt as the total less what was paid, and the net profit (profit sum less seller's share, delivery, installation and expenses) exactly from READY on for WAREHOUSE users |
| OrderDetails.OrderContainer.ReceiveAndShow | src/pages/Orders/OrderDetails/components/OrderContainer.tsx:60-82 | nothing is shown while there is no order or its details load; an order with items is shown with its own price sum, its total as that sum less its discount, and its debt as that total less what was paid |
| OrderDetails.OrderContainer.OnUpdate | src/pages/Orders/OrderDetails/components/OrderContainer.tsx:33-54 | the order modal opens; nothing else changes |
| OrderDetails.OrderContainer.HandleSubmit | src/pages/Orders/OrderDetails/components/OrderContainer.tsx:33-54 | the update of the held order, if any, is sent with the form data |
| OrderDetails.OrderContainer.OnDelete | src/pages/Orders/OrderDetails/components/OrderContainer.tsx:33-54 | the delete confirmation opens; nothing else changes |
| OrderDetails.OrderContainer.HandleDelete | src/pages/Orders/OrderDetails/components/OrderContainer.tsx:33-54 | the delete of the held order, if any, is sent; the confirmation closes either way |
| OrderDetails.OrderContainer.HandleStatusUpdate | src/pages/Orders/OrderDetails/components/OrderContainer.tsx:78-80 | an update carrying only the status code is sent for the held order, if any |
| OrderCart.CartSum | src/pages/Orders/NewOrder/components/OrderModal.tsx:178-187 | the cart total is not negative when no price or quantity is, and 0 when every line lacks its price or its quantity |
| OrderCart.CartSumOfAdd | src/pages/Orders/NewOrder/components/OrderModal.tsx:178-187 | adding a line adds its amount to the cart total |
| NewOrderModal.DefaultBranch | src/pages/Orders/NewOrder/components/OrderModal.tsx:63 | a STORE user with a branch starts on that branch; anyone else starts on "" |
| NewOrderModal.InitialValues | src/pages/Orders/NewOrder/components/OrderModal.tsx:62-74 | exactly the form's fields: the default branch, today as sale date, "" elsewhere |
| NewOrderModal.AcceptedMeans | src/pages/Orders/NewOrder/components/OrderModal.tsx:76-88 | the schema accepts exactly when branch, seller and paid amount are numbers, customer, phone, address and sale date are filled in, the seller's share is a number or empty, and no text field holds a record |
| NewOrderModal.SchemaCoversSubmission | src/pages/Orders/NewOrder/components/OrderModal.tsx:76-127 | the schema names exactly the submitted fields, in order |
| NewOrderModal.Submit | src/pages/Orders/NewOrder/components/OrderModal.tsx:90-127 | every field is submitted, in order, which is the changed-field diff with no record |
| NewOrderModal.StoreUserStartsOnOwnBranch | src/pages/Orders/NewOrder/components/OrderModal.tsx:62-74 | a STORE user with a branch starts on it, with the branch select locked and the seller select open |
| NewOrderModal.OtherUserStartsWithoutBranch | src/pages/Orders/NewOrder/components/OrderModal.tsx:234-276 | any other user starts with no branch, the branch select open and the seller select locked |
| NewOrderModal.SelectBranch | src/pages/Orders/NewOrder/components/OrderModal.tsx:169-171 | a new branch clears the seller; the seller select is then open |
| NewOrderModal.ChangeInstallDate | src/pages/Orders/NewOrder/components/OrderModal.tsx:524-527 | writes "" to a `worker` field, then the installation date |
| NewOrderModal.WorkerIsNeverSubmitted | src/pages/Orders/NewOrder/components/OrderModal.tsx:90-127 | the stray `worker` field never reaches the submission |
| NewOrderModal.DebtShown | src/pages/Orders/NewOrder/components/OrderModal.tsx:425-427 | the total less the amount paid; an empty amount leaves the whole total |
| NewOrderModal.CartTotal.constructor | src/pages/Orders/NewOrder/components/OrderModal.tsx:178-187 | the total starts at 0 |
| NewOrderModal.CartTotal.OnItemsChanged | src/pages/Orders/NewOrder/components/OrderModal.tsx:178-187 | as written: recomputed only for a non-empty cart, otherwise kept |
| NewOrderModal.CartTotal.Recompute | src/pages/Orders/NewOrder/components/OrderModal.tsx:178-187 | as intended: always the cart's total, 0 for an empty or missing cart |
| NewOrderModal.StaleTotalAfterEmptyingCart | src/pages/Orders/NewOrder/components/OrderModal.tsx:179 | emptying a one-line cart leaves 50.00 on screen while the cart totals 0 |
| NewOrderModal.RecomputeFollowsCart | src/pages/Orders/NewOrder/components/OrderModal.tsx:178-187 | with the intended effect, the debt shown depends only on the last cart |
| NewOrderModal.OnStatusChanged | src/pages/Orders/NewOrder/components/OrderModal.tsx:189-197 | closes, with the form reset, exactly when open and the create of the order succeeded |
| OrderEditModal.InitialValues | src/pages/Orders/OrderDetails/components/OrderModal.tsx:61-71 | exactly the form's fields: the ids of the order's branch and seller, else ""; the order's truthy values; for a falsy or missing value "" for customer, phone, address and note, 0 for discount and seller share, today for the sale date; every default with no order |
| OrderEditModal.AcceptedMeans | src/pages/Orders/OrderDetails/components/OrderModal.tsx:73-83 | the schema accepts exactly when branch and seller are numbers, customer, phone, address and sale date are filled in, discount and seller's share are numbers or empty, and no text field holds a record |
| OrderEditModal.SchemaCoversSubmission | src/pages/Orders/OrderDetails/components/OrderModal.tsx:73-121 | the schema names exactly the fields the submission considers, in order |
| OrderEditModal.Submit | src/pages/Orders/OrderDetails/components/OrderModal.tsx:85-121 | the submission is the changed-field diff of the form against the order |
| OrderEditModal.BranchAndSellerAlwaysSent | src/pages/Orders/OrderDetails/components/OrderModal.tsx:85-121 | since the order holds records and the form ids, the branch and seller are always sent |
| OrderEditModal.UntouchedSaveSendsBranchAndSeller | src/pages/Orders/OrderDetails/components/OrderModal.tsx:61-121 | saving untouched an order whose other fields are filled sends exactly the branch and seller ids |
| OrderEditModal.UntouchedIdsChanged | src/pages/Orders/OrderDetails/components/OrderModal.tsx:61-63 | the branch and seller ids the form opens with always count as changed against the order's nested records |
| OrderEditModal.UntouchedDetailsUnchanged | src/pages/Orders/OrderDetails/components/OrderModal.tsx:61-71 | an order whose other fields are filled in opens with its own values there, so none of them counts as changed |
| OrderEditModal.EmptyNoteIsResent | src/pages/Orders/OrderDetails/components/OrderModal.tsx:61-121 | a null note opens as "" and is sent even when untouched |
| OrderEditModal.SelectBranch | src/pages/Orders/OrderDetails/components/OrderModal.tsx:160-162 | a new branch clears the seller; a falsy choice changes nothing |
| OrderEditModal.OnStatusChanged | src/pages/Orders/OrderDetails/components/OrderModal.tsx:165-172 | closes, with the form reset, exactly when open and the update of the order succeeded |
| CartProductModal.Title | src/pages/Orders/NewOrder/components/ProductModal.tsx:53 | the edit title exactly when editing, the create title exactly when not |
| CartProductModal.InitialValues | src/pages/Orders/NewOrder/components/ProductModal.tsx:63-69 | exactly the form's fields: the ids of the line's product and supplier, else ""; the line's truthy size, price and quantity, else ""; all "" with no line |
| CartProductModal.AcceptedMeans | src/pages/Orders/NewOrder/components/ProductModal.tsx:71-81 | the schema accepts exactly when product and supplier are numbers, the price a number ≥ 0, the quantity a number ≥ 1, and the size text of at most 255 characters or empty |
| CartProductModal.SchemaCoversSubmission | src/pages/Orders/NewOrder/components/ProductModal.tsx:71-107 | the schema names exactly the fields the submission considers, in order |
| CartProductModal.Submit | src/pages/Orders/NewOrder/components/ProductModal.tsx:83-107 | the submission is the changed-field diff of the form against the line |
| CartProductModal.ProductAndSupplierAlwaysSent | src/pages/Orders/NewOrder/components/ProductModal.tsx:83-107 | an edit always sends the product and supplier |
| CartProductModal.UntouchedSaveSendsProductAndSupplier | src/pages/Orders/NewOrder/components/ProductModal.tsx:63-107 | saving a filled-in line untouched sends exactly the product and supplier ids |
| CartProductModal.UntouchedIdsChanged | src/pages/Orders/NewOrder/components/ProductModal.tsx:63-65 | the product and supplier ids the form opens with always count as changed against the line's nested records |
| CartProductModal.UntouchedDetailsUnchanged | src/pages/Orders/NewOrder/components/ProductModal.tsx:63-69 | a line whose size, price and quantity are filled in opens with its own values there, so none of them counts as changed |
| CartProductModal.SelectProduct | src/pages/Orders/NewOrder/components/ProductModal.tsx:201-206 | a truthy choice clears the supplier and sets the product, opening the supplier select; a falsy one changes nothing |
| CartProductModal.OnStatusChanged | src/pages/Orders/NewOrder/components/ProductModal.tsx:148-159 | closes, with the form reset, exactly when open and the update (editing) or create (adding) of the line succeeded |
| FactorySaleModal.Title | src/pages/Factory/Sales/components/FormModal.tsx:52 | the edit title exactly when editing, the create title exactly when not |
| FactorySaleModal.InitialValues | src/pages/Factory/Sales/components/FormModal.tsx:66-71 | exactly the form's fields: the id of the sale's product, else ""; its truthy price, quantity and date; "" for a falsy or missing price or quantity, today for a falsy or missing date; a new sale blank and dated today |
| FactorySaleModal.AcceptedMeans | src/pages/Factory/Sales/components/FormModal.tsx:73-82 | the schema accepts exactly when the rules for product, price, quantity and date all pass, as stated field by field |
| FactorySaleModal.SchemaCoversSubmission | src/pages/Factory/Sales/components/FormModal.tsx:73-104 | the schema names exactly the fields the submission considers, in order |
| FactorySaleModal.Submit | src/pages/Factory/Sales/components/FormModal.tsx:84-104 | the submission is the changed-field diff of the form against the sale |
| FactorySaleModal.UntouchedSaveSendsProduct | src/pages/Factory/Sales/components/FormModal.tsx:66-104 | saving a filled-in sale untouched sends exactly the product id |
| FactorySaleModal.OnStatusChanged | src/pages/Factory/Sales/components/FormModal.tsx:128-139 | closes, with the form reset, exactly when open and the update or create of the sale succeeded |
| ExpenseModal.Title | src/pages/Expenses/components/FormModal.tsx:51 | the edit title exactly when editing, the create title exactly when not |
| ExpenseModal.DefaultBranch | src/pages/Expenses/components/FormModal.tsx:66-69 | the expense's own branch, else a STORE user's branch, else "" |
| ExpenseModal.InitialValues | src/pages/Expenses/components/FormModal.tsx:64-72 | exactly the form's fields: the default branch; the expense's truthy name, amount and date; "" for a falsy or missing name or amount, today for a falsy or missing date; a new expense blank and dated today |
| ExpenseModal.AcceptedMeans | src/pages/Expenses/components/FormModal.tsx:74-81 | the schema accepts exactly when the name is filled in, the branch is a number or empty, the amount a number ≥ 1, and the date filled in |
| ExpenseModal.SchemaCoversSubmission | src/pages/Expenses/components/FormModal.tsx:74-103 | the schema names exactly the fields the submission considers, in order |
| ExpenseModal.Submit | src/pages/Expenses/components/FormModal.tsx:83-103 | the submission is the changed-field diff of the form against the expense |
| ExpenseModal.StoreUserBooksOnOwnBranch | src/pages/Expenses/components/FormModal.tsx:64-72 | a STORE user's new expense is on their own branch, with the branch select locked |
| ExpenseModal.ExpenseKeepsItsBranch | src/pages/Expenses/components/FormModal.tsx:66-69 | an expense with a branch opens on it, whoever edits it |
| ExpenseModal.UntouchedSaveSendsBranch | src/pages/Expenses/components/FormModal.tsx:64-103 | saving a filled-in expense untouched sends exactly the branch id |
| ExpenseModal.OnStatusChanged | src/pages/Expenses/components/FormModal.tsx:124-136 | closes, with the form reset, exactly when open and the update or create of the expense succeeded |
| ItemPages.ItemPage.constructor | src/pages/Orders/NewOrder/components/ProductContainer.tsx:27-28 | nothing selected, both modals closed, nothing sent |
| ItemPages.ItemPage.ModalData | src/pages/Orders/NewOrder/components/ProductContainer.tsx:146 | the form reads a record exactly when one is selected, and it reads the selected one |
| ItemPages.ItemPage.OnCreate | src/pages/Orders/NewOrder/components/ProductContainer.tsx:30-33 | nothing selected, form open, not editing |
| ItemPages.ItemPage.OnUpdate | src/pages/Orders/NewOrder/components/ProductContainer.tsx:35-38 | the record selected, form open, editing |
| ItemPages.ItemPage.HandleSubmit | src/pages/Orders/NewOrder/components/ProductContainer.tsx:40-48 | the update of the selected record, or else a create, is sent; it is the request the form waits for |
| ItemPages.ItemPage.CloseFormModal | src/pages/Orders/NewOrder/components/ProductContainer.tsx:28 | the form closes; the selection is kept |
| ItemPages.ItemPage.OnDelete | src/pages/Orders/NewOrder/components/ProductContainer.tsx:53-56 | the record selected, confirmation open |
| ItemPages.ItemPage.HandleDelete | src/pages/Orders/NewOrder/components/ProductContainer.tsx:58-61 | the delete of the selected record, if any; the confirmation closes either way |
| ItemPages.ItemPage.CloseDeleteModal | src/pages/Orders/NewOrder/components/ProductContainer.tsx:51 | the confirmation closes; nothing else changes |
| CartProducts.NewCartTable | src/pages/Orders/NewOrder/components/ProductContainer.tsx:27-61 | the page state wired to the cart-line create, update and delete requests |
| CartProducts.AsItem | src/pages/Orders/NewOrder/components/ProductContainer.tsx:35-38 | a cart line is selected under its own id, with its fields |
| CartProducts.View | src/pages/Orders/NewOrder/components/ProductContainer.tsx:63-99 | no cart shows loading or not-found; a cart shows one row total per line |
| CartProducts.ShownRowsAddUpToCartTotal | src/pages/Orders/NewOrder/components/ProductContainer.tsx:99 | the row totals shown add up to the order form's cart total |
| FactoryProducts.DocumentTitle | src/pages/Factory/Products/index.tsx:28-30 | the document title is "Məhsullar \| " and the project name, and its page title reads back as "Məhsullar" |
| FactoryProducts.NewProductsPage | src/pages/Factory/Products/index.tsx:36-39 | the page state wired to the factory product requests |
| FactoryProducts.EditThenSave | src/pages/Factory/Products/index.tsx:46-57 | editing a product and saving sends exactly the update of that product, with the form in edit mode |
| FactoryProducts.DeleteAfterAbandonedEdit | src/pages/Factory/Products/index.tsx:60-70 | an abandoned edit followed by a confirmed delete sends exactly one delete, of the product asked for |
| OrdersTable.ColumnVisibility | src/pages/Orders/Orders/components/TableContainer.tsx:249-254 | a STORE user sees none of the four columns; anyone else sees worker, installation date and profit, and the branch exactly on the all-branches page |
| OrdersTable.BranchCell | src/pages/Orders/Orders/components/TableContainer.tsx:145-154 | nothing exactly for a STORE user; otherwise the branch's name |
| OrdersTable.WorkerCell | src/pages/Orders/Orders/components/TableContainer.tsx:175-184 | nothing exactly for a STORE user; otherwise a text holding the worker's name, empty when there is no worker |
| OrdersTable.InstallDateCell | src/pages/Orders/Orders/components/TableContainer.tsx:185-196 | nothing exactly for a STORE user; otherwise the installation date |
| OrdersTable.DebtCell | src/pages/Orders/Orders/components/TableContainer.tsx:209-211 | the debt and the amount paid add up to the total price |
| OrdersTable.ProfitCell | src/pages/Orders/Orders/components/TableContainer.tsx:222-229 | the profit is shown exactly to a non-STORE user for an order from READY on (RETURN included), and it is the row's profit |
| OrdersTable.VisibleColumnsRender | src/pages/Orders/Orders/components/TableContainer.tsx:147-254 | every visible column renders (profit from READY on) and every column hidden from a STORE user renders nothing |
| OrdersTable.ProfitShownAsOnOrderPage | src/pages/Orders/Orders/components/TableContainer.tsx:224-228 | a row's profit is shown exactly when the order page shows its net profit to a WAREHOUSE user |
| OrdersTable.StatOr0 | src/pages/Orders/Orders/components/TableContainer.tsx:202-233 | a statistic, or 0 when the statistics or the field are missing |
| OrdersTable.IdFooter | src/pages/Orders/Orders/components/TableContainer.tsx:104-106 | the number of orders, 0 until the statistics answer or when they lack it |
| OrdersTable.TotalFooter | src/pages/Orders/Orders/components/TableContainer.tsx:202-205 | nothing exactly for a STORE user; otherwise the total amount, 0 until the statistics answer |
| OrdersTable.DebtFooter | src/pages/Orders/Orders/components/TableContainer.tsx:213-220 | nothing exactly for a STORE user; otherwise the total amount less the amount paid |
| OrdersTable.ProfitFooter | src/pages/Orders/Orders/components/TableContainer.tsx:230-233 | nothing exactly for a STORE user; otherwise the total profit |
| OrdersTable.FootersAgree | src/pages/Orders/Orders/components/TableContainer.tsx:104-106 | money footers hidden exactly from STORE users; the debt footer is the total less the paid amount; everything 0 before the statistics answer |
| OrdersTable.PageCount | src/pages/Orders/Orders/components/TableContainer.tsx:277 | the fewest pages of `limit` rows that hold `count` rows; 0 pages exactly for 0 rows |
| OrdersTable.ListQuery | src/pages/Orders/Orders/components/TableContainer.tsx:60-62 | the filters with the page, the page size, the order and the page's branch (null on the page of all branches) overriding filters of the same name; every other filter passed on |
| OrdersTable.StatsQuery | src/pages/Orders/Orders/components/TableContainer.tsx:63 | the filters with the page's branch over any branch filter; every other filter passed on |
| OrdersTable.StatsMatchList | src/pages/Orders/Orders/components/TableContainer.tsx:59-70 | the list and statistics requests agree on every parameter but page, limit and ordering, and both carry the page's branch |
| OrdersTable.StatusFilterOptions | src/pages/Orders/Orders/components/TableContainer.tsx:118-121 | one option per status, in code order, valued by its code as text |
| OrdersTable.StatusFilterOffersEachStatusOnce | src/pages/Orders/Orders/components/TableContainer.tsx:118-121 | every status is offered, no two options share a value, and option i has code i |
| WarehouseItemSlice.ItemSlice.constructor | src/store/warehouse/item/slice.ts:32-46 | idle, no errors, no data, zero counts |
| WarehouseItemSlice.ItemSlice.ResetState | src/store/warehouse/item/slice.ts:52-59 | back to the initial state, except the statistics count and the overall statistics |
| WarehouseItemSlice.ItemSlice.Pending | src/store/warehouse/item/slice.ts:63-66 | loading that request, errors cleared, data untouched |
| WarehouseItemSlice.ItemSlice.Rejected | src/store/warehouse/item/slice.ts:73-76 | that request failed with the payload as errors, data untouched |
| WarehouseItemSlice.ItemSlice.ItemsFulfilled | src/store/warehouse/item/slice.ts:67-72 | the page of items and its count, `update` cleared, statistics untouched |
| WarehouseItemSlice.ItemSlice.StatsFulfilled | src/store/warehouse/item/slice.ts:85-92 | the statistics and their count only |
| WarehouseItemSlice.ItemSlice.AllStatsFulfilled | src/store/warehouse/item/slice.ts:108-114 | the overall statistics only |
| WarehouseItemSlice.StatsFailureKeepsItems | src/store/warehouse/item/slice.ts:63-99 | a failed statistics request leaves the items the list request loaded |
| AuthSlice.Auth.constructor | src/store/auth/slice.ts:19-27 | no flag set, no errors, signed out |
| AuthSlice.Auth.SetIsAuth | src/store/auth/slice.ts:33-35 | the sign-in flag only |
| AuthSlice.Auth.LoginPending | src/store/auth/slice.ts:39-42 | loading, errors cleared, sign-in state untouched |
| AuthSlice.Auth.TokenPending | src/store/auth/slice.ts:52-56 | loading, errors cleared, signed out until the token is confirmed |
| AuthSlice.Auth.Fulfilled | src/store/auth/slice.ts:43-46 | success and signed in, errors kept |
| AuthSlice.Auth.Rejected | src/store/auth/slice.ts:47-50 | failure with the payload as errors, sign-in state untouched |
| AuthSlice.Auth.LogoutPending | src/store/auth/slice.ts:79-83 | signed out at once, reported as success |
| AuthSlice.FailedTokenRequestSignsOut | src/store/auth/slice.ts:52-78 | a failed refresh or check of the token leaves the user signed out |
| AuthSlice.FailedLoginKeepsState | src/store/auth/slice.ts:39-50 | a failed sign-in leaves the sign-in state as it was |

## Left out

- HTTP requests, the thunks' bodies, the API client and `getFormData` are not modelled. A request is recorded as a `Dispatch` value, and its answer is a parameter of the reducer methods.
- React rendering and effect scheduling are not modelled. Each effect is a method the caller invokes when its dependency changes.
  - The seller and supplier reset is modelled as part of choosing a new branch or product.
  - Not modelled: the reset effect's first run on mount, which clears a seller the edit form opened with, and Formik's `enableReinitialize`.
- Number formatting is out of scope. `toFixed(2)` and the currency's decimal places are a parameter of `Config.FormatPrice`, and amounts are whole cents.
- Dates are out of scope. Today's date is a parameter.
- Floating point is out of scope. `Math.ceil(count / limit)` is modelled on naturals with `limit > 0`. A limit of 0 (a division by zero) is not modelled.
- `hasPermission` and `hasPermissionByStatus` are defined outside this model. Their answers are the inputs `Permissions`.
- `ORDER_STATUS` and `ORDER_STATUS_LABELS` are defined outside this model. Their codes are assumed to be as stated above, and the label texts are left out.
- OrderDetails.OrderContainer.ReceiveOrder and NewOrderModal.CartTotal.OnItemsChanged keep the source's `length > 0` guard.
  - For the new-order form, the stale total this causes is under Findings.
  - On the details page, an order with no items keeps the sums of the order shown before it (`OrderContainer.tsx:60-76`). ReceiveOrder's contract states this, but no corrected definition is given.
- OrderCart.LineAmount reads a missing price or quantity as 0 for both the cart total and the cart table's row. The row computes `Number(price) * Number(quantity)`, which is 0 for a `null` amount but NaN for an absent key. The API sends `null` for a missing amount, so the absent key is not modelled.
- CartProductModal.AcceptedMeans counts the size's length in characters (`|s|`). Yup's `max(255)` counts UTF-16 code units, so a size with characters outside the Basic Multilingual Plane is refused earlier than the model says.
- OrderDetails.OrderContainer.HandleDelete does not model the navigation to `/orders` once the delete succeeds (`OrderContainer.tsx:52`). Navigation is not modelled.
- NewOrderModal.DefaultBranch and ExpenseModal.DefaultBranch read a STORE user's branch as an id, 0 when there is none. In the source, a STORE user whose branch is `null` makes `user.branch.id` throw (`OrderModal.tsx:63`, `FormModal.tsx:68`), and the form does not open; the model opens it on "".
- OrdersTable.ColumnVisibility reads a missing `branchID` as `null`. The source compares `branchID === null`, so an `undefined` id would hide the branch column; that case is not modelled.
- The page titles of the new-order and order-edit modals are not modelled.
- The orders table's loading flag (`TableContainer.tsx:271-273`) is not modelled: it only chooses a spinner.
- The option lists fetched for branches, sellers, products, suppliers and workers are not modelled.
- `getSelectStyle` and the other purely presentational helpers are not modelled.
- The other table containers and the sidebar and menu components are not modelled: they only lay out data.
- Forms.CheckMeans: a number rule accepts only a `Num` value. Yup's `number()` also accepts text that parses as a number, such as the decimal text ("12.00") the API returns for an amount. Text-to-number coercion is not modelled.

## Findings

| source | as written | input that shows it | evidently intended | confidence | as-written member | corrected member |
|---|---|---|---|---|---|---|
| src/pages/Orders/NewOrder/components/OrderModal.tsx:179 | the cart total is recomputed only while the cart has at least one line | a cart with one line of price 25.00 and quantity 2, from which that line is then deleted: the form keeps showing a total of 50.00 (and the matching debt) for an empty cart | the total follows the cart and is 0 for an empty cart | medium, not executed | NewOrderModal.StaleTotalAfterEmptyingCart | NewOrderModal.RecomputeFollowsCart |
