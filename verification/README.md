# Teggo: verified models of its protocols, ledgers, compilers and printers

Teggo is a B2B commerce back end written in Go. This project models the parts of it that are more than request
handling, and proves properties of the models. `dafny verify dfyconfig.toml` checks all of it.

Each module follows one area of the repository:

- `Sql`, `Relational`, `Report`, `ReportMeaning`, `ReportCorrect`: the report compiler. `Report` turns a definition into
  SQL text exactly as the repository does, loop by loop. `Sql` reads such text back. `Relational` gives queries a meaning on stored
  tables. `ReportMeaning` says, without SQL, what a definition asks for, and `ReportCorrect` proves that the two agree.
- `FieldPush`, `FieldRecords`, `FieldPull`: offline synchronisation of field devices. A push is answered once per change id; a pull delivers
  the change log by cursor.
- `Workflow`, `Shipments`, `ShipmentDraw`, `ShipmentTotals`, `ShipmentStock`, `Inventory`, `Returns`: the configurable state machine, the
  shipment hook inside its transaction, what leaves the house against what was ordered, and the stock cache that has to
  agree with the movement ledger.
- `TenantCtx`, `PoolPinning`, `Gate`, `TtlCache`: the session setting of pooled connections, plan quotas, and the two caches
  with a lifetime. These are interleaved steps of concurrent requests.
- `Money`, `Split`, `Payouts`: exact decimals, commission split and vendor payouts.
- `Edi`, `EdiReading`, `Sheet`, `SheetReading`: the X12 writer and reader, and the spreadsheet writer with a reader for
  what it emits.
- `Calendar`, `Rebates`, `Subscriptions`: dates, rebate periods and tiers, recurring orders.
- `Promotions`, `Merchandising`, `Customers`: choosing a discount, reordering a result page, and the customer hierarchy.
- `Prelude`: sums, numerals, white space.

An object or table that the repository updates in place is a class here, and a loop there is a loop here. Each such
method is proved equal to a function of the old state, and the lemmas are about that function: over every input, every
run or every interleaving. A database transaction either commits everything or changes nothing. Database queries are
modelled by what their SQL says; clocks, the network, and values read from JSON are arguments.

## Where the code does not do what is claimed for it

The model follows the code. In each of these places one lemma gives a concrete case and another says exactly when the
claim holds.

- A report on opportunities may use the dimension or filter `stage`. The registry calls its column `ps.name`, and the table
  `pipeline_stages` (migrations/0013_crm.sql) has `code` and `label` but no `name`. Such a definition is accepted, and its
  SQL is always refused by the database (`ReportCorrect.StageReportFails`, `ReportCorrect.ResolvesIff`). Every other
  accepted definition means what it says, as far as its arguments reach the database as the values they are
  (`ReportCorrect.CompiledMeans`; see below for a fractional number compared with an integer column).
- A payout is said to total exactly the orders it settles. Listing and attaching are two statements that see two states: an
  order delivered in between is attached without being totalled (`Payouts.DeliveryInBetweenUnpaid`), and one that another
  payout settles in between is totalled again, so that its vendor is paid twice (`Payouts.PaidTwice`). The sets agree exactly
  when no order became payable and no listed one was taken away (`Payouts.AmountMatchesSettledSet`, and over runs of
  overlapping transactions `Payouts.SharedMatchesIff`).
- A vendor's status change is checked against what was read and written without looking again, so an order can be cancelled
  after it was paid out (`Payouts.CancelledAfterPayout`, `Payouts.SharedDeliveredIff`).
- The change log is pulled by cursor. A row that becomes visible behind the cursor is never delivered: one appended between
  the two queries of a short pull (`FieldPull.AppendInBetweenSkipped`, `FieldPull.CursorBehindUndeliveredIff`), and in general
  any that is not ahead of the device's cursor after the step in which it appears (`FieldPull.EachOnceIff`).
- A push is idempotent because its outcome is logged, and errors of writing and of reading the log are ignored
  (`FieldPush.NoteTwice`, `FieldPush.RetryHarmlessIff`, `FieldPush.RetryLaterIff`).
- Shipment and return requests are checked line by line against what is stored, so one request that names a line twice
  ships or returns more than was ordered (`Shipments.RepeatedLineOverships`, `Shipments.CreateWithinIff`,
  `Returns.RepeatedLineOverReturns`, `Returns.CreateWithinIff`).
- They are checked before the transaction that writes them, so two overlapping requests can both pass
  (`Shipments.OverlappingOverships`, `Shipments.StoreWithinIff`, `Returns.OverlappingOverReturns`, `Returns.StoreWithinIff`).
- A shipment accepts a negative quantity, which makes room for another to carry more than was ordered
  (`ShipmentTotals.NegativeQuantityOverships`, `ShipmentTotals.DecisionsWithinIff`, `ShipmentTotals.RunWithinIff`).
- A return accepts a negative quantity, and rejecting it later lets the rest exceed the order
  (`Returns.NegativeQuantityOverReturns`, `Returns.RejectWithinIff`, `Returns.DecisionsWithinIff`, `Returns.RunWithinIff`).
- A manual stock adjustment is rounded once as a movement and once as part of the level, which can differ for a quantity
  with more than four decimals (`Inventory.HalfUnitParts`, `Inventory.AdjustAgreesIff`, `Inventory.RunAgreesIff`).
- A cache lookup that asked the database before a change can store its answer after the invalidation
  (`TtlCache.SuspensionMissed`, `TtlCache.InvalidateCurrentIff`).
- A date's sweep is said to create one order for each due subscription. A listed subscription is run without looking again
  whether it is due, so overlapping sweeps, or a sweep and an immediate run, place two
  (`Subscriptions.TwoOrders`, `Subscriptions.OverlapSpacedIff`).
- A monthly or quarterly schedule from a day the target month does not have runs in the month after
  (`Subscriptions.FebruaryGetsNoRun`, `Subscriptions.StepKeepsDayIff`).
- Reordering a page is a permutation only when no pinned product is on it twice (`Merchandising.PinnedTwiceOnce`, `Merchandising.PermutationIff`).
- The cycle check and the write are two statements: two overlapping re-parentings can close a cycle inside one organisation,
  on which the ancestor query never ends (`Customers.CycleInside`, `Customers.SharedForestIff`).
- The cycle check follows links inside an organisation, while updating accepts a parent of another one, and the price queries
  (internal/store/queries/pricing.sql) follow every link when no organisation is set on the session. Two organisations can
  close a cycle on which these never end (`Customers.CycleAcrossOrgs`, `Customers.PriceWalksEndIff`, `Customers.RunPriceWalksIff`).

## Model

| member | source | states |
|---|---|---|
| Report.Compile | internal/report/report.go:161-247 | The compiling loops return the error of the first offending part, or the SQL text, arguments and column names of the planned query |
| Report.AddDimensions | internal/report/report.go:170-180 | Dimensions become selected, cast and named expressions and GROUP BY expressions in order; the first unknown one is the error |
| Report.AddMeasures | internal/report/report.go:182-203 | Measures follow, count of all rows included; the first one's expression becomes the descending order |
| Report.AddFilters | internal/report/report.go:205-222 | The organisation is $1 and each filter appends one bound value and one comparison with its own number |
| Report.Assemble | internal/report/report.go:224-244 | The clauses are joined in order, without GROUP BY when there are no dimensions, with a limit of 1 to 10000 |
| Report.AcceptedIff | internal/report/report.go:162-219 | A definition is accepted exactly when it names one of the three entities and a measure, and every dimension, measure, filter field, operator and value is on that entity's lists by name |
| Report.RefusedFor | internal/report/report.go:161-219 | The error is that of the first offending part: entity, no measure, then dimensions, measures and filters in order |
| Report.ParametersBind | internal/report/report.go:205-222 | Parameter 1 is the organisation and parameter k+1 what filter k's value says: its instant for a date, its number - an integer when it is whole - for the customer, else its text; there are no others |
| Report.TextIgnoresValues | internal/report/report.go:3-6 | Definitions that differ in filter values only, and any two organisations, get the same SQL text: no value reaches it |
| Report.IdentUnchanged | internal/report/report.go:346-355 | The fallback alias is never used: every output column is named after its own dimension or measure |
| Report.CompiledReadsBack | internal/report/report.go:224-246 | The text written for an accepted definition reads back as exactly the planned query |
| Sql.QueryReadsBack | internal/report/report.go:224-244 | The text of any query of the emitted grammar determines the query, character by character |
| Relational.AggregatedIgnoresOrder | internal/report/report.go:46 | Sum, average, count, minimum and maximum do not depend on the order rows are met in |
| Relational.SortedTakeIsTop | internal/report/report.go:200-244 | Sorting by the first measure and cutting at the limit chooses a best set |
| Relational.TopExtends | internal/report/report.go:200-244 | Every best set up to ties is the start of some sorted arrangement |
| Relational.ResolvesIffFound | internal/report/report.go:251-277 | A column of a query resolves exactly when the rows it scans have it, so a query that runs never meets a missing cell |
| ReportMeaning.ScanShows | internal/report/report.go:84-117 | The joined rows of an entity are its orders, its invoices each with its own order, or its opportunities, one for one |
| ReportCorrect.WhereSelects | internal/report/report.go:206-222 | A row satisfies the WHERE clause exactly when it is the organisation's and its attributes compare with the filters' texts, instants and numbers as they ask |
| ReportCorrect.QueryGroupsTell | internal/report/report.go:172-203 | There is one group for each combination of dimension values that occurs, and its row is those values and the measures over their rows |
| ReportCorrect.ResolvesIff | internal/report/report.go:108-116 | All columns of an accepted query exist exactly when the definition does not use the stage |
| ReportCorrect.CompiledMeans | internal/report/report.go:158-247 | On any database, what the SQL text returns with its arguments is exactly a direct answer to the definition: own rows passing every filter, grouped, aggregated, best by first measure up to ties; and nothing for a definition that uses the stage |
| ReportCorrect.ResultLimited | internal/report/report.go:239-243 | A result has at most as many lines as asked for when that is 1 to 10000, otherwise 10000, and fewer only when no combination of dimension values is left out |
| ReportCorrect.StageReportFails | internal/report/report.go:108-116 | Counting opportunities by stage is accepted and never returns |
| ReportCorrect.SomeResult | internal/report/report.go:251-277 | A query whose columns exist always returns something |
| ReportCorrect.OwnRowsSuffice | internal/report/report.go:205-206 | The facts of an answer are the same on the organisation's own rows alone |
| ReportCorrect.OtherOrgsIrrelevant | internal/report/report.go:158-206 | Two databases with the same rows of the organisation give the same results |
| FieldPush.FieldServer.Push | internal/modules/field/push.go:56-59 | A batch is applied in order with one reply for each change |
| FieldPush.FieldServer.ApplyChange | internal/modules/field/push.go:65-93 | A change id found in the log is answered from it; otherwise, also when the log cannot be read, the change is dispatched and its outcome logged if that write succeeds |
| FieldPush.FieldServer.DispatchChange | internal/modules/field/push.go:96-108 | Read-only and unsupported entities are rejected without effect |
| FieldPush.FieldServer.PushActivity | internal/modules/field/push.go:111-166 | An activity is created, edited, found in conflict or rejected, also for a status the database does not know |
| FieldPush.FieldServer.PushOrder | internal/modules/field/push.go:169-244 | An order is mapped, priced and inserted with its items in one transaction, or rejected, also for a currency that does not fit its column |
| FieldRecords.EditStores | internal/modules/field/push.go:124-147 | An edit is applied exactly when the activity is there, the representative's, not newer than the base and gets a known status; the record then has the subject and status sent, or the old ones where empty, and the body sent, and keeps kind, customer and owner |
| FieldRecords.CreateStores | internal/modules/field/push.go:149-166 | When an activity is created, and its record field by field |
| FieldRecords.OrderStores | internal/modules/field/push.go:169-244 | When an order is created, and what it holds: customer, currency, number, one priced item for each line with its row total, and their sum as subtotal |
| FieldRecords.OthersRejected | internal/modules/field/push.go:65-108 | Any other entity, an unreadable payload and an invalid change id are rejected without effect |
| FieldPush.ExactlyOnce | internal/modules/field/push.go:70-89 | When first occurrences are logged and repeats can read the log, any run with repeats in any order ends in the state of the first occurrences alone |
| FieldPush.ReplaysAgree | internal/modules/field/push.go:72-77 | Every replay of a logged change that can read the log reports the first status and server id |
| FieldPush.RetryHarmlessIff | internal/modules/field/push.go:65-93 | A retry leaves all records as after the first arrival exactly when its log row was written and can be read, or it was not applied, or it is an edit its own application has outdated |
| FieldPush.RetryLaterIff | internal/modules/field/push.go:65-93 | A retry after any other changes leaves the records as it finds them exactly when it can read a row written for its id, or does not apply: an edit by what it finds, anything else as the first arrival did |
| FieldPush.LostLogWriteDuplicates | internal/modules/field/push.go:81-89 | When writing or reading the log row is lost a retried order is created again |
| FieldPush.NoteTwice | internal/modules/field/push.go:81-89 | A note whose log row is lost is there twice after a retry |
| FieldPush.EditConflictsIff | internal/modules/field/push.go:124-147 | An edit of one's own activity conflicts exactly when its base is older than the server's copy, else is rejected exactly when its status is none the database knows, else is applied; only an applied one changes a record, and then that one alone |
| FieldPush.NewerStays | internal/modules/field/push.go:111-166 | A copy newer than a base stays newer, with its owner, whatever is pushed |
| FieldPush.SecondEditConflicts | internal/modules/field/push.go:124-147 | Of two edits from one base at most one is applied, whatever arrives in between |
| FieldPull.SyncServer.Pull | internal/modules/field/handler.go:80-104 | The delta and cursor of a pull, with any rows becoming visible between its two queries; the cursor also becomes the device's stored one |
| FieldPull.CatchUpIdle | internal/modules/field/handler.go:90-103 | Without appends in between, the catch-up step leaves the cursor at the last delivered id |
| FieldPull.PullDelivers | internal/modules/field/handler.go:82-103 | A pull delivers exactly the in-scope rows between the old and the new cursor |
| FieldPull.PullGives | internal/store/queries/field.sql:32-41 | A pull gives at most 200 rows, of the organisation and either the representative's own or everybody's, beyond the cursor with growing ids; when it gives fewer there is no other |
| FieldPull.EachOnceIff | internal/modules/field/handler.go:80-104 | Over any run, with rows becoming visible in any order and at any moment, the device has exactly the in-scope rows up to its cursor, each once and in id order, if and only if every in-scope row was ahead of the cursor after the step in which it appeared |
| FieldPull.EachOnceInOrder | internal/modules/field/handler.go:80-104 | Over any run of pulls in which rows become visible in the order of their ids and between pulls, the device has every in-scope row up to its cursor once, in id order |
| FieldPull.ShortPullCatchesUp | internal/modules/field/handler.go:82-103 | After any such run a pull shorter than a batch leaves nothing in scope undelivered |
| FieldPull.CursorBehindUndeliveredIff | internal/modules/field/handler.go:82-103 | With appends between the two queries, the cursor stays behind every undelivered row exactly when the batch was full or none of them is in scope |
| FieldPull.AppendInBetweenSkipped | internal/modules/field/handler.go:98-103 | A row appended in between is skipped for good |
| Workflow.Engine.EnsureInstance | internal/workflow/engine.go:107-129 | An existing instance is returned, or one is created at the named state |
| Workflow.EnsureIs | internal/workflow/engine.go:107-129 | There is one instance of the entity afterwards, at the named state if it is new; without definition or state there is none |
| Workflow.Pick | internal/store/queries/workflow.sql:36-47 | A chosen transition matches definition, target and current state, and no other matching one comes before it |
| Workflow.PickIs | internal/store/queries/workflow.sql:36-47 | A transition that names its from-state wins over one that does not, then the smaller sort order |
| Workflow.Engine.ApplyTransitionTo | internal/workflow/engine.go:135-221 | Plan and guards come first, then state, log and hook in one transaction |
| Workflow.GuardsDecide | internal/workflow/engine.go:164-179 | All guards must be registered and allow; the first that is not decides the error |
| Workflow.AppliedIff | internal/workflow/engine.go:135-208 | An application succeeds exactly when the state is known and not final, a transition is chosen, its guards allow and the hook accepts; then state, one log row and the hook's result are written and nothing else |
| Workflow.ApplyKeepsTraced | internal/workflow/engine.go:135-221 | An application keeps every log a path; a refusal or failing hook changes nothing; a final state refuses |
| Workflow.RunTraced | internal/workflow/engine.go:135-221 | Over every run, with any guards and hooks, each log is a connected path of defined edges ending at the current state |
| Workflow.FinalAbsorbs | internal/workflow/engine.go:142-149 | No continuation moves an instance out of a final state or logs anything for it |
| Workflow.EnteredOnce | internal/workflow/engine.go:135-221 | In an acyclic definition no state is entered twice |
| Workflow.CommitTracedIff | internal/workflow/engine.go:181-208 | Committing a plan keeps the log a path exactly when the instance has not moved since the plan was made |
| Shipments.ShippingDesk.CreateShipment | internal/modules/otc/shipments.go:42-118 | A request is accepted when every line is of the order and within what remains of it, and only then stored |
| Shipments.ShippingDesk.PatchShipmentStatus | internal/modules/otc/shipments.go:122-185 | Shipment status and stock follow the workflow inside its transaction |
| Shipments.CreateStores | internal/modules/otc/shipments.go:42-118 | When a request is stored, and the shipment it becomes: pending, from the warehouse named or the default one, each line rounded to stored units |
| ShipmentDraw.ShippingDraws | internal/modules/otc/shipments.go:151-168 | A status change to shipped lowers on-hand and reserved of every tracked key of its warehouse by all the shipment carries of the product, books exactly that, and leaves all else; any other status change leaves stock as it is |
| ShipmentDraw.DrawnOnceShipped | internal/inventory/service.go:68-111 | Over serial runs, once a shipment was shipped the ledger shows exactly what it carries at the keys tracked then as drawn for it, for ever |
| ShipmentDraw.NothingDrawnBefore | internal/inventory/service.go:68-111 | What no step has shipped has drawn nothing |
| Shipments.CreateWithinIff | internal/modules/otc/shipments.go:76-111 | An accepted request keeps lines within the ordered quantity exactly when its quantities fit line by line together |
| Shipments.StoreWithinIff | internal/modules/otc/shipments.go:76-111 | Whenever it was checked, writing a request keeps lines within the order exactly when it fits what is stored by then |
| Shipments.CreateKeepsWithin | internal/modules/otc/shipments.go:76-111 | A request naming each line once keeps every line within the ordered quantity |
| Shipments.RepeatedLineOverships | internal/modules/otc/shipments.go:76-111 | Naming a line twice passes the check and ships too much |
| Shipments.OverlappingOverships | internal/modules/otc/shipments.go:76-111 | Two requests for all of a line that are both checked before either is written ship twice the order |
| Shipments.RunSound | internal/modules/otc/shipments.go:150-171 | Over every serial run, with whatever quantities, each shipment's log is a path, its status is its instance's state, and its stock is drawn at most once |
| Shipments.DrawnAtMostOnce | internal/modules/otc/shipments.go:155-168 | The ledger shows nothing or exactly one drawing of a shipment's own lines |
| Shipments.RunWithinOrdered | internal/modules/otc/shipments.go:76-168 | When requests name each line once, the signed total of a line over all shipments of any status stays within the order, and the stock cache agrees with the ledger |
| ShipmentTotals.PatchMovesIff | internal/modules/otc/shipments.go:145-185 | Under the seeded workflow a status change moves a shipment exactly along pending, shipped, delivered and returned, and touches no other |
| ShipmentTotals.DecisionsWithinIff | internal/modules/otc/shipments.go:76-171 | After any serial run, whichever shipments get shipped or returned, what is out of each line stays within the order exactly when the positive quantities of the shipments not returned together fit |
| ShipmentTotals.CreateWorstIff | internal/modules/otc/shipments.go:76-111 | An accepted request keeps it so exactly when each line it names has room for the positive part of what it asks |
| ShipmentTotals.RunWithinIff | internal/modules/otc/shipments.go:76-171 | Over any serial run every state stays within the order whichever shipments get shipped, exactly when each accepted request came while its lines had room |
| ShipmentTotals.NegativeQuantityOverships | internal/modules/otc/shipments.go:76-92 | A negative quantity passes every check and lets another shipment carry and ship twice what was ordered |
| ShipmentStock.FulfilledIsDrawn | internal/inventory/service.go:68-111 | All the ledger shows as fulfilled of a product is what the shipments have drawn of it, each at its own warehouse |
| ShipmentStock.StockDrawnWithinOrdered | internal/modules/otc/shipments.go:76-171 | With requests that name each line once and nothing negative, the stock drawn of a product in all warehouses never exceeds what was ordered of it |
| Shipments.DefaultAcyclic | migrations/0015_workflow_shipment.sql:5-31 | The seeded shipment workflow is well formed and acyclic, as the run theorems require |
| Inventory.Warehouse.ReserveForOrder | internal/inventory/service.go:25-63 | An order's tracked lines are all reserved, or none is |
| Inventory.Warehouse.FulfilShipment | internal/inventory/service.go:68-111 | Tracked lines leave stock and reservation in the shipment's or the default warehouse |
| Inventory.Warehouse.RestockReturn | internal/modules/otc/returns.go:279-303 | Tracked lines of a received return come back into the default warehouse |
| Inventory.Warehouse.ManualAdjust | internal/inventory/handler.go:165-219 | A receipt, return or adjustment changes level and ledger together, any other kind nothing |
| Inventory.AdjustEffect | internal/inventory/handler.go:165-219 | What a manual row does to its level and writes to the ledger; other kinds do nothing |
| Inventory.ConfigureEffect | internal/inventory/handler.go:124-163 | Configuring sets the backorder flag, creates an empty level if there is none, and moves no stock |
| Inventory.ReserveRows | internal/inventory/service.go:25-63 | A reservation's ledger rows are of its kind, order and warehouse |
| Inventory.RunAgrees | internal/inventory/service.go:25-111 | In every state reached with manual quantities rounded alike, on-hand and reserved are the sums of their movements |
| Inventory.AdjustAgreesIff | internal/inventory/handler.go:196-213 | A manual adjustment keeps cache and ledger in step exactly when both round its quantity alike |
| Inventory.RunAgreesIff | internal/inventory/handler.go:165-219 | Along any run cache and ledger agree in every state exactly when every manual quantity is rounded alike in both |
| Inventory.FourDecimalsAgree | internal/inventory/handler.go:165-219 | They always agree when manual quantities have at most four decimals |
| Inventory.HalfUnitParts | internal/inventory/handler.go:196-213 | A quantity of half a unit of the fourth decimal parts them |
| Inventory.RunNeverOversells | internal/inventory/service.go:38-61 | Over every serial run what is available of a product without backorder stays non-negative |
| Inventory.ReservesWhole | internal/inventory/service.go:38-61 | A successful reservation raises each tracked product by the order's whole quantity of it and touches nothing else |
| Inventory.ReserveIff | internal/inventory/service.go:38-61 | An order is accepted exactly when the whole quantity of every tracked product without backorder is available, repeated lines included |
| Returns.ReturnsDesk.ValidateAndCreateReturn | internal/modules/otc/returns.go:39-87 | A return is stored exactly when every line is of the order and within what has not been returned |
| Returns.ReturnsDesk.ApproveReturn | internal/modules/otc/returns.go:203-217 | Only a requested return is approved |
| Returns.ReturnsDesk.RejectReturn | internal/modules/otc/returns.go:220-235 | Only a requested return is rejected |
| Returns.ReturnsDesk.ReceiveReturn | internal/modules/otc/returns.go:239-317 | Only an approved return is received: status, restock and one credit note together |
| Returns.CreatedIff | internal/modules/otc/returns.go:44-60 | A request is stored exactly when every line is of the order and asks for no more than was ordered less what is on returns not rejected |
| Returns.OpEffect | internal/modules/otc/returns.go:39-317 | What creating, approving, rejecting and receiving write, the credit note within half a unit per line of the goods' value included |
| Returns.RestockRaises | internal/modules/otc/returns.go:279-303 | Receiving raises on-hand of each tracked product at the default warehouse by exactly what comes back of it, in level and ledger, and changes no other level, reservation or setting |
| Returns.RunWithinOrdered | internal/modules/otc/returns.go:44-80 | Over every serial run of non-negative requests naming each line once, no line has more returned and not rejected than was ordered |
| Returns.CreateWithinIff | internal/modules/otc/returns.go:44-80 | An accepted request keeps lines within the ordered quantity exactly when the quantities it names fit line by line together |
| Returns.StoreWithinIff | internal/modules/otc/returns.go:44-80 | Whenever it was checked, writing a request keeps lines within the order exactly when it fits what is stored by then |
| Returns.RejectWithinIff | internal/modules/otc/returns.go:220-235 | Rejecting a return keeps them so exactly when the rest fits without it |
| Returns.DecisionsWithinIff | internal/modules/otc/returns.go:203-317 | After any run, every way of deciding the open returns stays within the order exactly when settled and positive open quantities together fit |
| Returns.CreateWorstIff | internal/modules/otc/returns.go:44-80 | A request keeps it so exactly when each line it names has room for the positive part of what is asked of it |
| Returns.RunWithinIff | internal/modules/otc/returns.go:39-317 | Over any run, every state stays within the order however open returns are decided, exactly when each accepted request came while its lines had room |
| Returns.RepeatedLineOverReturns | internal/modules/otc/returns.go:44-80 | Naming a line twice passes the check and returns too much |
| Returns.OverlappingOverReturns | internal/modules/otc/returns.go:44-80 | Two requests for all of a line that are both checked before either is written return twice the order |
| Returns.NegativeQuantityOverReturns | internal/modules/otc/returns.go:44-80 | A negative quantity lets the rest exceed the order once it is rejected |
| Returns.RunCreditsMatch | internal/modules/otc/returns.go:264-309 | Credit notes add up to what the received returns are due, each credited once |
| Returns.CreditNearValue | internal/modules/otc/returns.go:264-309 | Over every run, credit differs from the exact value of the goods received back by at most 0.00005 for each return line, in both directions |
| Returns.CreditBounded | internal/modules/otc/returns.go:264-309 | Credit exceeds the exact value of the ordered goods by at most 0.00005 for each return line received |
| TenantCtx.OrgFromDerived | internal/tenantctx/tenantctx.go:11-35 | A bypass anywhere stands down; otherwise the last non-zero organisation is in force |
| TenantCtx.NoOrgDerived | internal/tenantctx/tenantctx.go:11-35 | Without one ever set there is none |
| PoolPinning.TenantPinner.BeforeAcquire | internal/db/db.go:83-109 | Lookup, at most one round trip, remember; skipped exactly when the remembered setting is the wanted one |
| PoolPinning.TenantPinner.BeforeClose | internal/db/db.go:110-114 | A closed connection is forgotten |
| PoolPinning.RunKeepsInv | internal/db/db.go:79-115 | In every interleaving the memory is of open connections and true of each idle or served one |
| PoolPinning.ServedAsRequested | internal/db/db.go:79-115 | A served connection's role and organisation are those of its request's context |
| PoolPinning.SkipIsSound | internal/db/db.go:88-93 | When the remembered setting is the wanted one the idle session already is what the statement would make it |
| PoolPinning.SettingNamesOrg | internal/db/db.go:84-87 | Two requests share a setting exactly when they act for the same organisation |
| PoolPinning.RefusedStaysRefused | internal/db/db.go:100-104 | Whatever happens afterwards, a connection whose switch failed never serves again: it stays refused or is closed |
| Gate.Meter.BeginRequest | internal/billing/gate.go:51-87 | Feature, then quota, before the handler |
| Gate.Meter.EndRequest | internal/billing/gate.go:86-91 | Usage is recorded after a success only |
| Gate.RouteTable | internal/billing/gate.go:20-45 | The route conditions exclude one another, and a request gets the rule of the one that holds or none |
| Gate.OutcomeIff | internal/billing/gate.go:51-87 | A request of a route is refused for its plan exactly when the plan lacks the feature, else for its quota exactly when the plan caps the metric and usage with the request passes the cap; else it is served |
| Gate.OtherServed | internal/billing/gate.go:51-60 | Any other request is served unmetered |
| Gate.EndEffect | internal/billing/billing.go:157-165 | A recorded success raises its own counter by its amount and no other; any other end leaves usage |
| Gate.UsageBounded | internal/billing/gate.go:74-91 | With at most K in flight metering at most N, usage in any month exceeds cap + (K-1)N by at most N for each failed read of usage |
| Gate.SerialWithinCap | internal/billing/billing.go:139-164 | Served one at a time, requests pass the cap by at most N for each failed read |
| Gate.FailureBurnsNothing | internal/billing/gate.go:86-91 | However many requests begin and fail, over any months, usage stays what it was |
| Gate.BoundReached | internal/billing/gate.go:74-91 | K requests that start together one short of the cap reach the bound, and each failed read adds another N |
| TtlCache.Cache.Check | internal/tenant/status.go:36-41 | A lookup hits until the deadline, and in every state the cache can be in a hit was the database's own answer less than ttl plus its own fetch-to-store delay ago, or a kept failure |
| TtlCache.Cache.StoreFetched | internal/billing/billing.go:108-125 | The status cache keeps real answers, the entitlement cache any |
| TtlCache.Cache.Invalidate | internal/tenant/status.go:53-58 | One entry is dropped |
| TtlCache.Cache.InvalidateAll | internal/billing/billing.go:134-138 | All entries are dropped |
| TtlCache.ServedFreshEnough | internal/tenant/status.go:35-51 | A served answer was the database's at a moment no older than ttl plus its own fetch-to-store delay |
| TtlCache.ChangesBite | internal/tenant/status.go:11-14 | After that time every answer that came from the database is current |
| TtlCache.InvalidateCurrentIff | internal/tenant/status.go:35-58 | After an invalidation every continuation serves only current answers until the row changes again, if and only if every lookup under way whose answer will be stored already holds the current one |
| TtlCache.FreshAfterInvalidate | internal/tenant/status.go:53-58 | With none of those under way, a cached answer stays current and no pending one that will be stored is old, through every continuation |
| TtlCache.LateStoreServed | internal/tenant/status.go:43-49 | A lookup under way, also one of a missing plan, is served if it is stored after the invalidation |
| TtlCache.SuspensionMissed | internal/tenant/status.go:35-58 | A suspended organisation is served as active that way |
| Money.RoundNearest | internal/money/money.go:22-23 | Rounding gives the one nearest integer, ties away from zero |
| Money.RoundShift | internal/money/money.go:22-23 | Rounding commutes with adding a whole amount exactly when no tie changes its side of zero |
| Money.ParseFormat | internal/money/money.go:14-23 | Reading a rendered value gives it back rounded to four decimals |
| Money.StoredRoundTrip | internal/money/money.go:14-23 | A stored amount survives its text form |
| Money.SumText | internal/money/money.go:97-109 | The text of the exact total, or the error of an invalid text |
| Money.TotalOfStored | internal/money/money.go:97-109 | On stored amounts the total is the integer sum of units |
| Money.StoredSubCmp | internal/money/money.go:38-62 | Subtraction and comparison are exact on stored amounts |
| Money.StoredLineTotal | internal/money/money.go:25-36 | A line total is the exact product, rounded once |
| Money.StoredPercent | internal/money/money.go:82-95 | A percentage is exact until its one rounding |
| Money.PercentBounds | internal/money/money.go:82-95 | A rate of 0 to 100 takes between nothing and everything |
| Split.OrderStore.SplitOrder | internal/modules/marketplace/split.go:20-86 | One sub-order per vendor and its lines tagged, or nothing at all |
| Split.GroupByVendor | internal/modules/marketplace/split.go:26-46 | The buckets hold exactly each vendor's lines, and the order lists vendors as first seen |
| Split.VendorsExact | internal/modules/marketplace/split.go:26-77 | Each vendor on the order gets one sub-order and no other vendor does |
| Split.SubOrderIs | internal/modules/marketplace/split.go:37-80 | A sub-order has its vendor's own total as gross, the vendor's rate, that percentage of it to the nearest unit as commission, and the rest as net |
| Split.SplitConserves | internal/modules/marketplace/split.go:20-86 | All row totals are operator lines plus commission plus net |
| Split.NetWithinGross | internal/modules/marketplace/split.go:48-65 | With rates of 0 to 100 the net lies between nothing and the gross |
| Split.CommissionNearPerLine | internal/modules/marketplace/split.go:48-65 | Commission on a bucket differs from line-by-line commission by at most (n+1)/2 units of 0.0001 |
| Split.TagsExact | internal/modules/marketplace/split.go:78-83 | Exactly the vendors' own lines are tagged, each with its vendor |
| Payouts.Marketplace.PlaceOrder | internal/modules/marketplace/split.go:66-77 | A sub-order starts unpaid |
| Payouts.Marketplace.VendorOrderStatus | internal/modules/marketplace/vendor.go:174-223 | Only the vendor's own order moves, and only along the table |
| Payouts.Marketplace.GeneratePayout | internal/modules/marketplace/payout.go:39-66 | A payout totals and takes every delivered unpaid order of the vendor, or there is nothing to pay |
| Payouts.Marketplace.MarkPayoutPaid | internal/modules/marketplace/payout.go:97-119 | Only a pending payout becomes paid |
| Payouts.OpEffect | internal/modules/marketplace/vendor.go:174-223 | What placing, a status change and marking paid write |
| Payouts.GeneratePaysAll | internal/modules/marketplace/payout.go:39-66 | A payout pays all the vendor is owed, links exactly the orders owed and leaves none; with nothing owed nothing happens |
| Payouts.RunKeepsInv | internal/modules/marketplace/payout.go:39-66 | Over any run every payout's amount is the net of exactly the orders linked to it |
| Payouts.PayoutsConserve | internal/modules/marketplace/payout.go:39-66 | Net of delivered orders is payouts plus unpaid, for every vendor |
| Payouts.SettledOnce | internal/modules/marketplace/payout.go:39-66 | A settled order stays in its payout at its net for ever |
| Payouts.AmountMatchesSettledSet | internal/modules/marketplace/payout.go:40-66 | Whatever other transactions do in between, totalled and settled sets agree exactly when no order became payable and no listed one was settled or left delivered; the settled net is the total plus the net of the former less that of the latter |
| Payouts.DeliveryInBetweenUnpaid | internal/modules/marketplace/payout.go:41-62 | A delivery in between is settled at no pay |
| Payouts.PaidTwice | internal/modules/marketplace/payout.go:40-66 | Two payouts that list before either commits total the same order: 100 is paid out for 50 delivered |
| Payouts.SharedMatchesIff | internal/modules/marketplace/payout.go:40-66 | Over any run of overlapping transactions every payout totals exactly what it settles, in every state, exactly when at each commit no order has become payable since its listing and no listed one was taken away |
| Payouts.SharedConserves | internal/modules/marketplace/payout.go:40-66 | Over any such run what was paid out is the net of settled orders plus, for each commit, the net of orders taken away less that of orders newly payable |
| Payouts.SharedDeliveredIff | internal/modules/marketplace/vendor.go:197-217 | Over any such run settled orders are delivered ones exactly when no status that was allowed before is written on an order settled since, but delivered itself |
| Payouts.CancelledAfterPayout | internal/modules/marketplace/vendor.go:197-217 | A cancellation allowed before lands on an order that was paid out |
| Edi.Writer.Raw | internal/edi/edi.go:214-221 | One segment is appended, uncounted |
| Edi.Writer.Seg | internal/edi/edi.go:208-211 | One segment is appended and counted |
| Edi.Writer.OpenEnvelope | internal/edi/edi.go:198-206 | The interchange, group and set headers are written, with one segment counted |
| Edi.Writer.Close | internal/edi/edi.go:224-230 | The trailers are written with the count of the transaction set |
| Edi.Encode855 | internal/edi/edi.go:127-151 | The text of the acknowledgement document |
| Edi.Encode810 | internal/edi/edi.go:154-171 | The text of the invoice document |
| Edi.Encode856 | internal/edi/edi.go:174-190 | The text of the ship notice document |
| Edi.Segments | internal/edi/edi.go:233-243 | Trimmed, non-empty segments split into elements |
| Edi.ReadsBack | internal/edi/edi.go:214-243 | Segment reading is the inverse of writing on clean elements |
| EdiReading.EnvelopeSays | internal/edi/edi.go:192-230 | Every element of the envelope: qualified and padded parties, date and time, versions, control numbers, count |
| EdiReading.FindProductId | internal/edi/edi.go:80-103 | The first vendor part number, else the first other value |
| EdiReading.Parse850 | internal/edi/edi.go:36-78 | The order read from the segments, or the error of the first missing part |
| EdiReading.ProductIs | internal/edi/edi.go:80-103 | The product is the first vendor part number, else the first number of any kind, else nothing |
| EdiReading.OrderReads | internal/edi/edi.go:36-78 | What an 850 is read as, element by element, and which error comes first |
| EdiReading.AcceptedIsUsable | internal/edi/edi.go:36-78 | An accepted order has a number, a currency and at least one line, every line usable |
| EdiReading.Reads855 | internal/edi/edi.go:127-151 | Reading an acknowledgement gives exactly its segments |
| EdiReading.Reads810 | internal/edi/edi.go:154-171 | Reading an invoice gives exactly its segments |
| EdiReading.Reads856 | internal/edi/edi.go:174-190 | Reading a ship notice gives exactly its segments |
| EdiReading.AcknowledgementSays | internal/edi/edi.go:127-151 | An acknowledgement names order and date, acknowledges every line with its data and status, and counts them |
| EdiReading.InvoiceSays | internal/edi/edi.go:154-171 | An invoice names date, number and order, bills every line, and gives total and count |
| EdiReading.ShipNoticeSays | internal/edi/edi.go:174-190 | A ship notice names shipment, date, time and order, and lists every product with quantity and unit |
| EdiReading.EnvelopeConsistent | internal/edi/edi.go:192-230 | SE01 counts ST to SE, and the control numbers of all three envelope levels match |
| EdiReading.AckLinesRecovered | internal/edi/edi.go:54-57 | Reading the PO1 segments of an acknowledgement recovers every line, and CTT01 is their number |
| EdiReading.InvoiceCounted | internal/edi/edi.go:154-171 | CTT01 of an invoice is its number of lines |
| EdiReading.HierarchyWellFormed | internal/edi/edi.go:174-190 | HL ids are 1 to n+2 in order with valid parents |
| Sheet.ColLetters | internal/export/xlsx.go:110-119 | The loop gives the column's bijective base-26 letters |
| Sheet.ColumnsBijective | internal/export/xlsx.go:110-119 | Every non-empty word of capitals names exactly one column, and back |
| Sheet.RefReadsBack | internal/export/xlsx.go:107-119 | A reference decodes to its own column and row |
| Sheet.EscapeReadsBack | internal/export/xlsx.go:148-156 | Unescaping restores the text, and no markup is left in it |
| Sheet.WriteStringCell | internal/export/xlsx.go:99-105 | An inline string cell is appended |
| Sheet.WriteSheet | internal/export/xlsx.go:62-97 | The whole sheet text, header row first |
| SheetReading.SheetReadsBack | internal/export/xlsx.go:62-105 | A reader of the emitted sheet recovers every header, every value and which cells are numeric |
| SheetReading.RefsDistinct | internal/export/xlsx.go:67-93 | All references are distinct and decode to their column and row |
| Promotions.Evaluate | internal/promotions/engine.go:43-77 | The winner is best by discount, then priority, then position among the eligible; none applies otherwise |
| Promotions.WorthIs | internal/promotions/engine.go:79-125 | When a promotion applies and what it takes off: a percentage of the subtotal or an amount, rounded, within nothing and the subtotal |
| Promotions.BestUnique | internal/promotions/engine.go:38-42 | The winner is unique |
| Promotions.BestIsMaximum | internal/promotions/engine.go:38-77 | Its discount is the largest on offer |
| Promotions.DiscountIgnoresOrder | internal/promotions/engine.go:43-77 | Reordering candidates never changes the discount |
| Promotions.WorthGrows | internal/promotions/engine.go:79-125 | A larger subtotal never makes a promotion worth less |
| Promotions.DiscountGrows | internal/promotions/engine.go:43-125 | The discount never falls when the subtotal rises |
| Merchandising.Reorder | internal/merchandising/engine.go:43-99 | The loops and the stable sort give pins by position, then the boosted, untouched and buried tiers |
| Merchandising.SortPinsSorts | internal/merchandising/engine.go:75 | Pins are a sorted permutation |
| Merchandising.SortPinsStable | internal/merchandising/engine.go:75 | Pins of one position keep rule order |
| Merchandising.PermutationIff | internal/merchandising/engine.go:38-42 | The result is a permutation of the page exactly when no pinned product is on it twice |
| Merchandising.PinnedTwiceOnce | internal/merchandising/engine.go:38-42 | A pinned product that is on the page twice is there once afterwards |
| Merchandising.DistinctPermutes | internal/merchandising/engine.go:43-99 | On distinct ids it always is |
| Merchandising.TiersKeepOrder | internal/merchandising/engine.go:81-98 | Each tier behind the pins keeps the page's order |
| Merchandising.PlacesInOrder | internal/merchandising/engine.go:38-99 | Pinned products come first, by the position of their first pin, then boosted, untouched and buried ones |
| Merchandising.ReorderIdempotent | internal/merchandising/engine.go:43-99 | Reordering again changes nothing, on any page |
| Rebates.WindowIsPeriod | internal/rebates/engine.go:15-36 | A window is a whole period of one, three or twelve months counted from a year's start |
| Rebates.WindowContains | internal/rebates/engine.go:13-36 | A window contains its reference, and every instant inside has the same window |
| Rebates.WindowsTile | internal/rebates/engine.go:13-36 | Windows of a type follow each other without gap or overlap |
| Rebates.KeysIdentify | internal/rebates/engine.go:13-36 | Two windows of any types share a key exactly when they are the same stretch of time |
| Rebates.Applicable | internal/rebates/engine.go:44-65 | The reached tier with the highest threshold, the first on a tie, or none when none is reached |
| Rebates.RebateEarned | internal/rebates/engine.go:67-70 | The rebate is the rate on the whole total, rounded once |
| Rebates.RebateGrows | internal/rebates/engine.go:44-70 | Under rates that rise with the thresholds a larger total never earns less |
| Subscriptions.AdvanceBy | internal/subscriptions/service.go:47-61 | Each cadence moves by a week, two weeks, exactly the starting month's length, or exactly three months' lengths |
| Subscriptions.AdvanceLater | internal/subscriptions/service.go:47-61 | The next date is strictly later: 7, 14, 28 to 31 or 89 to 92 days |
| Subscriptions.StepKeepsDayIff | internal/subscriptions/service.go:54-59 | The day of the month is kept exactly when the target month has it; otherwise the run falls into the month after |
| Subscriptions.FebruaryGetsNoRun | internal/subscriptions/service.go:54-59 | A monthly schedule from 31 January 2026 runs next on 3 March |
| Subscriptions.Scheduler.MaterializeDue | internal/subscriptions/service.go:73-95 | A sweep runs each due subscription on its own and counts the orders created |
| Subscriptions.Scheduler.RunOneNow | internal/subscriptions/service.go:107-283 | A run rolls back whole, or records a failed run, or places an order; the last two advance the schedule |
| Subscriptions.RunOneWrites | internal/subscriptions/service.go:153-250 | A run is recorded as a success exactly when there is an item and all can be priced, and then, and only then, one order is placed |
| Subscriptions.Scheduler.PriceItems | internal/subscriptions/service.go:135-151 | Items are priced in order up to the first problem |
| Subscriptions.OrderPriced | internal/subscriptions/service.go:132-173 | An order has one row total for each item at the price found, and their exact sum as subtotal |
| Subscriptions.SweepEffect | internal/subscriptions/service.go:73-95 | What a sweep does to one subscription depends on it and its own attempt alone |
| Subscriptions.OncePerDate | internal/subscriptions/service.go:73-170 | However often a date is swept and whatever fails, a due subscription gets exactly one run once some sweep gets through, and at most one order |
| Subscriptions.HistorySpaced | internal/subscriptions/service.go:153-170 | Over any history of sweeps, runs of a subscription are at least one cadence step apart |
| Subscriptions.HistoryBooked | internal/subscriptions/service.go:73-250 | Over any history the successful runs are the orders, one for one, with the same subscription and date |
| Subscriptions.OverlapBooked | internal/subscriptions/service.go:73-250 | So they are however sweeps and immediate runs overlap |
| Subscriptions.OverlapSpacedIff | internal/subscriptions/service.go:73-170 | However sweeps and immediate runs overlap, runs of a subscription stay a cadence step apart exactly when each that goes through is its first or comes while it is still due |
| Subscriptions.TwoOrders | internal/subscriptions/service.go:77-101 | Two sweeps that list before either runs, or a sweep and an immediate run, place two orders on one date |
| Customers.Directory.CustomerAncestors | internal/store/queries/customers.sql:63-77 | The walk ends and returns exactly the ancestors inside the organisation |
| Customers.Directory.CreateCustomer | internal/modules/customers/handler.go:172-188 | A parent must be a live customer of the organisation |
| Customers.Directory.UpdateCustomer | internal/modules/customers/handler.go:246-281 | A parent that is the customer itself or one of its descendants is refused |
| Customers.Directory.DeleteCustomer | internal/store/queries/customers.sql:58-61 | Deleting marks the row and leaves links as they are |
| Customers.OpEffect | internal/modules/customers/handler.go:172-281 | What each operation answers and writes, field by field |
| Customers.AcceptedIffForest | internal/modules/customers/handler.go:246-265 | Re-parenting is accepted exactly when the links inside organisations remain a forest |
| Customers.RunWalksEnd | internal/store/queries/customers.sql:63-77 | After any sequence of operations by any organisations, the organisation-scoped ancestor query ends from every customer and meets none twice |
| Customers.SharedForestIff | internal/modules/customers/handler.go:246-281 | However re-parentings overlap, the links inside organisations are a forest in every state exactly when each write that has an effect would pass its check again |
| Customers.CycleInside | internal/modules/customers/handler.go:246-281 | Two overlapping re-parentings of one organisation close a cycle from which the ancestor query never ends |
| Customers.WithinOrgsIff | internal/modules/customers/handler.go:172-281 | A step leaves all links inside organisations exactly when it is refused or names a parent of its own |
| Customers.OwnParentsAcyclic | internal/modules/customers/handler.go:246-281 | When parents are of the same organisation the whole relation stays acyclic |
| Customers.PriceWalksEndIff | internal/store/queries/pricing.sql:124-129 | The price walks, which follow every parent link when no organisation is set, keep ending after a step exactly when it does not hang a customer below itself through whatever organisations |
| Customers.RunPriceWalksIff | internal/subscriptions/service.go:134-139 | Along any run those walks end in every state exactly when no step closes such a cycle |
| Customers.CycleAcrossOrgs | internal/modules/customers/handler.go:246-281 | Two organisations that name each other's customers close a cycle from which the price walks never end |

## Left out

- Report.Compile: the driver's encoding of a fractional number for an integer column, and the casts of result cells to text, are not modelled; a text comparison orders by code point and does not pad CHAR(3).
- Report.Coerce: a string's readings as a time, an integer or a number, and the default rendering of other JSON values, come with the value; the library parsers are not modelled.
- ReportCorrect.CompiledMeans: assumes the primary and foreign keys of the tables, UTC for truncated dates and exact numeric aggregates.
- Rendering of report results as CSV, and the schema listing for the report builder, are single loops.
- FieldPush.ExactlyOnce: assumes that first occurrences are logged and repeats can read the log; FieldPush.RetryHarmlessIff says exactly when a retry is harmless without. A push that reads the log before another of the same id has written it is an arrival that does not see the row.
- FieldPush.FieldServer.PushOrder: best-effort writes of the change log are taken to succeed; an amount too large for its column and a database that is out of reach are not modelled.
- FieldPush.SecondEditConflicts: changes are applied one after the other; the reading of the server's copy and the write of an edit are one step.
- Workflow.Engine.ApplyTransitionTo: the actions and events after the commit, and the text of a guard's refusal, are left out; RunTraced is about applications that do not overlap, and CommitTracedIff says what overlapping ones risk.
- Shipments.RunSound: assumes an acyclic shipment workflow, which the seeded one is; a definition with a cycle back to `shipped` would draw stock again.
- Shipments.RunWithinOrdered: signed quantities, as the code adds them up, of serial requests that name each line at most once; ShipmentTotals.RunWithinIff is about what gets shipped, for every serial run under the seeded workflow.
- ShipmentTotals.DecisionsWithinIff: under the seeded workflow; a definition of one's own may know other moves.
- Shipments.ShippingDesk.CreateShipment: quantities are well-formed decimals; text that is none passes the code's comparison and fails when it is stored.
- Returns.RunWithinOrdered: serial requests with non-negative quantities that name each line at most once; Returns.RunWithinIff is about every serial run.
- Inventory.RunAgrees: leaves out `SetInventoryOnHand` of the ERP webhook (internal/modules/erp/inbound.go), which writes the level without a movement.
- Inventory.RunNeverOversells: serial runs with positive order lines and no negative manual quantities.
- PoolPinning.TenantPinner.BeforeAcquire: the settings of the pool other than the tenant session are left out.
- Gate.UsageBounded: a fixed cap; a plan change in between is not modelled.
- FieldPull.EachOnceIff: ids are positive and never used twice; rows of the log are never changed or removed.
- TtlCache.ServedFreshEnough: the parsing of a plan into entitlements is left out; clocks do not run backwards.
- Money.ParseFormat: plain signed decimals only; exponents, fractions and underscores that the rational parser also reads are left out.
- Payouts.PayoutsConserve: whole transactions one after the other; Payouts.SharedConserves is about overlapping ones. Orders of one vendor in several currencies are totalled as the code does, in one amount.
- Payouts.SharedMatchesIff: attaching takes effect at the commit of its payout.
- Split.OrderStore.SplitOrder: lines are stored units; the texts between are Money's.
- Edi.ReadsBack: elements without separators and surrounding white space; byte lengths of non-ASCII text in fixed-width elements are left out.
- Sheet.WriteSheet: the workbook parts around the sheet and the zip container are left out; which texts parse as a number is an argument, and control characters that XML cannot carry are written as they are.
- SheetReading.SheetReadsBack: line-end normalisation by an XML parser is left out.
- Promotions.Evaluate: lower-casing is that of ASCII letters; the label and the redemption count after an order are left out.
- Merchandising.Reorder: query expansion with synonyms is left out.
- Rebates.PeriodWindow: instants are in UTC, unbounded, on the proleptic Gregorian calendar.
- Subscriptions.Scheduler.RunOneNow: promotion, tax, addresses and the vendor split of the order are left out, their failure being a broken transaction; metering and email after the commit, and skipping and changing a subscription, are left out too.
- Subscriptions.OncePerDate: sweeps one after the other; Subscriptions.OverlapSpacedIff says what overlapping ones and immediate runs need.
- Customers.RunWalksEnd: serial requests by all organisations together; Customers.SharedForestIff is about overlapping re-parentings. Fields other than parent, organisation and deletion are left out.
- Machine integers are unbounded here; identifiers and quantities of the repository are 64-bit.
- Decoding of requests, status codes, rendering of responses, routing and authentication.
- Crypto and sign-on, language-model tools, page designer, insights, images, PDF, email templates and telemetry.
- Tax, pricing rules, configuration of products, shipping rates and the plain create-read-update modules: short checks that add little.
