# OdooLike: a verified model of the business rules

OdooLike is a small ERP. A Django backend serves the inventory, CRM, shared-record and
account APIs, and a React/Redux frontend presents them. This project models the domain logic
under that plumbing in Dafny and proves what the code promises about it.

The model has these parts.

- **Inventory stock engine** (`InventoryModels`, `InventoryViews`, `InventoryStats`,
  `InventorySerializers`, `InventoryAdmin`).
  - Creating a stock movement: "in" and "return" add, every other type subtracts with a floor of 0.
  - The bulk stock update, with its `updated_count` and `errors` accounting.
  - Approving a stock adjustment, which happens once.
  - The statistics and low-stock reports, and the category path.
  - The one-default-warehouse rule and the generated document numbers.
  - The admin columns and bulk actions.
  - `StockStore` is a class over the stock-level table and the movement log. Its methods
    perform the requests in place and are proved to agree with pure request functions.
- **CRM lifecycle** (`CrmModels`, `CrmViews`, `CrmAdmin`).
  - Contact names and display names.
  - The one-time conversion of a lead into a contact and an opportunity.
  - Closing an opportunity as won or lost, and the stage-update dispatch.
  - The per-stage sales pipeline and the zero guards of the statistics.
  - The admin columns and actions.
- **Shared records** (`CoreModels`, `CoreViews`, `CoreAdmin`).
  - The visibility rules of notes, activities, dashboards and notifications.
  - Overdue activities and their completion; the read markers.
  - The activity summary and the guard of the related-objects lookup.
  - The admin previews and the read-only system log.
- **Accounts** (`AuthModels`, `AuthSerializers`, `AuthViews`).
  - Subscription validity and the role permission tables.
  - Invitations and their acceptance.
  - The client-address rule.
  - Registration, login and password change, each with its checks in order.
  - Profile and organization updates, and the user and invitation endpoints.
- **Client state.**
  - The shared data table (`DataTable`): selection, sort state, search filter, checkbox flags,
    pagination callbacks, delete requests and the empty-state column span.
  - The inventory, CRM and UI Redux slices (`InventorySlice`, `CrmSlice`, `UiSlice`, with the
    shared list updates in `SliceLists`). Each slice is a reducer function plus a store class
    that applies it in place.
  - The sales-pipeline board (`SalesPipeline`) and the navigation sidebar (`Sidebar`).
- **Helpers.** `Text` holds the Python and JavaScript string built-ins the code relies on:
  whitespace splitting, stripping, case mapping, decimal rendering and `int()` on text. `Seqs`
  holds order-preserving filtering, `Calendar` dates, `Ratios` share bounds and `Wrappers`
  `Option`/`Result`.

Conventions:
- Money is integer cents.
- Weighted values and percentages are exact rationals.
- Clock readings are integer seconds; calendar dates are `(year, month, day)`.
- Identifiers are strings.
- A database table is a map from id to record, or a sequence in query order where the code
  iterates a queryset.

## Model

| member | source | states |
|---|---|---|
| `InventoryModels.PathNames` | backend/apps/inventory/models.py:38-46 | the category path ends with the category's own name and is never empty |
| `InventoryModels.PathNamesShape` | backend/apps/inventory/models.py:38-46 | the path has one segment per ancestor plus one, and its first segment is the root category's name |
| `InventoryModels.PathNamesStep` | backend/apps/inventory/models.py:41-44 | a category with a parent has the parent's path followed by its own name |
| `InventoryModels.FullPath` | backend/apps/inventory/models.py:38-46 | the loop that walks the parents and inserts names at the front returns the root-to-category names joined with " > " |
| `InventoryModels.CategoryLabelIsPathTail` | backend/apps/inventory/models.py:32-35 | the category's display string is the last two segments of its full path, or the name alone for a root |
| `InventoryModels.AvailableQuantityBounds` | backend/apps/inventory/models.py:321-324 | available quantity never exceeds on-hand; it is on-hand minus reserved when that is not negative, and 0 otherwise |
| `InventoryModels.AvailableStockAtMostCurrent` | backend/apps/inventory/models.py:212-226 | a product's available stock never exceeds its current stock |
| `InventoryModels.CurrentStockZeroIff` | backend/apps/inventory/models.py:212-218 | current stock is 0 exactly when every row of the product in an active warehouse holds nothing |
| `InventoryModels.CurrentStockAppendIgnored` | backend/apps/inventory/models.py:212-218 | rows of other products and of inactive warehouses do not contribute to current stock |
| `InventoryModels.ProfitMargin` | backend/apps/inventory/models.py:233-238 | with a positive cost, margin times cost is (selling - cost) * 100; otherwise the margin is 0 |
| `InventoryModels.ProfitMarginSign` | backend/apps/inventory/models.py:233-238 | with a positive cost, the margin is positive exactly when the product sells above cost, and zero exactly when it sells at cost |
| `InventoryModels.ParseMovementType` | backend/apps/inventory/models.py:330-338 | exactly the seven movement codes are accepted, and an accepted value maps back to the same code |
| `InventoryModels.ParseReferenceType` | backend/apps/inventory/models.py:340-347 | exactly the six reference codes are accepted, and an accepted value maps back to the same code |
| `InventoryModels.LevelIndex` | backend/apps/inventory/models.py:310-312 | the index found is a row for (product, warehouse), and -1 is returned exactly when there is no such row |
| `InventoryModels.LevelIndexUnique` | backend/apps/inventory/models.py:310-312 | under the unique (product, warehouse) constraint, any row for the pair is the row found |
| `InventoryModels.GetOrCreate` | backend/apps/inventory/models.py:288-312 | after get_or_create a row for the pair exists |
| `InventoryModels.GetOrCreateKeeps` | backend/apps/inventory/models.py:288-312 | get_or_create keeps rows unique and changes no on-hand quantity |
| `InventoryModels.SetOnHandReads` | backend/apps/inventory/models.py:302-312 | after setting a pair's on-hand quantity it reads the new value, every other pair reads as before, and rows stay unique |
| `InventoryModels.SaveWarehouse` | backend/apps/inventory/models.py:278-285 | the saved warehouse is stored under its id and no other key is added |
| `InventoryModels.SaveWarehouseKeepsOneDefault` | backend/apps/inventory/models.py:278-285 | saving keeps at most one default warehouse per organization, and a saved default is its organization's only one |
| `InventoryModels.SaveWarehouseFrame` | backend/apps/inventory/models.py:278-285 | saving changes no other warehouse except clearing the default flag, exactly on the organization's other default warehouses when the saved one is default |
| `InventoryModels.SaveAdjustmentLine` | backend/apps/inventory/models.py:488-490 | only the difference changes, and expected + difference == actual, so the difference is 0 exactly when the counts agree |
| `InventoryModels.QuantityPending` | backend/apps/inventory/models.py:582-585 | the pending quantity never exceeds the ordered quantity |
| `InventoryModels.PendingZeroIffFullyReceived` | backend/apps/inventory/models.py:582-590 | nothing is pending exactly when the line is fully received; otherwise received + pending == ordered |
| `InventoryModels.SavePurchaseOrderLine` | backend/apps/inventory/models.py:592-594 | only the line total changes, and it becomes quantity ordered times unit price |
| `InventoryModels.PadNatField` | backend/apps/inventory/models.py:452 | `{count:04d}` of a number below 10^w is exactly w digits that read back as the number |
| `InventoryModels.DateStampFields` | backend/apps/inventory/models.py:452 | `strftime('%Y%m%d')` gives eight digits whose groups read back as year, month and day |
| `InventoryModels.AssignNumber` | backend/apps/inventory/models.py:444-454 | an existing number is kept; an empty one is generated from the prefix, the date and the day's count |
| `InventoryModels.DocumentNumberFields` | backend/apps/inventory/models.py:540-550 | a generated number reads back as the prefix, a dash, the date's year, month and day, a dash, and at least four digits worth the day's count plus one |
| `InventoryViews.NewQuantity` | backend/apps/inventory/views.py:303-306 | `in` and `return` add the signed quantity; every other type takes away its magnitude, never going below 0, and reaches 0 exactly when the magnitude covers the stock |
| `InventoryViews.Touch` | backend/apps/inventory/views.py:293-300 | get_or_create on a stock level writes no movement |
| `InventoryViews.TouchReads` | backend/apps/inventory/views.py:293-300 | get_or_create on a stock level changes no on-hand quantity |
| `InventoryViews.TouchKeepsBooks` | backend/apps/inventory/views.py:293-300 | get_or_create keeps levels unique and every pair's latest movement agreeing with its stock |
| `InventoryViews.Record` | backend/apps/inventory/views.py:308-328 | writing a movement appends exactly that movement to the log |
| `InventoryViews.LastRecordedAppend` | backend/apps/inventory/views.py:308-328 | after a movement is appended, its pair's latest recorded stock is the movement's `stock_after_movement`; other pairs keep theirs |
| `InventoryViews.RecordReads` | backend/apps/inventory/views.py:325-328 | recording a movement sets its own pair to the recorded stock and changes no other pair |
| `InventoryViews.RecordKeepsBooks` | backend/apps/inventory/views.py:308-328 | recording a movement keeps levels unique and the log agreeing with the stock |
| `InventoryViews.MovementEffect` | backend/apps/inventory/views.py:268-336 | a request that does not create a movement leaves levels and log unchanged |
| `InventoryViews.MovementCreatedEffect` | backend/apps/inventory/views.py:268-336 | a created movement names the requester's product and warehouse; the pair's new stock is the reported level computed from the old one (0 for a new row); the log gains exactly that movement; other pairs keep their stock; the books stay consistent |
| `InventoryViews.MovementRejectedIff` | backend/apps/inventory/views.py:303-328 | the positive-integer column refuses the movement exactly when an inbound quantity would take the stock below 0 |
| `InventoryViews.ViewOf` | backend/apps/inventory/views.py:363-377 | an entry's `product_id` and `new_quantity` are present exactly when the keys are; the product key is the UUID the id text spells (none when it spells none), and the quantity is `int()` of the text |
| `InventoryViews.ViewsOf` | backend/apps/inventory/views.py:362 | one view per entry, in order |
| `InventoryViews.FailCount` | backend/apps/inventory/views.py:405-406 | no more error messages than entries |
| `InventoryViews.BulkStepAborts` | backend/apps/inventory/views.py:362-406 | an entry aborts the request exactly when its `product_id` is missing or spells no UUID (`ValidationError`), or its product is found and its quantity is missing or negative; this does not depend on the stock |
| `InventoryViews.BulkRunAborts` | backend/apps/inventory/views.py:361-406 | the whole atomic request rolls back exactly when one of its entries aborts: a missing key, a `product_id` that is not a UUID, or a negative quantity, none of which the `except` clause catches |
| `InventoryViews.BulkRunAbortedPrefix` | backend/apps/inventory/views.py:361-406 | once an entry aborts, later entries cannot rescue the request |
| `InventoryViews.BulkStepKeepsBooks` | backend/apps/inventory/views.py:362-403 | a step that does not abort keeps levels unique and the log agreeing with the stock |
| `InventoryViews.BulkStepAccounting` | backend/apps/inventory/views.py:380-406 | a step that does not abort (its product id parses) adds one error exactly when the entry fails (an unknown product or a quantity `int()` refuses), keeps the earlier errors and movements, and appends one movement per counted update |
| `InventoryViews.BulkStepChanges` | backend/apps/inventory/views.py:376-403 | an own product whose new quantity q differs from its stock is counted, records an adjustment of q - old that leaves q, and sets the stock to q |
| `InventoryViews.BulkStepSame` | backend/apps/inventory/views.py:379-403 | an entry that sets the stock it already has changes, records and counts nothing |
| `InventoryViews.BulkRunAccounting` | backend/apps/inventory/views.py:361-412 | a run none of whose entries aborts (every product id parses) has exactly one error per failing entry, appended in turn, and appends exactly `updated_count` movements; the books stay consistent |
| `InventoryViews.BulkRunUntouched` | backend/apps/inventory/views.py:361-406 | a pair in another warehouse, or a product no entry names, keeps its stock |
| `InventoryViews.BulkEffect` | backend/apps/inventory/views.py:341-414 | a request that is not completed leaves levels and log unchanged |
| `InventoryViews.BulkDoneAccounting` | backend/apps/inventory/views.py:408-412 | a completed request, which none of its entries aborted, reports one error per failing entry and appends exactly `updated_count` movements to the log, keeping the earlier ones; the books stay consistent |
| `InventoryViews.MalformedProductIdAborts` | backend/apps/inventory/views.py:362-406 | once the warehouse is found, one entry whose `product_id` spells no UUID rolls the whole request back: the books are unchanged and no count or error list is returned |
| `InventoryViews.UpdateEntry` | backend/apps/inventory/views.py:362-406 | the loop body on copies of the books: it aborts exactly when the step function does, and otherwise returns the step's result with consistent books |
| `InventoryViews.RunEntries` | backend/apps/inventory/views.py:361-406 | the loop over the entries stops exactly when the run aborts, and otherwise computes the run's final state with consistent books |
| `InventoryViews.AdjustmentMovements` | backend/apps/inventory/views.py:577-603 | an approval writes at most one movement per line |
| `InventoryViews.ApplyLinesBooks` | backend/apps/inventory/views.py:577-608 | processing the lines keeps the books consistent and appends exactly one movement per line with a nonzero difference, in line order |
| `InventoryViews.ApplyLinesReads` | backend/apps/inventory/views.py:577-608 | after the lines are processed, a product of the adjustment's warehouse holds the counted quantity of its last changing line; every other pair keeps its stock |
| `InventoryViews.ApproveEffect` | backend/apps/inventory/views.py:551-614 | a refused approval changes neither the books nor the adjustments |
| `InventoryViews.ApprovedEffect` | backend/apps/inventory/views.py:551-614 | an approval needs an unapproved adjustment of the requester's organization, stamps approver and time, changes no other adjustment, keeps the books consistent and appends the lines' movements |
| `InventoryViews.ApproveTwiceRefused` | backend/apps/inventory/views.py:565-569 | approving an approved adjustment again is refused and changes nothing |
| `InventoryViews.ApproveLines` | backend/apps/inventory/views.py:577-608 | the loop over the adjustment's lines computes the line-by-line specification and keeps the books consistent |
| `InventoryViews.StockStore.constructor` | backend/apps/inventory/models.py:288-312 | a store over unique stock levels starts with an empty movement log |
| `InventoryViews.StockStore.CreateMovement` | backend/apps/inventory/views.py:268-336 | the view's new levels, log and response are those of `MovementEffect`; products, warehouses and adjustments are untouched; the books stay consistent |
| `InventoryViews.StockStore.BulkStockUpdate` | backend/apps/inventory/views.py:341-414 | the view's new levels, log and response are those of `BulkEffect`; products, warehouses and adjustments are untouched; the books stay consistent |
| `InventoryViews.StockStore.ApproveAdjustment` | backend/apps/inventory/views.py:551-614 | the view's new levels, log, adjustments and response are those of `ApproveEffect`; the books stay consistent |
| `InventorySerializers.ValidateMovement` | backend/apps/inventory/serializers.py:345-357 | validation succeeds exactly when both id fields spell a UUID, both choice fields hold one of their codes and the stripped reference id, reference document and reason fit 100, 255 and 255 characters; the validated data carries the canonical ids of both UUIDs, the request's quantity and its codes |
| `InventorySerializers.MovementIdSpelling` | backend/apps/inventory/serializers.py:348 | the upper-case spelling of a product id validates to the same data as its canonical spelling, whose validated product is that id |
| `InventorySerializers.CleanEntry` | backend/apps/inventory/serializers.py:363-367 | a dictionary entry keeps its keys and each value is stripped |
| `InventorySerializers.CleanEntries` | backend/apps/inventory/serializers.py:363-367 | every entry is cleaned, in order |
| `InventorySerializers.StripOption` | backend/apps/inventory/serializers.py:370-371 | an optional text is present after cleaning exactly when it was before, and then holds the stripped text |
| `InventorySerializers.ValidateBulk` | backend/apps/inventory/serializers.py:360-371 | validation succeeds exactly when every entry's values are non-blank once stripped, the warehouse spells a UUID and a given reason fits 255 characters; the validated data has the same entries with the same keys, each value stripped, the warehouse's canonical id, and the stripped reason and notes when they were sent |
| `InventorySerializers.ValidateBulkIdempotent` | backend/apps/inventory/serializers.py:360-371 | the validated data, sent again, validates to itself |
| `InventorySerializers.StockedLevels` | backend/apps/inventory/serializers.py:161-167 | the levels kept are the warehouse's own levels with on-hand > 0 |
| `InventorySerializers.TotalProducts` | backend/apps/inventory/serializers.py:161-162 | the count of stocked levels is at most the number of levels |
| `InventorySerializers.StockedValueIsWarehouseValue` | backend/apps/inventory/serializers.py:164-168 | leaving out the zero-stock levels does not change the warehouse's stock value |
| `InventorySerializers.TotalStockValue` | backend/apps/inventory/serializers.py:164-168 | the loop's total is the sum of on-hand times cost price over the warehouse's levels |
| `InventorySerializers.DeactivateLowersCount` | backend/apps/inventory/serializers.py:35-36 | deactivating an active product of a category lowers the category's product count by one |
| `InventorySerializers.InactiveNotCounted` | backend/apps/inventory/serializers.py:35-36 | changing or adding an inactive product leaves the category's product count alone |
| `InventorySerializers.StampCreate` | backend/apps/inventory/serializers.py:38-41 | `organization` and `created_by` become the requester's whatever the client sent, and every other field is kept |
| `InventoryStats.ActiveProducts` | backend/apps/inventory/views.py:425 | the organization's active products, and only those |
| `InventoryStats.TrackedProducts` | backend/apps/inventory/views.py:436 | the organization's active products that track inventory, and only those |
| `InventoryStats.Classify` | backend/apps/inventory/views.py:437-441 | out of stock exactly at 0, low exactly when 0 < current <= minimum, in stock exactly above the minimum |
| `InventoryStats.LowStockIffCounted` | backend/apps/inventory/models.py:229-231 | a product is low on stock exactly when the statistics count it as out of stock or low |
| `InventoryStats.CountClass` | backend/apps/inventory/views.py:436-443 | a class count never exceeds the number of products |
| `InventoryStats.LowStockOf` | backend/apps/inventory/views.py:474-484 | the alert list holds exactly the low-stock products of the queryset |
| `InventoryStats.LowStockCountsAgree` | backend/apps/inventory/views.py:436-484 | the alert list's length is the out-of-stock count plus the low count |
| `InventoryStats.ClassesPartition` | backend/apps/inventory/views.py:436-443 | every product falls in exactly one class |
| `InventoryStats.StockFigures` | backend/apps/inventory/views.py:431-443 | the first loop computes the stock value and the out-of-stock and low counts of the tracked products |
| `InventoryStats.LowStockProducts` | backend/apps/inventory/views.py:506-521 | the loop returns exactly the products whose stock is at or below their minimum, in query order |
| `InventoryStats.TopEntry` | backend/apps/inventory/views.py:460-469 | an entry's stock value is current stock times cost price |
| `InventoryStats.Candidates` | backend/apps/inventory/views.py:459-469 | only entries of positive value are kept, no more than there are products |
| `InventoryStats.Insert` | backend/apps/inventory/views.py:471 | insertion adds exactly one entry |
| `InventoryStats.SortDesc` | backend/apps/inventory/views.py:471 | sorting is a permutation |
| `InventoryStats.InsertSorted` | backend/apps/inventory/views.py:471 | inserting into a descending list keeps it descending |
| `InventoryStats.SortDescSorted` | backend/apps/inventory/views.py:471 | the sorted list is descending by value |
| `InventoryStats.SortedCutLargest` | backend/apps/inventory/views.py:471-472 | cutting the sorted list keeps an ordered selection of the entries, and no entry left out is worth more than one kept |
| `InventoryStats.TopProductsLargest` | backend/apps/inventory/views.py:458-472 | the top list has min(5, candidates) entries of positive value from the first ten active products, in descending order, and none left out is worth more than one kept |
| `InventoryStats.TopProductsByStock` | backend/apps/inventory/views.py:458-472 | the second loop, the sort and the cut compute the top list |
| `InventoryStats.StatsConsistent` | backend/apps/inventory/views.py:424-499 | one response's figures agree: alerts = out-of-stock + low, classified products <= tracked <= active, top list <= 5 |
| `InventoryStats.TrackedAmongActive` | backend/apps/inventory/views.py:425-436 | there are no more tracked products than active ones |
| `InventoryStats.ApprovalLowersPending` | backend/apps/inventory/views.py:452-455 | approving a pending adjustment of the organization lowers `pending_adjustments` by one |
| `InventoryStats.InventoryStatistics` | backend/apps/inventory/views.py:419-501 | the view computes exactly the statistics specification |
| `InventoryAdmin.CurrentStockDisplay` | backend/apps/inventory/admin.py:150-154 | the cell shows the current stock, in red exactly when the product is low on stock |
| `InventoryAdmin.ApprovalStatus` | backend/apps/inventory/admin.py:305-311 | "Approved by <full name>" in green when an approver is set, else "Pending Approval" in orange |
| `InventoryAdmin.Unapproved` | backend/apps/inventory/admin.py:316-325 | the number of selected unapproved adjustments is at most the selection's size |
| `InventoryAdmin.ApproveAdjustments` | backend/apps/inventory/admin.py:316-325 | exactly the selected unapproved adjustments get the user and the time; every other adjustment is unchanged; the count is the number approved; stock is not an input, so no level changes |
| `InventoryAdmin.MoveStatus` | backend/apps/inventory/admin.py:384-394 | exactly the selected orders in the `from` status move to the `to` status, every other order is unchanged, and the count is how many moved |
| `InventoryAdmin.MarkAsSentTwice` | backend/apps/inventory/admin.py:384-387 | marking the same orders as sent a second time moves nothing |
| `InventoryAdmin.SendThenConfirm` | backend/apps/inventory/admin.py:384-394 | sending then confirming takes a selection's draft and sent orders to confirmed and leaves every other order as it was |
| `CrmModels.FullName` | backend/apps/crm/models.py:97-101 | a company's full name is its company name; a person's has no leading or trailing whitespace |
| `CrmModels.FullNameIsStrippedText` | backend/apps/crm/models.py:92-101 | a person's full name is the stripped "first last" text; for a named company `__str__`, `full_name` and `display_name` coincide |
| `CrmModels.DisplayNameExtendsFullName` | backend/apps/crm/models.py:103-110 | a company's display name is its full name; a person's is the full name, with " (company)" appended exactly when the company name is non-empty |
| `CrmModels.BlankNameCrashes` | backend/apps/crm/models.py:219-220 | a contact name of one space makes the as-written split fail, while the corrected split gives two empty names |
| `CrmModels.SplitNameAgrees` | backend/apps/crm/models.py:219-220 | the as-written split fails exactly on a non-empty all-whitespace name, and agrees with the corrected split everywhere else |
| `CrmModels.SplitNameWords` | backend/apps/crm/models.py:219-220 | the first name is the first word, the last name's words are the remaining words, a single word gives an empty last name, and a blank name gives two empty names |
| `CrmModels.SplitNameFullName` | backend/apps/crm/models.py:97-101 | the full name built from the split is the contact name's words joined by single spaces |
| `CrmModels.CloseAsWon` | backend/apps/crm/models.py:333-339 | the opportunity becomes closed and won with probability 100, close date today and updater set, and nothing else changes |
| `CrmModels.CloseAsLost` | backend/apps/crm/models.py:341-360 | the opportunity becomes closed and not won with probability 0, close date today and updater set, nothing else changes, and a public note on it is created exactly when the reason is non-empty |
| `CrmModels.ClosedWeights` | backend/apps/crm/models.py:329-347 | a won opportunity weighs its full value and a lost one weighs nothing |
| `CrmModels.ConvertedContact` | backend/apps/crm/models.py:216-225 | the contact created by a conversion is an active person in the lead's organization; its names come from the corrected split (see Findings) |
| `CrmModels.ConvertedContactName` | backend/apps/crm/models.py:216-225 | the converted contact's full name is the lead's contact-name words joined by single spaces |
| `CrmModels.ConvertSpec` | backend/apps/crm/models.py:211-250 | a converted lead returns its existing pair; otherwise the opportunity row is refused exactly when value or close date is missing, and a conversion copies title, value, probability, close date and assignee into a "qualification" opportunity tied to the new contact, after which converting again returns the same pair |
| `CrmModels.CampaignActiveWindow` | backend/apps/crm/models.py:421-427 | an active campaign has status "active" and a start no later than its end |
| `CrmModels.Roi` | backend/apps/crm/models.py:429-446 | without or with a zero actual cost the ROI is 0 |
| `CrmModels.RoiSign` | backend/apps/crm/models.py:429-446 | with a positive cost, ROI is positive exactly when revenue exceeds cost and negative exactly when it falls short |
| `CrmViews.ConvertLeadRefusals` | backend/apps/crm/views.py:180-201 | 404 exactly for a missing or foreign lead, 400 exactly for a converted one or an invalid body, and no change in any of these |
| `CrmViews.ConvertLeadStores` | backend/apps/crm/views.py:180-201 | a conversion stores the qualified lead with both links, the contact and the "qualification" opportunity, touches no other lead and no note, and a second request is refused as already converted; a refused opportunity leaves only the contact written |
| `CrmViews.ConversionWrites` | backend/apps/crm/models.py:211-250 | the writes of a conversion always include the contact and never a note, and the request crashes exactly when value or close date is missing |
| `CrmViews.BlankNameConversionCrashes` | backend/apps/crm/models.py:216-220 | as written, converting a lead whose contact name is whitespace only crashes before the contact is created and writes nothing, where the corrected conversion stores a contact with two empty names; on every other lead the two conversions write the same |
| `CrmViews.ConvertLeadWrites` | backend/apps/crm/views.py:185-193 | past the guards, the view's effect is the conversion's writes |
| `CrmViews.ConvertLeadKeepsValid` | backend/apps/crm/views.py:180-201 | the view keeps every lead and opportunity link pointing at a stored record |
| `CrmViews.ConversionKeepsValid` | backend/apps/crm/models.py:211-250 | the conversion's writes keep every link pointing at a stored record |
| `CrmViews.StoredLinksKeepValid` | backend/apps/crm/models.py:241-245 | storing the contact, and the opportunity tied to it together with a lead linking both, keeps every link valid |
| `CrmViews.ValidateStageUpdate` | backend/apps/crm/serializers.py:214-218 | the body is accepted exactly when the stripped stage is non-blank and fits 20 characters and a given reason fits 500; the validated stage and reason are the stripped texts, the reason "" when absent |
| `CrmViews.UpdateStageSpec` | backend/apps/crm/views.py:213-223 | the stored stage is the requested one; "closed_won" and "closed_lost" close with probability 100 and 0 and today's date; any other stage keeps probability and date; value and contact are kept; a note exactly for "closed_lost" with a reason |
| `CrmViews.StoreStage` | backend/apps/crm/views.py:213-223 | storing a stage update replaces that opportunity and appends at most its note |
| `CrmViews.UpdateStageEffectSpec` | backend/apps/crm/views.py:206-230 | 404 exactly for a missing or foreign opportunity; a refused request changes nothing; only that opportunity changes; the reported stage is the stored trimmed stage; at most one note is appended |
| `CrmViews.UpdateStageKeepsValid` | backend/apps/crm/views.py:206-230 | a stage update keeps every link valid |
| `CrmViews.StoreStageKeepsValid` | backend/apps/crm/views.py:219-223 | replacing an opportunity by one with the same contact keeps every link valid |
| `CrmViews.AtStage` | backend/apps/crm/views.py:317-320 | the stage query holds exactly the organization's opportunities at that stage |
| `CrmViews.SalesPipeline` | backend/apps/crm/views.py:308-332 | the loop over the four stages computes the pipeline specification |
| `CrmViews.PipelineShape` | backend/apps/crm/views.py:313-329 | exactly four entries, qualification, needs_analysis, proposal and negotiation in that order, no closed stage, each count the length of its list, and each list exactly the organization's opportunities at that stage |
| `CrmViews.PipelineWeightOvercounts` | backend/apps/crm/views.py:263-269 | two opportunities worth 100.00 at 50% weigh 200.00 as written and 100.00 as intended |
| `CrmViews.PipelineWeightAgreesOnOne` | backend/apps/crm/views.py:263-269 | the written and the intended weighted value agree on a pipeline of at most one opportunity |
| `CrmViews.StatsGuards` | backend/apps/crm/views.py:281-285 | no leads gives conversion rate 0, the rate otherwise lies in [0, 100], and no won opportunity gives average deal size 0 |
| `CrmViews.TotalValueSnoc` | backend/apps/crm/views.py:324-325 | total and weighted sums grow by the appended opportunity's value and weight |
| `CrmViews.SumsDisjoint` | backend/apps/crm/views.py:263-269 | the total and weighted sums over the union of two disjoint selections are the sums of the two |
| `CrmViews.OpenPipelineSplits` | backend/apps/crm/views.py:263-269 | the open pipeline's total and weighted value are the sums of the four stages' values |
| `CrmViews.OpenIsAnyStage` | backend/apps/crm/views.py:263-265 | being at one of the four stages, stage by stage, is being in the `stage__in` query |
| `CrmViews.StatsAgreeWithPipeline` | backend/apps/crm/views.py:263-329 | the statistics' pipeline value is the sum of the pipeline stages' totals, and the corrected weighted value the sum of their weighted values |
| `CrmViews.CrmStore.constructor` | backend/apps/crm/models.py:113-250 | an empty store satisfies the link invariant |
| `CrmViews.CrmStore.ConvertLead` | backend/apps/crm/views.py:180-201 | the view's new state and response are those of the conversion specification, and links stay valid |
| `CrmViews.CrmStore.WriteConversion` | backend/apps/crm/models.py:216-248 | the conversion's writes change the stored records as the specification says |
| `CrmViews.CrmStore.UpdateOpportunityStage` | backend/apps/crm/views.py:206-230 | the view's new state and response are those of the stage-update specification, and links stay valid |
| `CrmAdmin.SubjectPreview` | backend/apps/crm/admin.py:266-267 | a subject of at most 50 characters is unchanged, a longer one becomes its first 50 characters and "...", never over 53 |
| `CrmAdmin.RoiDisplayColour` | backend/apps/crm/admin.py:202-212 | in the intended column only the green cell has a "+" prefix; no cost gives a plain cell; with a positive cost the cell is green exactly when revenue exceeds cost, red exactly when it falls short, and plain exactly when they are equal |
| `CrmAdmin.RoiDisplay` | backend/apps/crm/admin.py:202-212 | the intended column: green exactly for a positive ROI, red exactly for a negative one, plain exactly for zero, and a "+" before the number only when green |
| `CrmAdmin.RoiDisplayAsWritten` | backend/apps/crm/admin.py:202-212 | the column as written renders exactly when the ROI is zero (the plain text); every nonzero ROI raises |
| `CrmAdmin.RoiDisplayFails` | backend/apps/crm/admin.py:175-212 | with a positive cost the written column fails exactly when revenue differs from cost, that is exactly where the intended cell is coloured, and where it renders it renders the intended cell |
| `CrmAdmin.MarkLeadsContactedSpec` | backend/apps/crm/admin.py:272-274 | every selected lead gets status "contacted" with nothing else changed, unselected leads are untouched, and marking again changes nothing |
| `CrmAdmin.MarkOpportunitiesWon` | backend/apps/crm/admin.py:277-280 | every selected opportunity is closed as won, and the others are untouched |
| `CrmAdmin.MarkOpportunitiesLost` | backend/apps/crm/admin.py:283-286 | every selected opportunity is closed as lost with no reason, the others are untouched, and no note is written |
| `CrmAdmin.MarkedOpportunitiesClosed` | backend/apps/crm/admin.py:277-286 | the admin actions leave each opportunity closed; only the won action makes it won |
| `CoreModels.OverdueStaysOverdue` | backend/apps/core/models.py:170-175 | an activity that is planned or in progress and scheduled before now stays overdue at every later time |
| `CoreModels.MarkCompleted` | backend/apps/core/models.py:177-180 | completing sets the status to "completed" and stamps the completion date with now, and changes no other field |
| `CoreModels.CompletedNeverOverdue` | backend/apps/core/models.py:170-180 | a completed activity is overdue at no time |
| `CoreModels.CompletingAgainRestamps` | backend/apps/core/models.py:177-180 | completing twice equals completing once at the second time, so a repeat overwrites the first stamp |
| `CoreModels.MarkAsRead` | backend/apps/core/models.py:350-354 | the result is read; an already-read notification is untouched; an unread one gets `is_read` and `read_at` = now and nothing else |
| `CoreModels.MarkAsReadIdempotent` | backend/apps/core/models.py:350-354 | marking as read twice equals marking once, and the first read time is kept |
| `CoreModels.SystemLogTextShape` | backend/apps/core/models.py:396-397 | the log's text is "[" + upper-cased level + "] " followed by a prefix of the message of at most 50 characters |
| `CoreViews.WidePermissionOwnerOnly` | backend/apps/authentication/models.py:121-132 | only the owner holds the `view_all_*` and `manage_all_*` permissions the shared-record views ask for |
| `CoreViews.NoteListIsFilter` | backend/apps/core/views.py:56-72 | the note list fails exactly when both content parameters are given and `content_type` is not an integer to `int()` (a server error); otherwise it is one filter of the notes in order: same organization, when both parameters are given a content type whose key is the converted parameter and the object id given, and public-or-own for any non-owner |
| `CoreViews.ListedNoteOpens` | backend/apps/core/views.py:56-96 | every note the list shows is visible to the detail view |
| `CoreViews.AttachmentList` | backend/apps/core/views.py:105-115 | the attachment list fails exactly when both content parameters are given and `content_type` is not an integer; otherwise an attachment is listed exactly when it is in the requester's organization and, when both parameters are given, has the content type with the converted key and the object id given |
| `CoreViews.ContentKeySpelling` | backend/apps/core/views.py:60-113 | two spellings `int()` reads as the same key (`7`, `07`, ` +7 `) give the same note list and the same attachment list |
| `CoreViews.ActivitiesByAssigneeIsFilter` | backend/apps/core/views.py:141-149 | the assignee step fails exactly when `assigned_to` is given and is not a UUID (a server error); otherwise the organization filter followed by the assignee rule, which compares the UUID the parameter spells, is one filter by their conjunction |
| `CoreViews.ActivitiesByStatusIsFilter` | backend/apps/core/views.py:151-154 | the status filter on a filtered list is one filter by the conjunction |
| `CoreViews.ActivitiesByContentIsFilter` | backend/apps/core/views.py:156-161 | the content step fails exactly when both parameters are given and `content_type` is not an integer; otherwise it is one filter by the conjunction with the converted key and the object id |
| `CoreViews.ActivityListIsFilter` | backend/apps/core/views.py:140-163 | the activity list fails exactly when the assignee is not a UUID or the content type is not an integer; otherwise it is the activities, in order, meeting the organization, assignee, status and content conditions |
| `CoreViews.ActivityListScope` | backend/apps/core/views.py:140-161 | a listed activity is in the requester's organization, is assigned to the UUID `assigned_to` spells, or is the requester's own for a non-owner without one, has the given status, and has the content type with the converted key and the given object id when both are given |
| `CoreViews.AssigneeSpelling` | backend/apps/core/views.py:143-146 | two spellings of the same UUID in `assigned_to` give the same activity list |
| `CoreViews.UpperCaseAssignee` | backend/apps/core/views.py:143-146 | the upper-case spelling of a stored id lists the same activities as the id itself |
| `CoreViews.CompleteActivityGuard` | backend/apps/core/views.py:190-217 | not found exactly when the id is missing or of another organization; forbidden exactly when it is assigned to someone else and the requester is not the owner; only success changes the activity, which is then completed and never overdue |
| `CoreViews.DashboardAccess` | backend/apps/core/views.py:226-257 | for a non-owner a dashboard is listed exactly when it is in the organization and shared or their own, and modifiable exactly when it is their own; every modifiable dashboard is listed |
| `CoreViews.MarkReadEffectSpec` | backend/apps/core/views.py:275-291 | a read succeeds exactly on the requester's own notification in their organization, changes only that one, leaves it read, and a repeat changes nothing |
| `CoreViews.MarkAllReadEffectSpec` | backend/apps/core/views.py:296-306 | the bulk update marks exactly the requester's unread notifications as read, reports their number, leaves the rest alone and leaves none unread |
| `CoreViews.MarkAllReadTwice` | backend/apps/core/views.py:296-306 | a second bulk update in a row changes nothing and reports zero |
| `CoreViews.OverdueCountIsOverdue` | backend/apps/core/views.py:371-374 | the overdue count is the number of activities that are overdue at now |
| `CoreViews.UpcomingCountIsUpcoming` | backend/apps/core/views.py:375-379 | the upcoming count is the number of open activities scheduled within the next seven days |
| `CoreViews.SummaryBuckets` | backend/apps/core/views.py:369-379 | completed, overdue and upcoming activities never add up to more than the total |
| `CoreViews.CompletionRateBounds` | backend/apps/core/views.py:381 | the completion rate lies between 0 and 100, is 0 for no activities and 100 when all are completed |
| `CoreViews.SummaryConsistent` | backend/apps/core/views.py:357-392 | the summary's buckets fit in its total and its rate lies between 0 and 100, and is 0 without activities |
| `CoreViews.RelatedObjectsRequest` | backend/apps/core/views.py:397-406 | the lookup is refused exactly when either parameter is missing or empty; otherwise it uses both as given |
| `CoreViews.RelatedAgreesWithListFilter` | backend/apps/core/views.py:399-406 | the lookup goes ahead exactly when the list views would apply their content filter |
| `CoreViews.CoreStore.constructor` | backend/apps/core/views.py:190-306 | the store starts with the given activities and notifications |
| `CoreViews.CoreStore.CompleteActivity` | backend/apps/core/views.py:190-217 | the activities and the response are those of the completion effect; notifications are unchanged |
| `CoreViews.CoreStore.MarkNotificationRead` | backend/apps/core/views.py:275-291 | the notifications and the response are those of the single-read effect; activities are unchanged |
| `CoreViews.CoreStore.MarkAllNotificationsRead` | backend/apps/core/views.py:296-306 | the notifications and the count are those of the bulk-read effect; activities are unchanged |
| `CoreAdmin.ContentPreview` | backend/apps/core/admin.py:39-40 | a note's content up to 50 characters is shown whole; longer content is cut to 50 and "..." is appended |
| `CoreAdmin.DurationShape` | backend/apps/core/admin.py:133-137 | "N/A" exactly when either time is missing; otherwise the elapsed seconds followed by ".00s" |
| `CoreAdmin.ValuePreview` | backend/apps/core/admin.py:150-152 | a setting's value text up to 50 characters is shown whole; longer text is cut to 50 and "..." is appended |
| `CoreAdmin.MessagePreview` | backend/apps/core/admin.py:177-178 | a log message up to 100 characters is shown whole; longer messages are cut to 100 and "..." is appended |
| `CoreAdmin.SystemLogAdminPermissions` | backend/apps/core/admin.py:180-185 | system logs can never be added or changed in the admin; delete and view keep the defaults |
| `AuthModels.SubscriptionValidEarlier` | backend/apps/authentication/models.py:58-62 | a subscription valid now was valid at every earlier time |
| `AuthModels.OpenSubscriptionAlwaysValid` | backend/apps/authentication/models.py:58-62 | a subscription without an end date is valid at every time |
| `AuthModels.NewOrganization` | backend/apps/authentication/models.py:35-41 | a new organization is active on the free plan, has no subscription end and a limit of five users, with the given name and slug |
| `AuthModels.StoreOrganizationSlugs` | backend/apps/authentication/models.py:28 | storing an organization keeps the unique slugs unique exactly when no other organization has its slug |
| `AuthModels.FullName` | backend/apps/authentication/models.py:117-119 | a user's full name has no leading or trailing whitespace |
| `AuthModels.OwnerHasEveryPermission` | backend/apps/authentication/models.py:123-132 | the owner's "all" entry grants every permission |
| `AuthModels.PermissionIffListed` | backend/apps/authentication/models.py:123-132 | any other role has a permission exactly when it is listed for that role |
| `AuthModels.UnknownRoleHasNone` | backend/apps/authentication/models.py:131-132 | a role outside the five has no permission at all |
| `AuthModels.ViewUsersHolders` | backend/apps/authentication/models.py:123-132 | `view_users` is held by the owner and the manager only, so an administrator lacks it |
| `AuthModels.ViewDataHolders` | backend/apps/authentication/models.py:123-132 | `view_data` is held by the owner and the viewer only |
| `AuthModels.ManageSettingsHolders` | backend/apps/authentication/models.py:123-132 | `manage_settings` is held by the owner and the administrator only |
| `AuthModels.UnlistedPermissionOwnerOnly` | backend/apps/authentication/models.py:123-132 | a permission that no role but the owner lists is held exactly by the owner |
| `AuthModels.ExpiredStaysExpired` | backend/apps/authentication/models.py:166-168 | an invitation expired now stays expired at every later time |
| `AuthModels.AcceptRefused` | backend/apps/authentication/models.py:170-173 | accepting fails exactly when the invitation is expired or not pending, and then neither the user nor the invitation changes |
| `AuthModels.AcceptJoins` | backend/apps/authentication/models.py:175-183 | an accepted invitation moves the user into its organization with its role and nothing else about the user changes; the invitation becomes accepted at now; the user then holds exactly that role's permissions |
| `AuthModels.AcceptOnce` | backend/apps/authentication/models.py:170-183 | an accepted invitation can never be accepted again, by anyone, at any time |
| `AuthSerializers.FindPending` | backend/apps/authentication/serializers.py:79-83 | the lookup finds a pending invitation with that token and email, and finds none exactly when there is none |
| `AuthSerializers.FindPendingUnique` | backend/apps/authentication/models.py:152 | with unique tokens, the lookup finds exactly the matching invitation |
| `AuthSerializers.Trimmed` | backend/apps/authentication/serializers.py:58-60 | every text field is handed on trimmed, the token as sent, and the organization name is present exactly when it was sent |
| `AuthSerializers.TrimmedIdempotent` | backend/apps/authentication/serializers.py:58-60 | trimming an already trimmed payload changes nothing |
| `AuthSerializers.Clean` | backend/apps/authentication/serializers.py:61 | the validated data differs from the payload only in the token, which is the canonical spelling of the UUID sent, or none when it was not sent or spells no UUID |
| `AuthSerializers.TextRefusal` | backend/apps/authentication/serializers.py:58-60 | a text field is refused exactly when it is blank and blank is not allowed, or longer than its maximum; the refusal names that field |
| `AuthSerializers.FieldRefusal` | backend/apps/authentication/serializers.py:55-69 | a field-level refusal happens exactly when some field is unacceptable: username or email blank, too long (150, 254) or already in use; password or its confirmation blank; a name over 150 or a phone over 20 characters; an organization name given but blank; a token sent that is not a UUID |
| `AuthSerializers.ValidateAttrs` | backend/apps/authentication/serializers.py:71-90 | `validate` refuses with none of the field-level errors; an accepted registration names an invitation exactly when a token was given, and then by a valid position |
| `AuthSerializers.AttrsRefusals` | backend/apps/authentication/serializers.py:71-90 | `validate` refuses mismatched passwords first; then a token with no pending invitation for that email is invalid; then a matching expired one is expired; everything else is accepted |
| `AuthSerializers.ValidateRegistration` | backend/apps/authentication/serializers.py:55-90 | an accepted registration names an invitation only by a valid position |
| `AuthSerializers.RegistrationRefusals` | backend/apps/authentication/serializers.py:55-90 | a field-level refusal comes first and happens exactly when some field is unacceptable; then mismatched passwords; then a token with no pending invitation for that email is invalid; then a matching expired one is expired; every other registration is accepted |
| `AuthSerializers.EmptyOrganizationNameRefused` | backend/apps/authentication/serializers.py:60 | an empty organization name is refused as a blank field once every other field is acceptable |
| `AuthSerializers.BlankOrganizationNameRefused` | backend/apps/authentication/serializers.py:60 | an organization name made only of whitespace is trimmed to blank and refused, even with every other field acceptable |
| `AuthSerializers.NewUser` | backend/apps/authentication/serializers.py:98 | a new account is active, outside any organization, an employee, and has the given email and password |
| `AuthSerializers.CreateRegistered` | backend/apps/authentication/serializers.py:92-114 | `create` as evidently intended keeps the number of invitations |
| `AuthSerializers.CreateRegisteredAsWritten` | backend/apps/authentication/serializers.py:92-98 | `create` as written fails exactly when the validated data holds an invitation token, which `create_user` refuses; otherwise it gives the intended result |
| `AuthSerializers.RegistrationPlacesUser` | backend/apps/authentication/serializers.py:92-114 | the validator finds an invitation exactly when a token was sent; the account has the given email and username; with an invitation the user joins its organization in its role, that invitation alone is marked accepted at the current time and no organization is founded; otherwise a given organization name founds exactly that new organization, which the user owns; otherwise the user stays an employee outside any organization |
| `AuthSerializers.ValidateLogin` | backend/apps/authentication/serializers.py:123-140 | a login only succeeds with the account the credential backend matched |
| `AuthSerializers.LoginOrder` | backend/apps/authentication/serializers.py:123-140 | missing credentials, no match, a disabled account and a suspended organization are refused in that order, and every other login succeeds with the matched account |
| `AuthSerializers.TrimmedOrganization` | backend/apps/authentication/serializers.py:12-26 | the organization serializer's fields trim only the name and the slug |
| `AuthSerializers.TrimmedOrganizationIdempotent` | backend/apps/authentication/serializers.py:12-26 | trimming a trimmed organization changes nothing |
| `AuthSerializers.ValidateOrganization` | backend/apps/authentication/models.py:27-36 | the organization sent is accepted exactly when, trimmed, its name is non-blank and at most 255 characters, its slug is non-blank, at most 50 characters, made of letters, digits, `-` and `_` and held by no other organization, and its plan and status are among their choices; what is saved is the trimmed organization |
| `AuthSerializers.ValidatedOrganizationSaves` | backend/apps/authentication/models.py:28 | saving a validated organization keeps slugs unique, and sending back what was saved validates to the same organization |
| `AuthSerializers.TakenSlugRefused` | backend/apps/authentication/models.py:28 | another organization's slug, with any surrounding whitespace, is refused |
| `AuthSerializers.PasswordChangeEffect` | backend/apps/authentication/serializers.py:143-168 | on the three texts as sent, each trimmed: a change is accepted exactly when the current password is given and checks and the new one is given and equals the confirmation; a blank current password, a wrong one, and a mismatch after all fields passed are each their own error; afterwards the trimmed new password checks, a different old one no longer does, and nothing else changes |
| `AuthSerializers.PaddedPasswordStoredTrimmed` | backend/apps/authentication/serializers.py:146-168 | a new password sent with a leading space is stored trimmed, so it no longer matches as typed |
| `AuthSerializers.NewInvitation` | backend/apps/authentication/serializers.py:187-192 | a new invitation is pending, sent by the requester for their organization, with the given email, role and token, and not yet accepted |
| `AuthSerializers.NewInvitationWindow` | backend/apps/authentication/serializers.py:191 | a new invitation is expired exactly at the times more than seven days after its creation |
| `AuthSerializers.ValidateInvitation` | backend/apps/authentication/serializers.py:171-185 | the body is accepted exactly when the trimmed email is present, non-blank, at most 254 characters and has text on both sides of its last `@`, and a role sent is one of the five roles; the accepted email is the trimmed one and the role is the one sent or "employee"; the role error comes exactly when the email passes and the role sent is not a role |
| `AuthSerializers.UnknownRoleRefused` | backend/apps/authentication/models.py:148 | a role outside `User.ROLE_CHOICES`, such as "superuser", is refused whatever the email |
| `AuthSerializers.AddressWithoutAtRefused` | backend/apps/authentication/models.py:147 | an email without an `@`, such as "x", is refused |
| `AuthSerializers.SetProfileValueReads` | backend/apps/authentication/serializers.py:205-210 | setting one profile field changes that field only and nothing outside the profile |
| `AuthSerializers.Supplied` | backend/apps/authentication/serializers.py:207 | a field counts as supplied exactly when the request data holds it |
| `AuthSerializers.ApplyProfileReads` | backend/apps/authentication/serializers.py:205-210 | after a profile update each field holds the last value supplied for it, or its old value, and nothing outside the profile changes |
| `AuthSerializers.UpdateProfile` | backend/apps/authentication/serializers.py:205-210 | the loop's result is the supplied fields assigned in order |
| `AuthViews.FirstField` | backend/apps/authentication/views.py:61 | `split(',')[0]` is the longest prefix without a comma, followed by a comma unless it is the whole text |
| `AuthViews.FirstFieldUnique` | backend/apps/authentication/views.py:61 | that prefix is the only one with this property |
| `AuthViews.ClientIp` | backend/apps/authentication/views.py:346-353 | with a non-empty forwarding header the address is its first comma-separated field; otherwise it is the remote address |
| `AuthViews.Flags` | backend/apps/authentication/views.py:294-335 | a role's flag map has exactly the six permission names as keys |
| `AuthViews.PermissionsMap` | backend/apps/authentication/views.py:294-337 | each of the five roles has a map over the six flags; an unknown role has an empty map |
| `AuthViews.OwnerAdminAllFlags` | backend/apps/authentication/views.py:295-310 | owner and administrator have every flag set |
| `AuthViews.ViewerFlags` | backend/apps/authentication/views.py:327-334 | the viewer has only `view_data` set |
| `AuthViews.ManagerFlags` | backend/apps/authentication/views.py:311-318 | the manager has every flag but `manage_users` and `manage_settings` |
| `AuthViews.EmployeeFlags` | backend/apps/authentication/views.py:319-326 | the employee has only `manage_data` and `view_data` set |
| `AuthViews.FlagsCoverRoleCheck` | backend/apps/authentication/views.py:294-337 | every flag a known role holds by `has_organization_permission` is set in the map |
| `AuthViews.FlagsExceedRoleCheck` | backend/apps/authentication/views.py:303-310 | the map shows `view_data` for an administrator that the role check refuses |
| `AuthViews.AuditBy` | backend/apps/authentication/views.py:191-200 | an audit record names the acting user and organization and stores the client address |
| `AuthViews.UpdateOrganizationGuard` | backend/apps/authentication/views.py:180-202 | without `manage_settings` (anyone but owners and administrators) the update is forbidden; otherwise it is rejected exactly when the serializer refuses the organization sent; any refusal changes nothing; an update replaces that one organization by the trimmed one sent, whose slug no other organization has, keeps the accounts consistent and appends one audit record |
| `AuthViews.UpdateOrganizationKeepsValid` | backend/apps/authentication/views.py:180-202 | an organization update keeps references resolvable and tokens and slugs unique |
| `AuthViews.UserListScope` | backend/apps/authentication/views.py:211-217 | the user list is empty but for owners and managers, for whom it holds exactly the users of their organization |
| `AuthViews.InvitationsOf` | backend/apps/authentication/views.py:230-232 | the organization's invitations, in store order, no more than all of them |
| `AuthViews.InvitationListScope` | backend/apps/authentication/views.py:226-232 | the invitation list is empty but for owners and administrators, for whom it holds exactly their organization's invitations |
| `AuthViews.CreateInvitationGuard` | backend/apps/authentication/views.py:234-256 | a body the serializer refuses gets its error before any permission check and changes nothing; otherwise an invitation is created exactly when the requester may manage users, has an organization below its user limit, and neither the trimmed email nor the token conflicts; it is then appended, pending, with the trimmed email and a role among the choices, live now, with one audit record; every other outcome changes nothing and consistency is kept |
| `AuthViews.PerformCreateInvitationGuard` | backend/apps/authentication/views.py:234-256 | past the serializer, the invitation is created exactly under the permission, organization, user-limit and conflict conditions, pending for seven days with the email and role given; a refusal changes nothing |
| `AuthViews.FindPendingToken` | backend/apps/authentication/views.py:267 | the lookup finds a pending invitation with the token, and finds none exactly when there is none |
| `AuthViews.AcceptInvitationView` | backend/apps/authentication/views.py:264-285 | the token is invalid exactly when no pending invitation has it; details are shown only for a pending, unexpired invitation with that token, with its organization |
| `AuthViews.AcceptInvitationExpired` | backend/apps/authentication/views.py:269-273 | a pending invitation's token is reported expired exactly when it is expired |
| `AuthViews.RegistrationWithoutOrganizationCrashes` | backend/apps/authentication/views.py:31-44 | a valid registration without invitation or organization name fails as written and stores nothing, while the intended handler stores the account with the given email outside any organization and writes no audit record |
| `AuthViews.InvitedRegistrationCrashes` | backend/apps/authentication/serializers.py:92-98 | a valid registration with an invitation token fails as written and stores nothing, while the intended handler puts the account in the invitation's organization with its role, marks the invitation accepted and writes one audit record |
| `AuthViews.RegisterAgreesWithWritten` | backend/apps/authentication/views.py:26-44 | wherever the written handler does not fail, the intended one gives the same accounts and response; and the written handler registers only sign-ups without an invitation token that found an organization |
| `AuthViews.TakenSlugRegistrationCrashes` | backend/apps/authentication/serializers.py:105-108 | a valid sign-up that founds an organization under a slug already stored fails, as written and as intended, and stores nothing |
| `AuthViews.RegisterKeepsValid` | backend/apps/authentication/views.py:26-44 | a registration keeps every organization reference resolvable and the invitation tokens and organization slugs unique |
| `AuthViews.CreateRegisteredReferences` | backend/apps/authentication/serializers.py:92-112 | `create` keeps each invitation's organization and token, and puts the account in no organization, the invited one, or the one it founds |
| `AuthViews.RegisterEffect` | backend/apps/authentication/views.py:26-44 | a refused registration changes nothing; the handler fails exactly when a valid sign-up founds an organization under a slug already stored, and then changes nothing; an accepted one adds exactly the new account with the given email and password, whose email and username no earlier account has, keeps every other account and organization, and appends an audit record exactly when the account has an organization |
| `AuthViews.LoginEffectStamps` | backend/apps/authentication/views.py:69-92 | a refused login changes nothing; a successful one changes only the matched account's last-login time and address and writes an audit record exactly for a member of an organization |
| `AuthViews.ChangePasswordOutcome` | backend/apps/authentication/views.py:150-168 | a change happens exactly when the trimmed current password is given and checks and the trimmed new one is given and equals the trimmed confirmation; it then alters only the requester's password, to the trimmed new one, which it accepts; a refusal changes nothing |
| `AuthViews.ChangePasswordKeepsValid` | backend/apps/authentication/views.py:150-168 | a password change keeps the accounts consistent |
| `AuthViews.AccountStore.constructor` | backend/apps/authentication/models.py:10-183 | the store starts empty and consistent |
| `AuthViews.AccountStore.UpdateOrganization` | backend/apps/authentication/views.py:180-202 | the new state and the response are those of the organization update, and consistency is kept |
| `AuthViews.AccountStore.CreateInvitation` | backend/apps/authentication/views.py:234-256 | the new state and the response are those of the invitation creation, serializer refusal included, and consistency is kept |
| `AuthViews.AccountStore.RegisterUser` | backend/apps/authentication/views.py:26-44 | the new state and the response are those of the intended registration, and consistency is kept |
| `AuthViews.AccountStore.Login` | backend/apps/authentication/views.py:69-92 | the new state and the response are those of the login, and consistency is kept |
| `AuthViews.AccountStore.ChangePassword` | backend/apps/authentication/views.py:150-168 | the new state and the response are those of the password change, and consistency is kept |
| `AuthViews.AccountStore.UpdateRequesterProfile` | backend/apps/authentication/serializers.py:205-210 | only the requester's account changes, to the profile update of it |
| `DataTable.FilteredRowsSpec` | frontend/src/components/common/DataTable.tsx:142-151 | with no query every row is shown; otherwise exactly the rows with a truthy value containing the query case-insensitively, in their original order |
| `DataTable.FalsyRowNeverMatches` | frontend/src/components/common/DataTable.tsx:145-148 | a row whose values are all falsy never matches a search |
| `DataTable.Ids` | frontend/src/components/common/DataTable.tsx:86 | the select-all ids are the rows' ids, position by position |
| `DataTable.RemoveFirstDistinct` | frontend/src/components/common/DataTable.tsx:96-110 | removing a present id from a selection without repeats drops exactly that id and keeps it without repeats |
| `DataTable.ToggledSpec` | frontend/src/components/common/DataTable.tsx:93-113 | a click appends an absent id and cuts out a present one at its position; twice on an absent id gives the selection back; a selection without repeats keeps none and flips only that id's membership |
| `DataTable.NextSortSpec` | frontend/src/components/common/DataTable.tsx:78-82 | a click always activates the clicked column; an inactive column starts ascending; on the active column the direction flips |
| `DataTable.HeaderFlagsExclusive` | frontend/src/components/common/DataTable.tsx:229-230 | the select-all box is never both checked and indeterminate, and is neither with nothing selected |
| `DataTable.ColSpanMatchesHeader` | frontend/src/components/common/DataTable.tsx:346-350 | the empty-state cell spans exactly the header row's cells: the columns plus at most two |
| `DataTable.PaginationCount` | frontend/src/components/common/DataTable.tsx:367 | the pager counts the filtered rows when no total (or a total of 0) is given, and the total otherwise |
| `DataTable.PageSizeCalls` | frontend/src/components/common/DataTable.tsx:127-134 | a page-size change reports the new size when a handler is given, then returns to page 0 when a page handler is given, in that order |
| `DataTable.RowDelete` | frontend/src/components/common/DataTable.tsx:325-331 | a row's delete button asks to delete that row alone |
| `DataTable.TableState.constructor` | frontend/src/components/common/DataTable.tsx:73-76 | nothing is selected, the table sorts by "id" ascending, and the search is empty |
| `DataTable.TableState.ToolbarDelete` | frontend/src/components/common/DataTable.tsx:201-207 | the toolbar delete appears exactly with a non-empty selection and a delete handler, and asks for the whole selection |
| `DataTable.TableState.RequestSort` | frontend/src/components/common/DataTable.tsx:78-82 | the sort state becomes the next sort for the clicked column; selection and search are unchanged |
| `DataTable.TableState.SelectAllClick` | frontend/src/components/common/DataTable.tsx:84-91 | checking selects every input row's id, so the header box is checked for a non-empty table; unchecking clears the selection; sort and search are unchanged |
| `DataTable.TableState.Click` | frontend/src/components/common/DataTable.tsx:93-113 | on a selectable table the selection toggles the id; otherwise nothing changes |
| `DataTable.TableState.Search` | frontend/src/components/common/DataTable.tsx:138-140 | the query becomes the typed text and nothing else changes |
| `UiSlice.BoolText` | frontend/src/store/slices/uiSlice.ts:36 | `toString()` of a boolean is "true" exactly for true |
| `UiSlice.InitialState` | frontend/src/store/slices/uiSlice.ts:17-22 | the sidebar starts open with no notifications and no loading keys, and dark mode is on exactly when the stored value is "true" |
| `UiSlice.NewNotification` | frontend/src/store/slices/uiSlice.ts:47-51 | a new notification's id is the current time in decimal, and it carries the payload's message, type and auto-hide flag |
| `UiSlice.StoredAfter` | frontend/src/store/slices/uiSlice.ts:34-41 | only the two dark-mode reducers write the stored setting |
| `UiSlice.ToggleSidebarSpec` | frontend/src/store/slices/uiSlice.ts:28-30 | toggling flips the sidebar flag only, and toggling twice restores the state |
| `UiSlice.SetSidebarOpenSpec` | frontend/src/store/slices/uiSlice.ts:31-33 | setting the sidebar changes that flag only, and setting it again changes nothing |
| `UiSlice.ToggleDarkModeSpec` | frontend/src/store/slices/uiSlice.ts:34-37 | toggling flips dark mode only, and toggling twice restores the state |
| `UiSlice.DarkModePersists` | frontend/src/store/slices/uiSlice.ts:17-41 | after either dark-mode reducer, a state initialised from the stored setting has the same dark mode as the reduced state |
| `UiSlice.AddNotificationSpec` | frontend/src/store/slices/uiSlice.ts:42-52 | adding appends exactly one notification, stamped with the time, after the existing ones; nothing else changes |
| `UiSlice.RemoveNotificationSpec` | frontend/src/store/slices/uiSlice.ts:53-57 | removing drops every notification with the id and keeps the rest in order; nothing else changes; an unknown id changes nothing |
| `UiSlice.RemoveUndoesAdd` | frontend/src/store/slices/uiSlice.ts:42-57 | removing the id of a notification just added gives the same state as removing that id without adding |
| `UiSlice.ClearNotificationsSpec` | frontend/src/store/slices/uiSlice.ts:58-60 | clearing empties the notifications and changes nothing else |
| `UiSlice.SetLoadingSpec` | frontend/src/store/slices/uiSlice.ts:61-63 | setting a loading key records the flag under that key and keeps every other key and field |
| `UiSlice.Store.constructor` | frontend/src/store/slices/uiSlice.ts:17-22 | the store starts in the initial state for the stored setting |
| `UiSlice.Store.Dispatch` | frontend/src/store/slices/uiSlice.ts:27-63 | the new state is the reducer's result, and the stored setting changes as the dark-mode reducers write it |
| `SliceLists.ListOf` | frontend/src/store/slices/inventorySlice.ts:377 | a fetched list is the page's `results` for a paginated response and the array itself otherwise |
| `SliceLists.FindIndex` | frontend/src/store/slices/inventorySlice.ts:402 | the position of the first record with the id, or -1 exactly when no record has it |
| `SliceLists.ReplaceByIdSpec` | frontend/src/store/slices/inventorySlice.ts:401-406 | replacing by id keeps the length, changes nothing when the id is absent, and otherwise puts the payload at the first position with the id and nowhere else |
| `SliceLists.RemoveByIdSpec` | frontend/src/store/slices/inventorySlice.ts:410 | removing by id drops every record with the id, keeps every other one in order, and changes nothing when the id is absent |
| `SliceLists.ClearIfCurrent` | frontend/src/store/slices/inventorySlice.ts:411-413 | the shown record is cleared exactly when it has the deleted id, and otherwise kept |
| `InventorySlice.LoadingFlags` | frontend/src/store/slices/inventorySlice.ts:371-395 | a fetch's pending action raises the loading flag and clears the error, its rejection lowers the flag and stores the message, and neither changes anything else; the pending and rejected actions of the other thunks change nothing |
| `InventorySlice.FetchedSpec` | frontend/src/store/slices/inventorySlice.ts:375-378 | a fulfilled list fetch fills that list alone from the payload and lowers the flag; a fetched record becomes the shown one of its kind and nothing else changes |
| `InventorySlice.ProductCreatedSpec` | frontend/src/store/slices/inventorySlice.ts:397-399 | a created product is appended and nothing else changes |
| `InventorySlice.ProductUpdatedSpec` | frontend/src/store/slices/inventorySlice.ts:401-407 | an update keeps the list's length, replaces the first product with the payload's id, or nothing, and shows the payload; nothing else changes |
| `InventorySlice.ProductDeletedSpec` | frontend/src/store/slices/inventorySlice.ts:409-414 | a delete removes every product with the id, keeps the rest in order, and clears the shown product exactly when it has the id; nothing else changes |
| `InventorySlice.ClearAndIgnored` | frontend/src/store/slices/inventorySlice.ts:353-367 | each clear reducer resets one field; the actions of thunks without a case change nothing |
| `InventorySlice.Store.constructor` | frontend/src/store/slices/inventorySlice.ts:349-351 | the store starts in the slice's initial state |
| `InventorySlice.Store.Dispatch` | frontend/src/store/slices/inventorySlice.ts:352-550 | the new state is the reducer's result for the action |
| `InventorySlice.Store.FlagAction` | frontend/src/store/slices/inventorySlice.ts:353-395 | the clear, pending and rejected cases leave the reducer's result |
| `InventorySlice.Store.SummaryAction` | frontend/src/store/slices/inventorySlice.ts:420-544 | the stock-history, statistics and low-stock cases leave the reducer's result |
| `InventorySlice.Store.FetchAction` | frontend/src/store/slices/inventorySlice.ts:375-517 | the list and record fetch cases leave the reducer's result |
| `InventorySlice.Store.ProductAction` | frontend/src/store/slices/inventorySlice.ts:397-414 | the product create, update and delete cases leave the reducer's result |
| `CrmSlice.WithList` | frontend/src/store/slices/crmSlice.ts:262 | storing a list of one kind changes that list only |
| `CrmSlice.WithCurrent` | frontend/src/store/slices/crmSlice.ts:275 | storing the shown record of one kind changes that record only |
| `CrmSlice.LoadingFlags` | frontend/src/store/slices/crmSlice.ts:256-280 | a fetch's pending action raises the loading flag and clears the error, its rejection lowers the flag and stores the message; the pending and rejected actions of the other thunks change nothing |
| `CrmSlice.CreatedSpec` | frontend/src/store/slices/crmSlice.ts:282-284 | a created record is appended to its own list; no other list, shown record or flag changes |
| `CrmSlice.UpdatedSpec` | frontend/src/store/slices/crmSlice.ts:286-292 | an update keeps its list's length, replaces the first record with the payload's id, or nothing, and shows the payload; the other kinds are untouched |
| `CrmSlice.DeletedSpec` | frontend/src/store/slices/crmSlice.ts:294-299 | a delete removes every record of that kind with the id, keeps the rest in order, and clears the shown record exactly when it has the id; the other kinds are untouched |
| `CrmSlice.ClearAndIgnored` | frontend/src/store/slices/crmSlice.ts:240-253 | each clear reducer resets one field; a lead conversion or stage update, which have no case, change nothing |
| `CrmSlice.Store.constructor` | frontend/src/store/slices/crmSlice.ts:237-239 | the store starts in the slice's initial state |
| `CrmSlice.Store.Dispatch` | frontend/src/store/slices/crmSlice.ts:240-405 | the new state is the reducer's result for the action |
| `CrmSlice.Store.RecordAction` | frontend/src/store/slices/crmSlice.ts:282-299 | the create, update and delete cases leave the reducer's result |
| `SalesPipeline.StagesDistinct` | frontend/src/pages/crm/SalesPipeline.tsx:92 | the six board stages are pairwise different |
| `SalesPipeline.IndexOfStage` | frontend/src/pages/crm/SalesPipeline.tsx:93 | `indexOf` finds each stage at its own position |
| `SalesPipeline.MoveTargetSpec` | frontend/src/pages/crm/SalesPipeline.tsx:91-105 | from the stage at index i forward asks for index i + 1 exactly when i < 5 and back asks for i - 1 exactly when i > 0; from a stage off the board forward asks for the first stage and back does nothing |
| `SalesPipeline.MoveRoundTrip` | frontend/src/pages/crm/SalesPipeline.tsx:91-105 | moving forward and then back, or back and then forward, returns to the starting stage |
| `SalesPipeline.ForwardThenBack` | frontend/src/pages/crm/SalesPipeline.tsx:96-99 | forward from index i < 5 reaches i + 1, and back from there reaches i |
| `SalesPipeline.BackThenForward` | frontend/src/pages/crm/SalesPipeline.tsx:96-99 | back from index i > 0 reaches i - 1, and forward from there reaches i |
| `SalesPipeline.BackButtonSpec` | frontend/src/pages/crm/SalesPipeline.tsx:369 | on the board the back button is shown exactly where the handler moves back |
| `SalesPipeline.ForwardButtonSpec` | frontend/src/pages/crm/SalesPipeline.tsx:379 | on the board a shown forward button always moves |
| `SalesPipeline.HiddenForwardMove` | frontend/src/pages/crm/SalesPipeline.tsx:379 | the handler would move a won opportunity to lost, but that button is hidden |
| `SalesPipeline.Shown` | frontend/src/pages/crm/SalesPipeline.tsx:183 | the fetched opportunities are shown when there are any, and the demonstration data otherwise |
| `SalesPipeline.ByStageSpec` | frontend/src/pages/crm/SalesPipeline.tsx:186-190 | the grouping has exactly the six stages as keys, each holding the opportunities at that stage in order; an opportunity at another stage appears in no column |
| `SalesPipeline.TotalsSpec` | frontend/src/pages/crm/SalesPipeline.tsx:193-200 | each stage's total counts its column and sums its amounts; an empty board totals zero, and one more opportunity adds to its own stage only |
| `SalesPipeline.ProbabilityColourSpec` | frontend/src/pages/crm/SalesPipeline.tsx:324-330 | the probability chip is green from 70, amber from 30 below 70 and red below 30, and never gets worse as the probability rises |
| `Sidebar.InitialMenusSpec` | frontend/src/components/navigation/Sidebar.tsx:60-65 | every group's lower-cased title is a key of the initial flags, and exactly the inventory and CRM groups start expanded |
| `Sidebar.MenuToggledSpec` | frontend/src/components/navigation/Sidebar.tsx:67-72 | a toggle flips the named group and keeps every other key; toggling twice restores every group's openness, and the flags themselves when the key was present |
| `Sidebar.IsActiveSpec` | frontend/src/components/navigation/Sidebar.tsx:81-89 | the root entry is active only on the root path; any other entry is active exactly on paths it prefixes, so "/crm/leads" is active on "/crm/leadsX" and an empty path is active everywhere |
| `Sidebar.HandleNavigation` | frontend/src/components/navigation/Sidebar.tsx:74-79 | following an entry always navigates to its path first, and closes the drawer exactly on a small screen |
| `Sidebar.SidebarState.constructor` | frontend/src/components/navigation/Sidebar.tsx:60-65 | the component starts with the initial expanded flags |
| `Sidebar.SidebarState.HandleMenuToggle` | frontend/src/components/navigation/Sidebar.tsx:67-72 | a group header click replaces the flags by their toggle for that key |
| `Text.StripShape` | backend/apps/authentication/models.py:119 | `strip()` gives a slice of the text with no outer whitespace, after dropping only whitespace on either side |
| `Text.StripIdempotent` | backend/apps/authentication/serializers.py:58-60 | stripping twice equals stripping once |
| `Text.SpacedName` | backend/apps/authentication/models.py:119 | "first last" stripped has no leading or trailing whitespace |
| `Text.SpacedNameClean` | backend/apps/authentication/models.py:119 | two names without outer whitespace are joined by exactly one space |
| `Text.SpacedNameFirstOnly` | backend/apps/authentication/models.py:119 | with an empty last name the first name stands alone, without the separator |
| `Text.SpacedNameEmpty` | backend/apps/authentication/models.py:119 | two empty names give the empty full name |
| `Text.Words` | backend/apps/crm/models.py:219 | `split()` yields only non-empty words without whitespace |
| `Text.WordsEmpty` | backend/apps/crm/models.py:219 | `split()` yields no words exactly when the text is all whitespace |
| `Text.WordsOfJoin` | backend/apps/crm/models.py:220 | splitting the single-space join of words gives those words back |
| `Text.Lower` | frontend/src/components/common/DataTable.tsx:148 | lower-casing maps every character and keeps the length |
| `Text.LowerIdempotent` | frontend/src/components/common/DataTable.tsx:148 | lower-casing twice equals lower-casing once |
| `Text.ContainsHasPosition` | frontend/src/components/common/DataTable.tsx:148 | a string that `includes` another has it at some position |
| `Text.PositionGivesContains` | frontend/src/components/common/DataTable.tsx:148 | an occurrence at a position makes `includes` true |
| `Text.PadNat` | backend/apps/inventory/models.py:452 | `{count:04d}` pads the decimal digits with zeros on the left to the width, and never cuts them |
| `Text.DigitsValueOfNatToString` | backend/apps/inventory/models.py:452 | the decimal text of a number reads back as that number |
| `Text.ParseIntOfIntToString` | backend/apps/core/admin.py:136 | the decimal text of any integer, negative ones included, parses back to it |
| `Uuids.ParseUuid` | backend/apps/inventory/serializers.py:348-349 | a `UUIDField` accepts a text only as the canonical spelling it writes back: 36 characters, hyphens at 8, 13, 18 and 23, lower-case hex digits elsewhere |
| `Uuids.HexDigitsOf` | backend/apps/inventory/serializers.py:348-349 | the digits `int(h, 16)` reads are non-empty lower-case hex, no more than the text holds |
| `Uuids.ParseHyphenated` | backend/apps/inventory/serializers.py:348-349 | an 8-4-4-4-12 spelling in either case names the UUID spelled by its lower-case form |
| `Uuids.CanonicalRoundTrip` | backend/apps/authentication/serializers.py:61 | a canonical spelling parses to itself |
| `Uuids.ParseUuidIdempotent` | backend/apps/authentication/serializers.py:61 | parsing the spelling a parse wrote back gives the same id |
| `Uuids.UpperCaseNamesSame` | backend/apps/inventory/serializers.py:368 | the upper-case spelling of a UUID names the same UUID |

## Left out

**Persistence and HTTP**
- The Django ORM, querysets and `save()`: tables are maps and sequences, and a request is one
  function from the old tables to the new ones. `transaction.atomic` is modelled by committing
  all of a request's writes or none of them.
- HTTP plumbing: responses and status codes are outcome variants. Serializer error
  dictionaries, pagination and the generic list, detail and `perform_create` views of the
  routers are not part of this model.
- `product_stock_history_view`, `dashboard_stats_view` and the group-by dictionaries of
  `crm_stats_view` (`leads_by_status`, `opportunities_by_stage`): these are
  read-only aggregations outside the modelled rules.
- The `ContentType` lookup after the guard of `related_objects_view`. Only the guard is modelled.
- `logout_view`: it revokes a JWT. Tokens belong to a foreign library.

**Foreign code, the clock and the browser**
- JWT tokens, password hashing and the password validators. A password is kept as the text it
  is compared against.
- `authenticate` is a parameter: the account the credential backend found, if any. Django's
  default backend already refuses inactive accounts, so under it the `AccountDisabled` refusal
  of the login serializer cannot be reached; the model keeps the check as written.
- The clock (`timezone.now()`, `new Date().getTime()`) is a parameter. `slugify` and UUID
  generation are parameters too: the new ids and the slug are passed in.
- `localStorage` is the store's `storedDarkMode` field.
- React and MUI rendering: only the component state and the values the render derives are modelled.
- The demonstration opportunities of the sales board are a parameter.

**Arithmetic and formatting**
- Floating point: rates and returns are exact rationals. `round`, `toFixed` and
  `toLocaleString` are not modelled.
- The rendering of a JSON value by `str()` in `SystemLogAdmin.value_preview` is not modelled;
  the value is given as its text.
- The duration column of the workflow-execution admin works on whole seconds, so its two
  decimals are always ".00". Sub-second timestamps are not modelled.
- DataTable: a cell value is text, an integer, a boolean, an object or missing. Fractional
  numbers and their `toString` are not modelled.
- The page-size handler receives the already-parsed size. `parseInt` on the select's value is
  not modelled.
- Category paths are walked only for parent chains that end. `ChainEnds` bounds the depth, and
  a cyclic parent chain, on which `full_path` would not terminate, is excluded.

**Wiring and refusals**
- The list views' query values are converted as the database layer does: `assigned_to` as a UUID,
  `content_type` by `int()`. Records name their content type by model label, and the
  content-type table giving each label's key is a parameter.
- UUID text is parsed by `uuid.UUID`'s rules, but `int()` accepting non-ASCII digits (full-width or
  Arabic-Indic hex digits) is not modelled: only ASCII hex digits are read.
- Registration, password change and organization update: DRF reports every failing field at once;
  the model reports the first one in field order. A field missing from the payload is not
  modelled: every required text is present.
- Organization update: only full updates (`PUT`) are modelled; a partial `PATCH`, which validates
  only the fields sent, is not. The description, website, phone, address and storage-limit fields
  are not part of the modelled organization, nor are the parsing of the subscription dates and the
  database-dependent range of `max_users`.
- Registration: the email-format validator, the username character validator and the password
  validators are not modelled.
- The registration payload enters the model after the `CharField`s trimmed it: `AuthViews.Register`
  and `AuthViews.AccountStore.RegisterUser` take that payload, and `AuthSerializers.Trimmed` makes it
  from the text sent.
- `SalesPipeline.tsx:104` dispatches `updateOpportunityStage` with `{id, stage}` where the thunk
  expects `{id, data}`. The model stops at the stage the handler asks for.
- The user-limit refusal in `InvitationListCreateView.perform_create` raises through an
  unimported `serializers` name. It is modelled as the `UserLimitReached` refusal.
- `OrganizationView` for a user outside any organization is not modelled: `get_object` returns
  nothing there, and the update would fail.
- Invitation creation: the email check is the first one `EmailValidator` makes (text on both
  sides of the last `@`); its user-part and domain-part patterns are not modelled.
- The profile update takes the `ProfileSerializer`'s validated data: the trimming, the lengths of
  phone (20), job title and department (100), timezone (50) and language (10) and the refusal of
  a blank timezone or language happen before it and are not modelled.
- The stock movement's optional `unit_cost` (a decimal the movement stores) is not part of the
  modelled movement.
- The lead-conversion serializer is not modelled. Its verdict is the `requestValid` parameter
  of `CrmViews.ConvertLeadEffect`.

**Weaker contracts**
- AuthSerializers.NewUser: `create_user`'s `normalize_email` (the lower-cased domain) and the Unicode
  normalisation of the username are not modelled; the account keeps the text as validated.
- Text.Lower: only ASCII letters are case-folded. JavaScript's `toLowerCase()` also folds other
  scripts (for example "É" to "é"); for the hex digits of a UUID the two agree.
- DataTable.FilteredRowsSpec: the search matches case-insensitively for ASCII letters only, because
  it is stated with `Text.Lower`; a query and a cell that differ only in the case of a non-ASCII
  letter match in the browser but not in the model.
- InventoryStats.TopProductsLargest: the order among products of equal stock value is not
  stated. The source's stable sort keeps query order; the model proves sortedness, the
  permutation and that the five kept are the largest.
- AuthViews.InvitationsOf: the invitations come in store order. The newest-first ordering of the
  invitation table (`ordering = ['-created_at']`) is not modelled.
- CrmModels.ConvertSpec: it states the corrected conversion, in which a whitespace-only contact name gives
  a contact with empty names. As written the conversion crashes there with `IndexError` before
  writing anything; `CrmViews.BlankNameConversionCrashes` states that discrepancy.
- CrmModels.Convert, CrmModels.ConvertedContact, CrmViews.ConversionWrites and
  CrmViews.ConvertLeadEffect: they follow the corrected name split, like `ConvertSpec`.
- InventoryViews.InvalidLiteralText: the text is quoted in single quotes. `repr` switches to
  double quotes for a text holding `'` and escapes backslashes and control characters.
- Text.Upper: only ASCII letters are folded; Python's `str.upper` also folds other scripts. The
  log-level codes it is applied to are ASCII.
- DataTable: every object cell is shown as "[object Object]". JavaScript's `String` gives an
  array's elements joined by commas instead.
- CrmViews.StatsGuards: only the zero guards and the bounds of the rates are stated. The rates
  are exact rationals rather than rounded floats.

## Findings

| source | as written | input that shows it | evidently intended | confidence | as-written member | corrected member |
|---|---|---|---|---|---|---|
| backend/apps/crm/models.py:219-220 | `contact_name.split()[0] if contact_name else ''` guards only the empty name, so a name made only of whitespace raises `IndexError` and the conversion fails | a lead whose contact name is `" "` | a blank name gives an empty first and last name | not executed | `CrmViews.BlankNameConversionCrashes` | `CrmModels.SplitNameWords` |
| backend/apps/crm/views.py:268 | the pipeline's `weighted_value` is the sum of the values times the sum of the probabilities over 100, and the `if Sum('probability')` test is on an aggregate object, so it always takes that branch | two open opportunities worth 100.00 at 50% give 200.00 | the sum of each opportunity's own weighted value (crm/models.py:330-331), here 100.00 | not executed | `CrmViews.PipelineWeightOvercounts` | `CrmViews.StatsAgreeWithPipeline` |
| backend/apps/authentication/views.py:31-44 | registration always writes an audit record with the new user's organization, a required column, so a sign-up with no invitation and no organization name fails and the transaction undoes the account | matching passwords, no invitation token and no organization name | the account is created, and the audit record is written only when the account has an organization, as the login handler does | not executed | `AuthViews.RegistrationWithoutOrganizationCrashes` | `AuthViews.RegisterEffect` |
| backend/apps/authentication/serializers.py:92-98 | `create` pops `password_confirm`, `organization_name` and `invitation` but leaves `invitation_token` in the validated data, so `create_user(**validated_data)` hands the `User` constructor a keyword it does not have, raises `TypeError`, and the transaction undoes the sign-up | a registration with matching passwords whose token names a pending, unexpired invitation for the same email | the token is removed with the other write-only fields, and the account joins the invitation's organization and accepts it | not executed | `AuthViews.InvitedRegistrationCrashes` | `AuthSerializers.RegistrationPlacesUser` |
| backend/apps/crm/admin.py:202-212 | `format_html` escapes each argument into a string before formatting, and the `{:.1f}` of both styled templates refuses a string with `ValueError`, so the `roi_display` column of the campaign list (line 177) fails for every campaign whose ROI is not zero | a campaign with a cost of 100.00 and won opportunities worth 150.00 | a green "+50.0%" cell for a positive ROI and a red one for a negative ROI | not executed | `CrmAdmin.RoiDisplayFails` | `CrmAdmin.RoiDisplayColour` |
