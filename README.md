# Van rental bookkeeping UI — a Dafny model

This project models the logic of a single-page app used to book van rental work. The app records deliveries (trips), fuel purchases, vehicle maintenance and cash advances paid to drivers. It shows them in tables that can be filtered by date, searched by driver name, sorted and exported. It also computes driver salaries and vendor payments from the deliveries.

The model has five parts:

- **Shared vocabulary.** `Common`, `JsValues` and `Records` hold the optional and settled values, the `filter`/`map`/`reduce` operations, and the JavaScript comparison and lower-casing rules that matter here. They also hold the record shapes the components exchange.
- **Filter and sort.** `Filters` holds the date-range test that every table repeats, with its boundary behaviour, and the case-insensitive driver search. `Sorting` holds the column-header toggle.
- **Services.** `FuelService`, `MaintenanceService` and `AdvanceService` each have:
  - the request-body builder and the response mapper;
  - the fetch mapper;
  - the failure policy, which replaces or forwards the message a caller sees.

  A `fetch` exchange is a parameter. It is a `Response` that is `ok` with a body, not `ok` with a text, or a thrown value.
- **Tables.**
  - `FuelTable` keeps its data and UI state in a class. Its load, delete and sort handlers are methods, and its filtered, sorted view, total and export are functions of that state.
  - `DriverPaymentTable`, `VendorPaymentTable`, `DriverSalaryTable`, `VendorRentTable`, `AdvanceTable` and `MaintenanceTable` are functions of their props. For each one the model proves its filtered view, footer totals and export rows.
- **Forms and the shell.**
  - `DeliveryForm`, `FuelForm`, `MaintenanceForm`, `AdvanceForm` and `LoginPage` are classes. Each has the component's state as fields, and its change and submit handlers as methods.
  - An awaited call's result is a parameter of the handler. Each handler returns the sequence of effects it issues: service requests and parent callbacks.
  - `App` holds the view state: authentication, the open tab, form or list mode, and the selected maintenance record. `SelectView` gives what is rendered for each state.

Money and numeric inputs are exact reals. `parseFloat(v) || 0` takes the parse result as an `Option` (`None` for NaN). `new Date(s)` is an oracle `parse: string -> Option<TimeValue>`, where a time value is an integer in the ECMAScript range of ±8.64e15 ms and `None` is an invalid date.

Two behaviours of the code are worth stating up front, because a reader might expect otherwise:

- A spreadsheet export has only the data rows, with no totals row.
- An empty start date means `new Date(0)`, the epoch, not "no lower bound". Records dated before 1970 are therefore excluded once either bound is set.

## Model

| member | source | states |
|---|---|---|
| Common.Filter | src/components/Fuel/FuelTable.tsx:74-80 | `filter` keeps exactly the elements that satisfy the predicate, each at most as often as in the input |
| Common.Map | src/services/fuelService.ts:95-101 | `map` yields one image per element, at the same position |
| Common.SumAppend | src/components/Fuel/FuelTable.tsx:88 | a `reduce`-to-sum over a concatenation is the sum of the two parts |
| Common.SumPermutation | src/components/Fuel/FuelTable.tsx:82-88 | a sum does not depend on the order of the elements |
| Common.FilterAppend | src/components/Fuel/FuelTable.tsx:74-80 | filtering a concatenation filters each part |
| Common.FilterIsSubsequence | src/components/Fuel/FuelTable.tsx:74-80 | a filter keeps the input order |
| Common.SubsequenceTransitive | src/components/Advance/AdvanceTable.tsx:36-46 | two order-preserving filters in a row preserve order |
| Common.FilterAll | src/components/Fuel/FuelTable.tsx:75 | a filter whose predicate every element satisfies is the identity |
| Common.FilterFilter | src/components/DriverPayment/DriverPaymentTable.tsx:39-49 | filtering twice equals filtering once by the conjunction |
| Common.SumMap | src/components/Fuel/FuelTable.tsx:88-96 | summing a column of mapped rows equals summing the composed figure |
| Common.SumCongruent | src/components/VendorPayment/VendorPaymentTable.tsx:42-44 | lists whose figures agree position by position have equal sums |
| Common.SumAdd | src/components/DataDisplay/DriverSalaryTable.tsx:28-31 | the sum of a figure that is a sum of two figures is the sum of their sums |
| Common.SumSub | src/components/DataDisplay/DriverSalaryTable.tsx:28-31 | the same for a difference of two figures |
| JsValues.StringLessIrreflexive | src/components/Fuel/FuelTable.tsx:85 | string `>` (here by code point) is irreflexive |
| JsValues.StringLessAsymmetric | src/components/Fuel/FuelTable.tsx:85 | string `>` is asymmetric |
| JsValues.StringLessTransitive | src/components/Fuel/FuelTable.tsx:85 | string `>` is transitive |
| JsValues.StringLessTotal | src/components/Fuel/FuelTable.tsx:85 | any two distinct strings are ordered one way or the other |
| JsValues.GreaterAsymmetric | src/components/Fuel/FuelTable.tsx:85 | `a[field] > b[field]` and `b[field] > a[field]` never both hold, `undefined` included |
| JsValues.NotGreaterTransitive | src/components/Fuel/FuelTable.tsx:85 | on values of one kind, "not greater than" is transitive |
| JsValues.Lower | src/components/DriverPayment/DriverPaymentTable.tsx:48 | `toLowerCase` keeps the length and lowers each character |
| JsValues.IncludesIffOccurs | src/components/DriverPayment/DriverPaymentTable.tsx:48 | `includes` holds iff the term occurs at some index, and the empty term always occurs |
| Filters.FilterByDate | src/components/Fuel/FuelTable.tsx:74-80 | the date filter is an order-preserving subsequence containing exactly the in-range records |
| Filters.NoBoundsKeepsAll | src/components/Fuel/FuelTable.tsx:75 | with both bounds empty every record is kept, whatever its date |
| Filters.InvalidDatesExcluded | src/components/Fuel/FuelTable.tsx:76-79 | once a bound is set, a record with an unparseable date is excluded, and so is every record when a set bound does not parse |
| Filters.BothBoundsInclusive | src/components/Fuel/FuelTable.tsx:79 | with two valid bounds, a valid date is kept iff it lies between them, both ends included |
| Filters.MissingEndIsUnbounded | src/components/Fuel/FuelTable.tsx:78-79 | an empty end bound is the largest time value, so it excludes no valid date |
| Filters.MissingStartIsEpoch | src/components/Fuel/FuelTable.tsx:77 | an empty start bound is the epoch, so only dates from 1970 on pass |
| Filters.DriverMatchesIffOccurs | src/components/Advance/AdvanceTable.tsx:44-46 | the search matches iff the lowered term occurs in the lowered name; the empty term matches every name |
| Filters.DriverMatchesIgnoresCase | src/components/Advance/AdvanceTable.tsx:45 | lowering the name or the term first changes nothing |
| Filters.LowerIdempotent | src/components/Advance/AdvanceTable.tsx:45 | lowering twice is lowering once |
| Filters.SearchByDriver | src/components/Advance/AdvanceTable.tsx:44-46 | the search is an order-preserving subsequence containing exactly the matching records |
| Filters.EmptySearchKeepsAll | src/components/Advance/AdvanceTable.tsx:44-46 | an empty search keeps the list unchanged |
| Filters.SearchAfterDateFilter | src/components/DriverPayment/DriverPaymentTable.tsx:39-49 | searching the date-filtered list equals one filter by both conditions |
| Filters.FilterByDateAppend | src/components/Fuel/FuelTable.tsx:74-80 | the date filter distributes over concatenation |
| Filters.SearchByDriverAppend | src/components/Advance/AdvanceTable.tsx:44-46 | the search distributes over concatenation |
| Sorting.HandleSort | src/utils/sorting.ts:1-15 | a click sorts by the clicked field; only a second click on an ascending field gives descending |
| Sorting.ToggleTwiceRestores | src/utils/sorting.ts:8-14 | two clicks on the sorted field restore its configuration |
| Sorting.ToggleAlternates | src/utils/sorting.ts:8-14 | after the first click, further clicks alternate the direction |
| FuelService.ToRequestBody | src/services/fuelService.ts:10-16 | the body carries `amount` = cost, date and description, van `VAN001`, and a never-empty driver name |
| FuelService.ToRecords | src/services/fuelService.ts:94-101 | the fetch mapper maps the items one for one, in order |
| FuelService.Settle | src/services/fuelService.ts:19-34 | success iff the response is `ok`; any failure becomes the fixed message |
| FuelService.CreateRoundTrip | src/services/fuelService.ts:10-30 | a create that the server echoes gives back cost, date and description, and a non-empty driver name unchanged |
| FuelService.PaidByDriverNotSent | src/services/fuelService.ts:10-16 | `paidByDriver` is not sent, and an absent driver name is sent like an empty one |
| FuelService.FailuresAreFixed | src/services/fuelService.ts:31-34 | each operation fails iff its exchange does, with its own fixed message; a fetch keeps the length |
| MaintenanceService.ToRequestBody | src/services/maintenanceService.ts:12-18 | the body carries `amount` = cost and copies van, description, date and driver |
| MaintenanceService.ToRecords | src/services/maintenanceService.ts:102-110 | the fetch mapper maps the items one for one, in order |
| MaintenanceService.Settle | src/services/maintenanceService.ts:21-38 | a non-`ok` response fails with its text, or the fallback if the text is empty; a thrown `Error` is passed on; any other thrown value becomes the fallback |
| MaintenanceService.RequestThenRecordRoundTrip | src/services/maintenanceService.ts:12-34 | an echoed request maps back to the same cost, date, description, van and driver |
| MaintenanceService.PaidByDriverNotSent | src/services/maintenanceService.ts:48-54 | `paidByDriver` never reaches the server |
| AdvanceService.ToRequestBody | src/services/advanceService.ts:10-15 | the body copies driver, date and amount, with van `12345` |
| AdvanceService.ToRecords | src/services/advanceService.ts:90-96 | the fetch mapper maps the items one for one, in order |
| AdvanceService.Settle | src/services/advanceService.ts:18-32 | success iff the response is `ok`; any failure becomes the fixed message |
| AdvanceService.RequestThenRecordRoundTrip | src/services/advanceService.ts:10-28 | an echoed create returns the advance it was given, under the server's id |
| AdvanceService.FailuresAreFixed | src/services/advanceService.ts:61-100 | update, delete and fetch fail with their own fixed message; a fetch keeps the length |
| FuelTable.Key | src/components/Fuel/FuelTable.tsx:85 | `record[field]` is `undefined` exactly for an absent optional field |
| FuelTable.Insert | src/components/Fuel/FuelTable.tsx:82-86 | inserting adds exactly one element |
| FuelTable.SortRecords | src/components/Fuel/FuelTable.tsx:82-86 | sorting with the table's comparator is a permutation for every field |
| FuelTable.KeysSameKind | src/components/Fuel/FuelTable.tsx:85 | defined keys of one field share a kind |
| FuelTable.InOrderTransitive | src/components/Fuel/FuelTable.tsx:84-85 | the order the comparator induces is transitive on keys of one kind |
| FuelTable.ComparatorAgrees | src/components/Fuel/FuelTable.tsx:84-85 | a negative comparator means "in order", any other answer the reverse |
| FuelTable.InsertOrdered | src/components/Fuel/FuelTable.tsx:82-86 | inserting into an ordered list with defined keys keeps it ordered |
| FuelTable.SortRecordsOrdered | src/components/Fuel/FuelTable.tsx:82-86 | when no key is `undefined`, the result is ordered by the chosen field and direction, and a permutation |
| FuelTable.RequiredFieldsAlwaysOrder | src/components/Fuel/FuelTable.tsx:82-86 | sorting by a required field always yields its order |
| FuelTable.TotalCostIgnoresSort | src/components/Fuel/FuelTable.tsx:82-88 | the total over the sorted rows equals the total over the filtered rows |
| FuelTable.ExportRows | src/components/Fuel/FuelTable.tsx:91-96 | one export row per shown record, in the shown order |
| FuelTable.ExportCostsSumToTotal | src/components/Fuel/FuelTable.tsx:88-96 | the exported Cost column sums to the displayed total |
| FuelTable.Table.constructor | src/components/Fuel/FuelTable.tsx:16-24 | empty data, loading, no error, sorted by date descending, empty bounds |
| FuelTable.Table.LoadFuelRecords | src/components/Fuel/FuelTable.tsx:30-41 | success replaces the data and clears the error; failure keeps the data and shows the service's message; loading ends |
| FuelTable.Table.HandleDelete | src/components/Fuel/FuelTable.tsx:43-58 | unconfirmed: nothing happens; delete fails: its message is shown; delete succeeds: reload, then the parent's refresh; loading ends |
| FuelTable.Table.HandleSort | src/components/Fuel/FuelTable.tsx:60-65 | the configuration becomes the toggle's result; nothing else changes |
| FuelTable.Table.SetStartDate | src/components/Fuel/FuelTable.tsx:123 | sets the start bound only |
| FuelTable.Table.SetEndDate | src/components/Fuel/FuelTable.tsx:124 | sets the end bound only |
| FuelTable.FirstLoadShowsAllByDate | src/components/Fuel/FuelTable.tsx:19-86 | unfiltered, the initial view shows every record, ordered by date descending |
| DriverPaymentTable.FilteredData | src/components/DriverPayment/DriverPaymentTable.tsx:39-49 | an order-preserving subsequence of exactly the records in range whose driver matches |
| DriverPaymentTable.ExportRows | src/components/DriverPayment/DriverPaymentTable.tsx:66-73 | one six-column row per shown record, in order |
| DriverPaymentTable.ExportRentSumsToSalary | src/components/DriverPayment/DriverPaymentTable.tsx:51-73 | the exported Driver Rent column sums to the total salary |
| DriverPaymentTable.TotalsAdditive | src/components/DriverPayment/DriverPaymentTable.tsx:39-62 | filtering, the salary total, the advance total and the net salary distribute over concatenated deliveries and advances |
| DriverPaymentTable.NoFiltersShowAll | src/components/DriverPayment/DriverPaymentTable.tsx:40-49 | with no bounds and no search every record is shown |
| DriverPaymentTable.NetSalaryCanBeNegative | src/components/DriverPayment/DriverPaymentTable.tsx:51-63 | the advance total ignores the search and is subtracted, so net salary can go below zero |
| VendorPaymentTable.FilteredData | src/components/VendorPayment/VendorPaymentTable.tsx:34-40 | an order-preserving subsequence of exactly the records in range |
| VendorPaymentTable.TotalsAdditive | src/components/VendorPayment/VendorPaymentTable.tsx:34-44 | the three footer sums and the net payment distribute over concatenated data |
| VendorPaymentTable.TotalsAppend | src/components/VendorPayment/VendorPaymentTable.tsx:42-44 | each of the three footer sums over two lists together is the sum of the parts |
| VendorPaymentTable.RentIsReadNotRecomputed | src/components/VendorPayment/VendorPaymentTable.tsx:42-44 | the totals depend only on stored rent, misc spends and advance |
| VendorPaymentTable.ExportRows | src/components/VendorPayment/VendorPaymentTable.tsx:47-56 | one eight-column row per shown record, in order |
| VendorPaymentTable.ExportColumnsSumToTotals | src/components/VendorPayment/VendorPaymentTable.tsx:42-56 | the exported Rent, Misc Spends and Advance columns sum to the footer totals |
| DriverSalaryTable.RowTotal | src/components/DataDisplay/DriverSalaryTable.tsx:71 | row total = driver rent + misc spends − advance, an absent advance counting as 0 |
| DriverSalaryTable.GrandTotalIsSumOfRows | src/components/DataDisplay/DriverSalaryTable.tsx:28-71 | the grand total is the sum of the row totals; empty data gives zero totals |
| DriverSalaryTable.Rows | src/components/DataDisplay/DriverSalaryTable.tsx:70-95 | one rendered row per record, in order |
| DriverSalaryTable.RowsSumToFooter | src/components/DataDisplay/DriverSalaryTable.tsx:28-94 | the displayed Total and Advance columns sum to the footer |
| DriverSalaryTable.AbsentAdvanceIsZero | src/components/DataDisplay/DriverSalaryTable.tsx:30 | an absent advance and an advance of 0 give the same totals |
| VendorRentTable.GrandTotalIsSumOfRows | src/components/DataDisplay/VendorRentTable.tsx:20-60 | grand total = Σ bags × rent per bag + Σ misc spends = Σ row totals; the advance is not subtracted |
| VendorRentTable.IgnoresStoredTotalAndAdvance | src/components/DataDisplay/VendorRentTable.tsx:20-22 | the totals do not depend on the stored `totalRent` or the advance |
| VendorRentTable.ExampleTotalRent | src/components/DataDisplay/VendorRentTable.tsx:20 | 10 × 500 + 20 × 450 = 14000, whatever the stored totals say |
| VendorRentTable.Rows | src/components/DataDisplay/VendorRentTable.tsx:58-84 | one rendered row per record, in order |
| VendorRentTable.RowsSumToFooter | src/components/DataDisplay/VendorRentTable.tsx:20-83 | the displayed Total Rent and Grand Total columns sum to the footer |
| AdvanceTable.FilteredData | src/components/Advance/AdvanceTable.tsx:36-46 | an order-preserving subsequence of exactly the records in range whose driver matches |
| AdvanceTable.EmptySearchShowsDateRange | src/components/Advance/AdvanceTable.tsx:36-48 | an empty search shows the date-filtered list; unfiltered, the total covers every record |
| AdvanceTable.TotalAdditive | src/components/Advance/AdvanceTable.tsx:36-48 | the total amount distributes over concatenated data |
| AdvanceTable.ExportRows | src/components/Advance/AdvanceTable.tsx:51-55 | one Date / Driver Name / Amount row per shown record, in order |
| AdvanceTable.ExportAmountsSumToTotal | src/components/Advance/AdvanceTable.tsx:48-55 | the exported Amount column sums to the total |
| MaintenanceTable.FilteredData | src/components/Maintenance/MaintenanceTable.tsx:34-40 | an order-preserving subsequence of exactly the records in range |
| MaintenanceTable.TotalCostProperties | src/components/Maintenance/MaintenanceTable.tsx:34-42 | with no bounds the total covers every record; the total distributes over concatenated data |
| MaintenanceTable.ExportRows | src/components/Maintenance/MaintenanceTable.tsx:45-49 | one Date / Description / Cost row per shown record, in order |
| MaintenanceTable.ExportCostsSumToTotal | src/components/Maintenance/MaintenanceTable.tsx:42-49 | the exported Cost column sums to the total |
| DeliveryForm.Ceil | src/components/DeliveryForm/DeliveryForm.tsx:43 | `Math.ceil` is the least integer not below its argument |
| DeliveryForm.CalculateBags | src/components/DeliveryForm/DeliveryForm.tsx:42-44 | the bag count is the least number of 78-unit bags that holds the wayment |
| DeliveryForm.CalculateBagsExamples | src/components/DeliveryForm/DeliveryForm.tsx:42-44 | 0 → 0 bags, 780 → 10, 781 → 11 |
| DeliveryForm.CalculateBagsExact | src/components/DeliveryForm/DeliveryForm.tsx:42-44 | any count meeting that bound is the one computed |
| DeliveryForm.TextChangeTouchesOneField | src/components/DeliveryForm/DeliveryForm.tsx:60-62 | a text change sets its field to the raw value and changes nothing else |
| DeliveryForm.NumberChangeTouchesOneField | src/components/DeliveryForm/DeliveryForm.tsx:51-59 | a number change stores the parse or 0; a wayment change also recomputes the bag count; nothing else changes |
| DeliveryForm.CollectKeys | src/components/DeliveryForm/DeliveryForm.tsx:69-87 | the error map has a key iff an earlier entry had it or a check on it fails |
| DeliveryForm.CollectKeeps | src/components/DeliveryForm/DeliveryForm.tsx:69-87 | checks on other keys leave an entry alone |
| DeliveryForm.CollectMessage | src/components/DeliveryForm/DeliveryForm.tsx:69-87 | a failing check records its message |
| DeliveryForm.FailsAt | src/components/DeliveryForm/DeliveryForm.tsx:72-84 | a key checked once fails iff that check fails |
| DeliveryForm.ValidateKeys | src/components/DeliveryForm/DeliveryForm.tsx:72-84 | each of the eight fields has an error iff its rule is broken, with that rule's message |
| DeliveryForm.ValidateExact | src/components/DeliveryForm/DeliveryForm.tsx:86-87 | the form is valid iff the error map is empty iff every rule holds; no other keys appear |
| DeliveryForm.ValidateIgnoresUncheckedFields | src/components/DeliveryForm/DeliveryForm.tsx:72-84 | advance, image and bag count never affect validation |
| DeliveryForm.InitialFormIsRejected | src/components/DeliveryForm/DeliveryForm.tsx:21-84 | the initial form fails on from, wayment, rent per bag and driver rent, but not on misc spends |
| DeliveryForm.ToPayload | src/components/DeliveryForm/DeliveryForm.tsx:99-111 | the trip payload renames from, to and delivery date to `fromLocation`, `toLocation` and `dateOfDelivery`, copies the figures, driver and advance, and always names van `default` |
| DeliveryForm.PayloadRoundTrip | src/components/DeliveryForm/DeliveryForm.tsx:99-111 | the payload carries every form field but the image, and back |
| DeliveryForm.Form.constructor | src/components/DeliveryForm/DeliveryForm.tsx:36-40 | the initial form, no errors, not loading, no message |
| DeliveryForm.Form.HandleChange | src/components/DeliveryForm/DeliveryForm.tsx:46-63 | applies the change and clears the submit message and success flag |
| DeliveryForm.Form.HandleImageUpload | src/components/DeliveryForm/DeliveryForm.tsx:65-67 | sets the image only |
| DeliveryForm.Form.ValidateForm | src/components/DeliveryForm/DeliveryForm.tsx:69-88 | stores the error map and answers whether the form is acceptable |
| DeliveryForm.Form.HandleSubmit | src/components/DeliveryForm/DeliveryForm.tsx:90-132 | an invalid form sends nothing; a valid one creates the trip, uploads a chosen image only under a non-zero saved id, then notifies and resets, or shows the thrown message and keeps the form; loading ends |
| FuelForm.InitialData | src/components/Fuel/FuelForm.tsx:15-23 | the record being edited, or empty fields, cost 0 and not paid by the driver |
| FuelForm.ChangeTouchesOneField | src/components/Fuel/FuelForm.tsx:46-52 | a checkbox stores `checked`, the cost its parse or 0, the date and description their raw value, the driver name its raw value as present; nothing else changes |
| FuelForm.Route | src/components/Fuel/FuelForm.tsx:33-37 | a submit calls update, on the edited record's id, exactly when in edit mode with a record, and create otherwise, always with the form as it is |
| FuelForm.RouteIsUpdateIffEditing | src/components/Fuel/FuelForm.tsx:33-37 | update, on the edited record's id, exactly when in edit mode with a record; the form is sent as it is |
| FuelForm.Form.constructor | src/components/Fuel/FuelForm.tsx:14-25 | starts from the initial data, not loading, no error |
| FuelForm.Form.HandleChange | src/components/Fuel/FuelForm.tsx:46-52 | applies the change only |
| FuelForm.Form.HandleSubmit | src/components/Fuel/FuelForm.tsx:27-44 | makes the routed call; on success notifies the parent and leaves no error; on failure shows the service's message; loading ends; the form is kept |
| MaintenanceForm.ChangeTouchesOneField | src/components/Maintenance/MaintenanceForm.tsx:26-32 | a change sets its field to the raw text or the parse or 0, and no other |
| MaintenanceForm.SubmissionKeepsEntry | src/components/Maintenance/MaintenanceForm.tsx:19-22 | the submitted object is the entry plus the given id, and back |
| MaintenanceForm.Form.constructor | src/components/Maintenance/MaintenanceForm.tsx:11-15 | empty date and description, cost 0 |
| MaintenanceForm.Form.HandleChange | src/components/Maintenance/MaintenanceForm.tsx:26-32 | applies the change |
| MaintenanceForm.Form.HandleSubmit | src/components/Maintenance/MaintenanceForm.tsx:17-24 | hands over the entry with the id and resets the form |
| AdvanceForm.ChangeTouchesOneField | src/components/Advance/AdvanceForm.tsx:26-32 | a change sets its field to the raw text or the parse or 0, and no other |
| AdvanceForm.SubmissionKeepsData | src/components/Advance/AdvanceForm.tsx:19-22 | the submitted record is the form plus the given id, and back |
| AdvanceForm.Form.constructor | src/components/Advance/AdvanceForm.tsx:11-15 | empty date and driver, amount 0 |
| AdvanceForm.Form.HandleChange | src/components/Advance/AdvanceForm.tsx:26-32 | applies the change |
| AdvanceForm.Form.HandleSubmit | src/components/Advance/AdvanceForm.tsx:17-24 | hands over the advance with the id and resets the form |
| LoginPage.ChangeTouchesOneField | src/components/LoginPage.tsx:38-43 | a change sets the named credential and keeps the other |
| LoginPage.ErrorIffNotLoggedIn | src/components/LoginPage.tsx:26-32 | the error is empty iff authentication returned true, and the three outcomes have distinct messages |
| LoginPage.Page.constructor | src/components/LoginPage.tsx:11-16 | empty credentials, no error, not loading |
| LoginPage.Page.HandleChange | src/components/LoginPage.tsx:38-43 | updates the credentials only |
| LoginPage.Page.HandleSubmit | src/components/LoginPage.tsx:18-36 | sends the current credentials; logs in iff the answer is true; shows the matching message otherwise; loading ends |
| App.LabelsDistinct | src/App.tsx:19-26 | no two tabs share a label, so the title names the open tab |
| App.ViewProperties | src/App.tsx:60-203 | logged out shows only the login page; the content belongs to the open tab; a form shows iff in form mode on a tab with a form, so the payment tabs show their table even in form mode; the maintenance form edits iff a record is selected |
| App.App.constructor | src/App.tsx:29-35 | logged out, delivery tab, list mode, no selection, empty dates, sorted by delivery date descending |
| App.App.HandleLogin | src/App.tsx:37-39 | sets the flag; nothing else changes |
| App.App.HandleLogout | src/App.tsx:41-43 | clears the flag, so the login page shows; nothing else changes |
| App.App.SelectTab | src/App.tsx:98-101 | opens the tab in list mode and keeps the maintenance selection |
| App.App.AddNew | src/App.tsx:72-79 | enters form mode only |
| App.App.BackToList | src/App.tsx:81-85 | leaves form mode and clears the selection |
| App.App.HandleMaintenanceEdit | src/App.tsx:45-48 | selects the record and enters form mode, so the maintenance form opens on it in edit mode |
| App.App.HandleMaintenanceSubmit | src/App.tsx:50-53 | leaves form mode and clears the selection |
| App.App.HandleMaintenanceRefresh | src/App.tsx:144 | clears the selection only |
| App.App.HandleFormSubmit | src/App.tsx:55-167 | the delivery, fuel and advance submits leave form mode only |
| App.App.SetStartDate | src/App.tsx:126 | sets the shared start bound only |
| App.App.SetEndDate | src/App.tsx:127 | sets the shared end bound only |

## Left out

- Network I/O. Every `fetch`, HTTP status, JSON decoding and header is outside the model; each exchange is a `Response` parameter. `src/services/tripService.ts` (trip creation and multipart image upload) and `src/services/auth.ts` are not part of this model. The delivery form and login page take their settled results as parameters.
- `src/utils/formatters.ts` is not part of this model. Date and currency formatting are locale libraries. Displayed figures are modelled before formatting.
- `exportToExcel` is not part of this model. The file name and today's date in it are not modelled; the rows handed to it are.
- JavaScript floating point. Amounts are exact reals, so rounding in sums is not modelled. NaN and Infinity from `parseFloat` are modelled only through the `|| 0` fallback.
- JsValues.StringLess: compares strings by Unicode code point, where JavaScript compares UTF-16 code units. The two orders disagree only when a character above U+FFFF (stored as a surrogate pair starting at 0xD800..0xDBFF) meets a character in U+E000..U+FFFF at the first difference, so a text-field sort in `FuelTable` can order such a pair the other way round.
- JsValues.Lower: lower-cases ASCII letters only, because the full Unicode case mapping of `toLowerCase` is a table the model does not reproduce.
- FuelTable.SortRecords: models the engine's `sort` as an insertion sort with the table's comparator. With `undefined` keys the comparator is not a consistent order, so the model proves only a permutation and states no order for that case. The order of equal keys is also not promised.
- `window.confirm` is the `confirmed` parameter of `HandleDelete`, and `Date.now()` is the `now` parameter of the maintenance and advance submits.
- Rendering: JSX, icons, `getSortIcon`, CSS, the loading spinner, and the timing of `useEffect`. The fuel table's load on mount is a call to `LoadFuelRecords`.
- `DataDisplay`, `ImageUpload`, `FormInput`, `DateRangeFilter`, the layout components and `DeleteConfirmation` have no logic beyond passing props. The two date inputs of `DateRangeFilter` are the `SetStartDate` / `SetEndDate` methods.
- Prop wiring between `App` and the components is left out. Each table's data and bounds are parameters. `App` passes `MaintenanceForm` an `initialData` and `isEdit` that the form does not declare and ignores. `App` also renders `MaintenanceTable` and `VendorPaymentTable` without the `data` they declare. Only the values `App` decides (`isEdit` = a record is selected) are modelled.
- The object `MaintenanceForm` submits has only id, date, description and cost, although its declared type also names van, driver and `paidByDriver`. The model's `Submission` type has exactly the fields the code sends.
- The sort toggle is modelled as the configuration it produces. That `setConfig` is called exactly once per click holds by the form of the code and is not stated.
- The tables other than the fuel table show rows in input order. Their sort configuration only chooses a header icon, and the callbacks `App` passes are no-ops, so no sort is modelled for them.
- `console.log` and `console.error` calls.
