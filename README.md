# Purchase-order draft of the Inventory dashboard, in Dafny

This project models the business rules of the Inventory dashboard's purchase
orders and proves properties about them:

- **The purchase slice** (`PurchaseReducer`, `src/store/reducers/purcharse.ts`).
  A `PurchaseStore` class holds the slice state: the draft lines
  `detailsPurchase`, the fetched orders `listPurchase`, the current `order`,
  the `isLoading` and `error` flags, and the paging fields. Every reducer is a
  method with field-level `modifies` frames. Every thunk is a method that
  dispatches those reducers in the source's order. HTTP replies are
  parameters (`HttpResult`). The pure parts are functions with lemmas: line
  selection, delete-by-ID, row decoration and the sort by ID.
- **The add-purchase page** (`AddPurchasePage`, `src/pages/apps/purchase/addPurchase.tsx`).
  It covers the summary memo, the payload merge on submit, and the
  empty-draft guard. The form state is an `AddPurchaseForm` class. It also
  covers the guards of the Discount and early-payment discount inputs.
- **The export transforms** (`SupplierTransform`, `ProductExportTransform`).
  These map each record to one spreadsheet row, with the same defaults and
  coercions as the source.
- **The reception list** (`ReceptionList`, `src/pages/apps/reception/reception-list.tsx`).
  It covers the status chip of the `Estado` column and the receipt's line
  subtotal. It also covers when the receipt prints the IVA line.

All four build on `JsValue`, a model of the JavaScript values these files
handle: `undefined`, `null`, booleans, numbers, strings, plain objects and
arrays. It also models the coercions the source relies on: `Number(x)`,
`parseFloat`, `String(x)` and template literals, `Boolean(x)`, `x || d`,
optional chaining, object spread, `===` against a number and `Array.join`.
Numbers are NaN, ±Infinity or exact decimals. Their arithmetic is proved to
agree with the real numbers (`AddIsExact`, `MultiplyIsExact`).

Some helpers are not shown in the source: `summary`, `Articles`,
`TransformsArticles`, `ArrayToString`, `SearchIDToArray` and the date
formatter. They are passed in as function parameters, so nothing is assumed
about their formulas.

Three behaviours need a note:

- As written, an empty list reply leaves `isLoading` set, because `getPurchaseList`
  dispatches nothing after `loading` in that case.
- The payload that the 404 branch of `getPurchaseList` hands to
  `getPurchaseSuccess` is a parameter of every thunk that refreshes the list.
  `NotFoundPayloadAsWritten` is the source's `[]`. `NotFoundPayload` is the
  corrected `{ Rows: [] }`, as explained under Findings.
- As written, the early-payment discount's `onChange` sets the `discountEarliyPay` state
  to its own value, so that state never changes. Nothing reads it.

## Model

| member | source | states |
|---|---|---|
| PurchaseReducer.PurchaseStore.constructor | src/store/reducers/purcharse.ts:20-30 | The initial state: no error, an empty draft, an empty list, an empty order, not loading, paging fields 0. |
| PurchaseReducer.PurchaseStore.Loading | src/store/reducers/purcharse.ts:39-41 | Sets `isLoading` and changes no other field. |
| PurchaseReducer.PurchaseStore.HasError | src/store/reducers/purcharse.ts:43-46 | Stores the payload as the error, clears `isLoading` and changes nothing else. |
| PurchaseReducer.PurchaseStore.GetPurchaseSuccess | src/store/reducers/purcharse.ts:48-56 | The list, page and totals come from the payload's `Rows`, `page`, `totalRows` and `totalPages`. The error and the loading flag are cleared. Draft and order are untouched. |
| PurchaseReducer.PurchaseStore.GetIDPurchaseSuccess | src/store/reducers/purcharse.ts:58-61 | The order becomes the payload and loading ends. Nothing else changes. |
| PurchaseReducer.PurchaseStore.AddPurchaseSuccess | src/store/reducers/purcharse.ts:63-66 | An array list grows by exactly the payload, at the end. A list that is not an array throws a TypeError and nothing changes. |
| PurchaseReducer.PurchaseStore.AddDetailsPurchaseSuccess | src/store/reducers/purcharse.ts:68-70 | The new draft is the old draft followed by the payload. No line is dropped or reordered. |
| PurchaseReducer.PurchaseStore.EditDetailsPurchaseSuccess | src/store/reducers/purcharse.ts:72-75 | The draft becomes the payload's `Articles` and the order becomes the payload. |
| PurchaseReducer.PurchaseStore.ResetDetailsPurchaseSuccess | src/store/reducers/purcharse.ts:77-79 | Empties the draft. The list, order and error are outside its frame. |
| PurchaseReducer.PurchaseStore.ResetOrderSuccess | src/store/reducers/purcharse.ts:81-83 | Empties the order and changes nothing else. |
| PurchaseReducer.SelectLines | src/store/reducers/purcharse.ts:260 | A line is kept if and only if its `isSelected` is `true`. |
| PurchaseReducer.SelectLinesKeepsOrder | src/store/reducers/purcharse.ts:260 | Selection distributes over concatenation, so selected lines keep their relative order. |
| PurchaseReducer.SelectLinesAllSelected | src/store/reducers/purcharse.ts:260 | The data passes through unchanged if and only if every line is selected. |
| PurchaseReducer.PurchaseStore.AddItemsPurchase | src/store/reducers/purcharse.ts:257-266 | Exactly the selected lines are appended to the draft. A nullish line throws, which dispatches `hasError` and leaves the draft unchanged. |
| PurchaseReducer.WithoutId | src/store/reducers/purcharse.ts:315 | A line remains if and only if its `ID` is not `===` the given ID. |
| PurchaseReducer.WithoutIdKeepsOrder | src/store/reducers/purcharse.ts:315 | Deleting distributes over concatenation, so the other lines stay in order. |
| PurchaseReducer.WithoutIdIdempotent | src/store/reducers/purcharse.ts:315 | Deleting the same ID twice equals deleting it once. |
| PurchaseReducer.WithoutIdUnchanged | src/store/reducers/purcharse.ts:315 | The draft is unchanged if and only if no line carries the ID. A NaN ID removes nothing. |
| PurchaseReducer.PurchaseStore.DeleteItemsPurchase | src/store/reducers/purcharse.ts:308-329 | The draft loses exactly the lines with that ID. The order gets the summary of the remaining lines, and its `Articles` equal the new draft. A nullish line ends in `hasError` with nothing removed. |
| PurchaseReducer.PurchaseStore.EditItemsPurchase | src/store/reducers/purcharse.ts:267-287 | The draft becomes the edited lines. The order is the old order, then the summary under `parseFloat(order.Discount)`, then `Articles`. |
| PurchaseReducer.PurchaseStore.UpdateSummaryPurchase | src/store/reducers/purcharse.ts:288-307 | The order gets the summary of its own articles under the new discount. Its `Discount` is that discount. |
| PurchaseReducer.PurchaseStore.ResetItemsPurchase | src/store/reducers/purcharse.ts:330-339 | Sets loading and empties the draft. |
| PurchaseReducer.PurchaseStore.ResetOrder | src/store/reducers/purcharse.ts:340-348 | Empties the order. |
| PurchaseReducer.ShapeRow | src/store/reducers/purcharse.ts:101-107 | A row has the order's own fields plus `NumberOrder` = "Farmu-" + ID, the supplier's business name, the warehouse name and the formatted creation date. Every other field reads as in the order. |
| PurchaseReducer.ShapeAll | src/store/reducers/purcharse.ts:100-107 | One decorated row per fetched order, at the same position. |
| PurchaseReducer.NumberOrderOfIntegerId | src/store/reducers/purcharse.ts:103 | A non-negative integer ID below 10^21 gives `NumberOrder` = "Farmu-" followed by the ID's decimal digits. |
| JsValue.IntegerToString | src/store/reducers/purcharse.ts:103 | A non-negative integer below 10^21 prints as its decimal digits. |
| PurchaseReducer.SortRows | src/store/reducers/purcharse.ts:108 | The sorted rows are a permutation of the input. |
| PurchaseReducer.SortRowsAscending | src/store/reducers/purcharse.ts:108 | When every key is finite, the sorted rows are in ascending key order. |
| PurchaseReducer.GoesAfterMeansLarger | src/store/reducers/purcharse.ts:108 | For finite IDs, the comparator `a.ID - b.ID` is positive exactly when a's ID is larger. |
| JsValue.SubtractPositive | src/store/reducers/purcharse.ts:108 | The decimal difference is positive exactly when the first real is larger. |
| PurchaseReducer.ShapeRows | src/store/reducers/purcharse.ts:100-108 | One row per fetched order, and the rows are a permutation of the decorated orders. |
| PurchaseReducer.ShapeRowsDecorated | src/store/reducers/purcharse.ts:100-108 | Every stored row is a decorated fetched order, and its `NumberOrder` is "Farmu-" + its own ID. |
| PurchaseReducer.ShapeRowKeepsId | src/store/reducers/purcharse.ts:101-103 | Decoration keeps the ID, and so keeps the sort key. |
| PurchaseReducer.ShapeRowsAscending | src/store/reducers/purcharse.ts:100-108 | Fetched orders with numeric IDs are stored in ascending ID order. |
| PurchaseReducer.ListFetch | src/store/reducers/purcharse.ts:97-125 | A non-empty array reply without null entries is exactly `Fetched` with its rows shaped and sorted. An empty array, or a reply that is not an object, fetches nothing. A non-array object, or an array with a null entry, throws a TypeError. An HTTP error fails with the error and whether its status is 404. `Fetched` happens only in the first case. |
| PurchaseReducer.IsNotFound | src/store/reducers/purcharse.ts:122 | The 404 test holds exactly when `error.response.status` is the number 404. A status given as the text "404" does not pass `===`. |
| PurchaseReducer.PurchaseStore.SettlePurchaseList | src/store/reducers/purcharse.ts:98-126 | The settled list fields are `Settled` of the old ones, where the 404 branch hands the given payload to `getPurchaseSuccess`. |
| PurchaseReducer.PurchaseStore.GetPurchaseList | src/store/reducers/purcharse.ts:91-128 | Loading, then `Settled` of the reply's outcome. An empty result keeps the old list, page and error, and leaves loading set. |
| PurchaseReducer.Settled | src/store/reducers/purcharse.ts:98-126 | Fetched rows replace the list. The page is the requested one, the totals become `undefined` (the reply carries none), loading ends and the error is cleared. An empty result changes nothing. A failure records the error and ends loading. A 404 takes list, page and totals from the 404 payload, and any other failure keeps them. An array list stays an array when the 404 payload's `Rows` is one. |
| PurchaseReducer.AfterPost | src/store/reducers/purcharse.ts:141-158 | The post ends loading and keeps the paging fields. A created order is pushed at the end of an array list. A list that is not an array, or a nullish reply read by the redirect, gives a TypeError. A failed post records its error and keeps the list. |
| PurchaseReducer.NotFoundAsWrittenLosesList | src/store/reducers/purcharse.ts:122-124 | After a 404 the `[]` payload, which has no `Rows`, leaves the list `undefined` whatever it was. The corrected payload leaves an empty list. |
| PurchaseReducer.NotFoundAsWrittenBreaksAdd | src/store/reducers/purcharse.ts:122-124 | From any store, `addPurchase` whose refresh answers 404 ends with a TypeError recorded and the list `undefined`. |
| PurchaseReducer.NotFoundThenAdd | src/store/reducers/purcharse.ts:122-124 | With the corrected 404 payload the same `addPurchase` leaves the created order as the only element of the list, and keeps the 404 error unless the reply is nullish. |
| PurchaseReducer.AddPurchasePayload | src/store/reducers/purcharse.ts:134-139 | A falsy `Discount` or `DiscountEarliyPay` is posted as 0 and a truthy one is kept. `Articles` are converted and every other field is kept. |
| PurchaseReducer.PurchaseStore.AddPurchase | src/store/reducers/purcharse.ts:129-159 | Posts the defaulted payload. The list fields are `AfterPost` of `Settled` of the refresh, for page 1 and the given 404 payload. |
| PurchaseReducer.CancelPayload | src/store/reducers/purcharse.ts:236 | Puts the stored order with `status` 2. The argument ID is used only when the order has none. |
| PurchaseReducer.FetchedOrder | src/store/reducers/purcharse.ts:172-181 | For a truthy reply, the stored order is the reply's own fields with `Articles` replaced by all transformed lines. For a falsy or failed reply it stays `{}`. |
| PurchaseReducer.PurchaseStore.GetIDPurchase | src/store/reducers/purcharse.ts:160-187 | Resets the order and draft. For a truthy reply, the draft becomes the selected transformed lines, and the order becomes the reply with all transformed lines as `Articles`. An HTTP error is recorded with an empty draft. |
| PurchaseReducer.FetchedDraft | src/store/reducers/purcharse.ts:167-175 | The draft left by a fetched order holds only selected lines. It is the selected transformed lines of a truthy reply, and empty otherwise. |
| PurchaseReducer.PurchaseStore.DeletePurchase | src/store/reducers/purcharse.ts:229-256 | Loads the order and draft as `getIDPurchase` does and puts the order back with `status` 2. After a successful put the error is cleared and the list fields are `Settled` of the refresh. After a failed put, only the error and the loading flag change. |
| PurchaseReducer.PurchaseStore.SettleCancel | src/store/reducers/purcharse.ts:236-253 | A successful put clears the error and leaves the list fields as `Settled` of the refresh. A failed put records its error, ends loading and changes nothing else. |
| JsValue.Filter | src/store/reducers/purcharse.ts:260 | `filter` keeps exactly the elements the predicate accepts and never grows the array. |
| JsValue.FilterConcat | src/store/reducers/purcharse.ts:315 | `filter` distributes over concatenation. |
| JsValue.FilterIdempotent | src/store/reducers/purcharse.ts:315 | Filtering twice is filtering once. |
| JsValue.FilterKeepsAll | src/store/reducers/purcharse.ts:260 | Filtering returns the input if and only if every element is accepted. |
| AddPurchasePage.AddPurchaseForm.constructor | src/pages/apps/purchase/addPurchase.tsx:33-70 | Opening the page sets the initial form values and empties the draft. |
| AddPurchasePage.SummaryMemo | src/pages/apps/purchase/addPurchase.tsx:83-86 | An empty draft gives `false`. Otherwise the result is the draft's summary under a discount that is never NaN. |
| AddPurchasePage.SummaryMemoDiscount | src/pages/apps/purchase/addPurchase.tsx:84 | An undefined or NaN discount state counts as 0, and a number counts as itself. |
| JsValue.NumberOrZeroIsNumber | src/pages/apps/purchase/addPurchase.tsx:84 | `Number(x) \|\| 0` is never NaN. It is 0 when `Number(x)` is NaN and `Number(x)` otherwise. |
| AddPurchasePage.AssemblePayload | src/pages/apps/purchase/addPurchase.tsx:95-102 | `Status` is 0 unless the summary has a `Status`. Summary fields override form values. `Articles` are the draft lines. `Discount` is the form's Discount and `DiscountEarliyPay` is its numeric coercion, whatever the summary holds. |
| AddPurchasePage.PostedHeader | src/pages/apps/purchase/addPurchase.tsx:95-103 | From form to server, the posted `Discount` is the form's Discount or 0. The posted early-payment discount is a number, never NaN. |
| AddPurchasePage.AddPurchaseForm.OnSubmit | src/pages/apps/purchase/addPurchase.tsx:91-111 | An empty draft dispatches nothing and leaves the store unchanged. Otherwise the assembled order is posted, and the store's list fields settle as `addPurchase` leaves them. Submission ends with `isSubmitting` false. |
| AddPurchasePage.AcceptedInput | src/pages/apps/purchase/addPurchase.tsx:218-219 | A typed text is accepted if and only if `Number(text) >= 0`, and the accepted value is that number. |
| AddPurchasePage.AcceptedInputNonNegative | src/pages/apps/purchase/addPurchase.tsx:217-223 | An accepted discount is a non-negative number. An empty input counts as 0. |
| AddPurchasePage.AddPurchaseForm.OnDiscountKeyDown | src/pages/apps/purchase/addPurchase.tsx:210-216 | Delete, or Backspace over "0", sets the Discount field to "". Any other key changes nothing. |
| AddPurchasePage.AddPurchaseForm.OnDiscountChange | src/pages/apps/purchase/addPurchase.tsx:217-223 | An accepted value sets both the discount state and the field. A negative or NaN value changes neither. |
| AddPurchasePage.AddPurchaseForm.OnDiscountEarliyPayKeyDown | src/pages/apps/purchase/addPurchase.tsx:264-270 | Delete, or Backspace over "0", sets the early-payment field to "". Any other key changes nothing. |
| AddPurchasePage.AddPurchaseForm.OnDiscountEarliyPayChange | src/pages/apps/purchase/addPurchase.tsx:271-277 | An accepted value sets the field, and a rejected one changes nothing. The `discountEarliyPay` state keeps its value. |
| SupplierTransform.ExportSupplier | src/utils/SupplierTransform.ts:3-15 | A falsy ID becomes 0. `Status` is a boolean. Both lead times are `Number(x)` without a default. `Discount` and `Cupo` are never NaN: their numeric value, or 0. Text fields are printed with `toString`, and stay undefined when missing. |
| SupplierTransform.Columns | src/utils/SupplierTransform.ts:3-15 | The object written for a row has exactly the 13 columns, and each column holds its own row field. The Barranquilla lead time is under `leadTimeBaq`, never `LeadTimeBaq`. |
| SupplierTransform.SupplierExport | src/utils/SupplierTransform.ts:1-16 | Nullish input gives `undefined`. An array gives one row per record, in order. Any other input throws a TypeError. |
| SupplierTransform.MissingValuesExported | src/utils/SupplierTransform.ts:10-14 | A missing lead time is exported as NaN, a missing discount or credit limit as 0. |
| SupplierTransform.SupplierExportConcat | src/utils/SupplierTransform.ts:1-2 | Exporting a concatenation concatenates the exports. |
| ProductExportTransform.SkuList | src/utils/ProductExportTransform.ts:18 | One SKU per substitute, in order. A nullish substitute throws. |
| ProductExportTransform.SubstitutesColumn | src/utils/ProductExportTransform.ts:7-19 | No substitutes gives "". An array gives its SKUs joined with commas. A truthy non-array throws a TypeError. |
| ProductExportTransform.SubstitutesRoundTrip | src/utils/ProductExportTransform.ts:17-19 | Splitting the Substitutes column on commas gives back the comma-free SKUs, in order. |
| ProductExportTransform.SplitJoinRoundTrip | src/utils/ProductExportTransform.ts:18 | Comma-joined comma-free texts split back into the same texts. |
| ProductExportTransform.ExportProduct | src/utils/ProductExportTransform.ts:5-55 | `Warehouse`, `Substance` and `Type_Product` default to "". The category columns are shifted by one level. `Tax` comes from `iva`, `IsTaxed` from `Taxed` and `PackInfo` from `Wrapper`. `Status` is a boolean. The 16 pass-through columns (`ID`, `Name`, `Sku`, `Width`, `Height` and the others) read the record's field of the same name. A product whose Substitutes throw throws a TypeError. |
| ProductExportTransform.ExportAll | src/utils/ProductExportTransform.ts:5 | One row per product, in order, when no product throws. Otherwise the export throws a TypeError. |
| ProductExportTransform.ProductExport | src/utils/ProductExportTransform.ts:4-56 | Nullish data gives `undefined`, and an array gives as many rows as products. Anything else throws. |
| ProductExportTransform.RowObject | src/utils/ProductExportTransform.ts:24-55 | The object written for a row has exactly the 30 columns. Each group of columns holds what that group's part writes. |
| ProductExportTransform.RowObjectColumns | src/utils/ProductExportTransform.ts:24-55 | Every column of the written object holds the row field of the same name, so the shifted categories, the Substitutes and the coerced values reach the written object unchanged. |
| ReceptionList.DisplayedStatus | src/pages/apps/reception/reception-list.tsx:341 | `orderStatus` when it is truthy, else `status`. |
| ReceptionList.RowChip | src/pages/apps/reception/reception-list.tsx:340-354 | A row's chip is the chip of its truthy `orderStatus`, and otherwise the chip of its `status`. |
| ReceptionList.OrderStatusWins | src/pages/apps/reception/reception-list.tsx:341 | When `orderStatus` is truthy, the row's `status` does not affect its chip. |
| ReceptionList.StatusChip | src/pages/apps/reception/reception-list.tsx:342-354 | Partial, Completed, Cancelled and Send map to warning, success, error and info. Every other value maps to New/warning, so the mapping is total. |
| ReceptionList.ChipLabelRoundTrip | src/pages/apps/reception/reception-list.tsx:342-354 | Classifying a chip's own caption gives back the same chip. |
| ReceptionList.ChipColorDetermined | src/pages/apps/reception/reception-list.tsx:342-354 | Two statuses with the same colour have the same chip, unless the colour is warning, which Partial and New share. |
| ReceptionList.Subtotal | src/pages/apps/reception/reception-list.tsx:256 | `qty * price` is NaN when a factor is NaN, and the exact product of two finite factors. |
| ReceptionList.LineSubtotal | src/pages/apps/reception/reception-list.tsx:256 | A line's subtotal is NaN when its quantity or price does not convert to a number, and the exact product of the two when both are finite. |
| ReceptionList.LineSubtotalText | src/pages/apps/reception/reception-list.tsx:256 | The printed subtotal is "NaN" for a NaN product, and the plain decimal digits for a non-negative integer product below 10^21. |
| JsValue.MultiplyNumbers | src/pages/apps/reception/reception-list.tsx:256 | Multiplication propagates NaN and agrees with real multiplication on finite numbers. |
| ReceptionList.MissingQuantityPrintsNaN | src/pages/apps/reception/reception-list.tsx:256 | A line without a quantity or a price prints "NaN" as its subtotal. |
| ReceptionList.IvaLineWithoutTax | src/pages/apps/reception/reception-list.tsx:261 | The IVA line is printed unless `tax` is exactly "", including when `tax` is missing or numeric 0. |
| ReceptionList.ShowsIva | src/pages/apps/reception/reception-list.tsx:261 | The IVA line is hidden exactly when `tax` is a text of length 0. |

## Left out

- HTTP requests, snackbar notifications and the `window.location` redirect are not modelled. Replies are parameters. The redirect is kept only for the TypeError it raises on a nullish reply.
- Asynchronous interleaving is not modelled. Each thunk runs as one sequence of dispatches. In `deletePurchase` the un-awaited list refresh settles after the thunk's last dispatch.
- `getIDPurchase` also dispatches `resetViewReception`, `getSupplierList` and `getWarehouseList`, which belong to other slices. They are not part of this model.
- The `editPurchase` thunk and the `detailsReption` state field are not part of the modelled core.
- `summary`, `Articles`, `TransformsArticles`, `ArrayToString`, `SearchIDToArray` and the date-fns formatter are function parameters, since their code is not part of this model. If one of them throws inside a thunk, that `hasError` path is not modelled.
- Numbers are exact decimals, not binary doubles. Rounding, `-0`, overflow to Infinity, and printing of values a double cannot hold exactly are not modelled. BigInt operands of `*` and `-` are not modelled either.
- Spreading an array or a string, inherited properties such as a custom `toString`, and property order are not modelled. Property reads see own properties of plain objects only.
- Yup validation is not modelled. `OnSubmit` is modelled for any form values, while the page calls it only after validation passes.
- React state timing is not modelled. The memoised summary is computed from the draft and discount at submit time. The DOM write `target.value = ''` is represented only by the form field it mirrors.
- React, MUI and PDF rendering, table paging and sorting, and navigation are not modelled.
- PurchaseReducer.SortRows: engines may order rows whose IDs are not numbers, or compare as NaN, in any order. The model uses one stable insertion sort, and ascending order is proved only for finite numeric IDs. Stability, meaning that rows with equal IDs keep their reply order, is not stated.
- PurchaseReducer.PurchaseStore.EditItemsPurchase: the new lines are a sequence. An argument that is not an array, which would make the draft a non-array, is not modelled.
- PurchaseReducer.PurchaseStore.AddItemsPurchase: the data is a sequence. A non-array argument, whose `filter` would throw, is not modelled.
- PurchaseReducer.PurchaseStore.EditDetailsPurchaseSuccess: requires the payload's `Articles` to be an array, as every thunk that dispatches it passes.
- PurchaseReducer.NumberOrderOfIntegerId: stated for non-negative integer IDs below 10^21. A negative ID prints with a minus sign, and larger IDs print in exponent form.
- The `addProduct` page posts `Healt` from the `Depth` field (src/pages/apps/product/addProduct.tsx:189). That page is not part of this model.

## Findings

| source | as written | input that shows it | evidently intended | confidence | as-written member | corrected member |
|---|---|---|---|---|---|---|
| src/store/reducers/purcharse.ts:122-124 | On a 404 the thunk dispatches `getPurchaseSuccess([])`. The reducer destructures `Rows` from an empty array, so `listPurchase` becomes `undefined`, and the next `addPurchaseSuccess` fails on `push`. | `addPurchase` whose own list refresh `GET /purchase` is rejected with `error.response.status === 404`, followed by a successful post | An empty list, `{ Rows: [] }` | high for the stored `undefined`, not executed | PurchaseReducer.NotFoundAsWrittenBreaksAdd | PurchaseReducer.NotFoundThenAdd |
