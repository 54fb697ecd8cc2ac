# Sales arithmetic and record transformations of a sales-management web app

This project models, in Dafny, the part of a small sales and invoicing web
application (React front end over a hosted SQL database) that computes figures and
reshapes records:

- the invoice of a sale: TVA at 18% rounded to the unit, net to pay, the cells of
  the printed and exported tables, the PDF file name (`Invoice`);
- the multi-product invoice form: selection of products, per-product quantity and
  price, the running total, validity, and what a submission inserts
  (`InvoiceGenerator`, a class whose fields are the form's state);
- the single-product sale form, in the same style (`SalesForm`);
- the payment-status chart: counts and amounts per status, pie slices, summary
  (`PaymentStatus`);
- the sales-over-time chart: grouping by a date key, sorting, keeping the last
  seven buckets (`DailySales`);
- the paid total of the sales overview and the status label of a sale card
  (`Inventory`);
- notification read-marking, the unread badge, the greeting and the theme toggle
  of the header (`Header`);
- the one-off migration that fills in missing product names in stored sales
  (`Migration`);
- the decoration of the invoice list and its badges (`InvoicesPage`);
- the initial values and the change handler of the product form (`ProductForm`).

JavaScript values are modelled in `Js`: `undefined`, `null`, booleans, numbers and
strings, with truthiness, `||`, `===`, `Number(...)`, `String(...)`, `trim`,
`parseFloat` and `+`. Numbers are whole numbers or NaN (`Js.Numeric`); NaN
absorbs `+` and `*` as it does in JavaScript. Records are maps from property names
to values. `Rows` holds the row rules that several screens share: the amount
`quantity * price` and the lookup of a row by `String(row.id)`.

Loops of the source (`forEach`, `for … of`) are methods with `while` loops, proved
against the recursive functions that specify them. Where the source changes
state with React `setState`, the model is a class whose methods update its fields.
Database calls, callbacks passed by parent components, exceptions they throw, the
clock and `localStorage` become parameters of the operations.

What the code does and does not do, in the files modelled here:

- The code has no tax exemption and no brand variant. The TVA is always 18%, on
  screen and in the PDF. The `noTaxInfo` flag of the invoice form is only copied
  into the payload, and no control of the form ever sets it.
- Each invoice shows one product row even when the sale has several product lines.
- No legacy-shape normalisation and no status transition exist in these files.

## Model

| member | source | states |
|---|---|---|
| Js.Trim | src/components/SalesForm.jsx:54 | the trimmed client is empty exactly when the text is all white space; otherwise it starts and ends with a character that is not white space |
| Js.NumberInput | src/components/SalesForm.jsx:46 | an empty input is stored as `''`; any other input is stored as `Number(raw)`, so the decimal text of a whole number stores that number and a non-empty all-blank input stores 0 |
| Js.Plus | src/components/Invoice.jsx:11 | `+` gives a string exactly when one operand is a string; on two numbers it is numeric addition, NaN absorbing |
| Js.PositiveIsTruthy | src/components/InvoiceGenerator.jsx:95 | a value whose `Number` is greater than zero is truthy and not at most zero |
| Js.ParseFloatOfInt | src/components/ProductForm.jsx:27 | `parseFloat` of the decimal text of a whole number gives that number back, and `parseFloat('')` is NaN |
| Js.Truthy | src/components/InvoiceGenerator.jsx:34 | definition of JavaScript truthiness: `undefined`, `null`, `false`, 0, NaN and `''` are falsy, every other primitive is truthy; `Js.PositiveIsTruthy` relates it to `Number` |
| Js.Or | src/components/InvoiceGenerator.jsx:34 | definition of JavaScript's `or` operator on values: the first operand when truthy, else the second; the defaults it gives are stated in `ProductForm.InitialForm`, `InvoicesPage.Decorate` and `Invoice.PdfFallback` |
| Js.ToNumber | src/components/SalesForm.jsx:52-53 | definition of `Number(v)` on a primitive; its readings are stated in `Js.IntRoundTrip`, `Js.NumberInput` and `Js.PositiveIsTruthy` |
| Js.ToString | src/components/SalesForm.jsx:18 | definition of `String(v)` on a primitive; `Js.IntRoundTrip` states that `Number` reads its decimal text back |
| Js.StringToNumber | src/components/SalesForm.jsx:46 | definition of `Number` on a string: trimmed, then `''` is 0, an optionally signed digit run is its value, anything else NaN; its properties are in `Js.IntRoundTrip` and `Js.NumberInput` |
| Js.IntRoundTrip | src/components/SalesForm.jsx:52-53 | `Number` of the decimal text of a whole number, with any white space around it, is that number |
| Js.ParseFloat | src/components/ProductForm.jsx:27 | definition of `parseFloat`: leading white space is skipped, then the leading optionally signed digit run is read, else NaN; its properties are in `Js.ParseFloatOfInt` |
| Rows.LineAmount | src/pages/Invoices.jsx:86 | the amount of a row is a number exactly when its quantity and price both are; it is then their product |
| Rows.FindIndex | src/components/InvoiceGenerator.jsx:54 | the lookup stops at the first row whose key matches; when it finds nothing, no row has that key |
| Rows.Find | src/components/SalesForm.jsx:31 | a row is found exactly when some row has the key; the row found has the key and is the first row that has it |
| Rows.FindOwnKey | src/components/SalesForm.jsx:17-20 | in a catalog with distinct keys, looking up a row's own key finds that row |
| Invoice.Tva | src/components/Invoice.jsx:9-10 | the TVA is the whole number nearest to 18% of the total, a half rounded up; for a non-negative total it lies between 0 and the total |
| Invoice.NumericTotalFigures | src/components/Invoice.jsx:9-11 | for a whole-number total the screen shows that rounded TVA and a net to pay equal to the total plus the TVA, which is at least the total when the total is not negative |
| Invoice.PdfFallback | src/components/Invoice.jsx:62-64 | in the PDF, a falsy total gives a TVA of 0 and a net to pay of 0 |
| Invoice.ScreenPdfAgree | src/components/Invoice.jsx:62-64 | the screen and the PDF show the same TVA and net exactly when the total is not `undefined`, NaN or `''` |
| Invoice.FalsyNumberLikeZero | src/components/Invoice.jsx:10-11 | a total of `null`, `false` or 0 gives the same figures as a total of 0, both on screen and in the PDF |
| Invoice.PdfBody | src/components/Invoice.jsx:47-55 | the PDF line-item table has exactly one row of five cells |
| Invoice.PdfCellFallback | src/components/Invoice.jsx:48-54 | a PDF line-item cell is empty exactly when its source field is missing or falsy, and shows that field otherwise |
| Invoice.LineRowsAgree | src/components/Invoice.jsx:125-131 | when every source field is truthy, the PDF line-item row is the row shown on screen |
| Invoice.TotalsRowBlanks | src/components/Invoice.jsx:70-74 | for a whole-number total, each PDF totals cell is empty exactly when its figure is 0 |
| Invoice.TotalsRowOfFalsyTotal | src/components/Invoice.jsx:70-74 | a falsy total leaves the three PDF totals cells empty |
| Invoice.FileNameDetermines | src/components/Invoice.jsx:91 | for clients without an underscore, two sales with the same PDF file name have the same client and id texts |
| Invoice.DrawnLogo | src/components/Invoice.jsx:22-27 | the logo is drawn exactly when it is a non-empty string and adding it does not throw; a throw is swallowed |
| Invoice.LogoIsolated | src/components/Invoice.jsx:18-27 | the logo, and an exception while adding it, change nothing in the exported document but the logo |
| Invoice.ScreenFigures | src/components/Invoice.jsx:9-11 | definition of the screen TVA and net from `sale.total` as it is; its properties are in `Invoice.NumericTotalFigures` and `Invoice.ScreenPdfAgree` |
| Invoice.PdfFigures | src/components/Invoice.jsx:62-64 | definition of the PDF TVA and net from `sale.total`, read as 0 when falsy; its properties are in `Invoice.PdfFallback`, `Invoice.ScreenPdfAgree` and `Invoice.FalsyNumberLikeZero` |
| Invoice.PdfLineRow | src/components/Invoice.jsx:49-54 | definition of the PDF product row, each cell its field or `''` when the field is falsy; its properties are in `Invoice.PdfCellFallback` and `Invoice.LineRowsAgree` |
| Invoice.ScreenLineRow | src/components/Invoice.jsx:125-131 | definition of the product row shown on screen; `Invoice.LineRowsAgree` compares it with the PDF row |
| Invoice.PdfTotalsRow | src/components/Invoice.jsx:70-74 | definition of the PDF totals row, each cell blank when its figure is falsy; its properties are in `Invoice.TotalsRowBlanks` and `Invoice.TotalsRowOfFalsyTotal` |
| Invoice.PaymentLine | src/components/Invoice.jsx:83 | definition of the payment line: its label, then `sale.payment_method`, or `''` when that is falsy |
| Invoice.FileName | src/components/Invoice.jsx:91 | definition of `Facture_${client}_${id}.pdf`; its properties are in `Invoice.FileNameDetermines` |
| Invoice.ExportPdf | src/components/Invoice.jsx:17-91 | definition of the exported document (logo, product table, totals table, payment line, file name); its properties are in `Invoice.PdfBody`, `Invoice.DrawnLogo` and `Invoice.LogoIsolated` |
| InvoiceGenerator.TotalBySelection | src/components/InvoiceGenerator.jsx:31-37 | the total depends only on the set of selected keys, not on their order or repetition |
| InvoiceGenerator.TotalIgnoresRepeats | src/components/InvoiceGenerator.jsx:31 | selecting an already selected key again leaves the total unchanged |
| InvoiceGenerator.TotalOfPositiveLines | src/components/InvoiceGenerator.jsx:32-37 | with positive quantities and prices the total is not negative, and it is positive once a catalog product is selected |
| InvoiceGenerator.Without | src/components/InvoiceGenerator.jsx:51 | unchecking drops every occurrence of the unchecked key and keeps every other key as often as it occurred; a key that is not selected leaves the list as it is |
| InvoiceGenerator.WithoutAppend | src/components/InvoiceGenerator.jsx:51 | the filter works key by key, so the keys that stay keep their order |
| InvoiceGenerator.InvoiceForm.constructor | src/components/InvoiceGenerator.jsx:8-15 | the form starts with nothing selected, an empty client, payment in cash, status unpaid and the no-tax flag off |
| InvoiceGenerator.InvoiceForm.Check | src/components/InvoiceGenerator.jsx:46-69 | checking appends the key and creates its details (quantity 1, catalog price or 0) unless some exist; unchecking removes the key and its details; nothing else changes |
| InvoiceGenerator.InvoiceForm.ChangeDetail | src/components/InvoiceGenerator.jsx:71-83 | only the edited field of that product's details changes, to `''` or to the number typed |
| InvoiceGenerator.InvoiceForm.SetClient | src/components/InvoiceGenerator.jsx:219 | the client becomes the typed text and nothing else changes |
| InvoiceGenerator.InvoiceForm.SetPaymentMethod | src/components/InvoiceGenerator.jsx:230 | the payment method becomes the chosen one and nothing else changes |
| InvoiceGenerator.InvoiceForm.SetStatus | src/components/InvoiceGenerator.jsx:243 | the status becomes the chosen one and nothing else changes |
| InvoiceGenerator.FirstUnfilled | src/components/InvoiceGenerator.jsx:93-99 | the loop finds no key exactly when every selected key passes the per-product check; otherwise it stops at the first key that fails it |
| InvoiceGenerator.InvoiceForm.Submit | src/components/InvoiceGenerator.jsx:85-125 | the submission follows the validity check, the per-product check and the insert outcome, and the error field ends as the submission's error |
| InvoiceGenerator.SubmitDecidedByValidity | src/components/InvoiceGenerator.jsx:88-99 | an insert is attempted exactly when `isValid` holds, so the per-product check never rejects anything; a rejected form gets the general message; the error stays empty exactly when the insert succeeds; the callbacks run only after a successful insert |
| InvoiceGenerator.PayloadOfValidForm | src/components/InvoiceGenerator.jsx:102-113 | a valid form inserts one line per selected key, in order, with positive numbers; the total is `totalAmount` and is not negative; the client is kept and the no-tax flag is off |
| InvoiceGenerator.Total | src/components/InvoiceGenerator.jsx:31-37 | definition of the reduce over the catalog products whose key is selected, each line quantity times price, each `Number(x)` read as 0 when falsy; its properties are in `InvoiceGenerator.TotalBySelection`, `InvoiceGenerator.TotalIgnoresRepeats` and `InvoiceGenerator.TotalOfPositiveLines` |
| InvoiceGenerator.FreshDetails | src/components/InvoiceGenerator.jsx:54-58 | definition of the details a checked product gets: quantity 1 and `Number(prod.price)`, read as 0 when falsy or without a product; used by `InvoiceGenerator.InvoiceForm.Check` |
| InvoiceGenerator.InvoiceForm.TotalAmount | src/components/InvoiceGenerator.jsx:31-37 | definition of the form's `totalAmount`, `Total` of its catalog, keys and details; `InvoiceGenerator.PayloadOfValidForm` puts it in the payload |
| InvoiceGenerator.InvoiceForm.IsValid | src/components/InvoiceGenerator.jsx:39-44 | definition of `isValid`: some key is selected, each with `Number` quantity and price above 0, and the trimmed client is not empty; its consequences are in `InvoiceGenerator.SubmitDecidedByValidity` and `InvoiceGenerator.PayloadOfValidForm` |
| InvoiceGenerator.InvoiceForm.SubmittedPayload | src/components/InvoiceGenerator.jsx:102-113 | definition of the inserted row; its properties are in `InvoiceGenerator.PayloadOfValidForm` |
| InvoiceGenerator.InvoiceForm.Outcome | src/components/InvoiceGenerator.jsx:85-125 | definition of what `handleSubmit` does in each case; its properties are in `InvoiceGenerator.SubmitDecidedByValidity`, and `InvoiceGenerator.InvoiceForm.Submit` is proved equal to it |
| SalesForm.SaleForm.constructor | src/components/SalesForm.jsx:5-12 | the form starts with no product, quantity 1, price 0, an empty client, payment in cash and status unpaid |
| SalesForm.SaleForm.TotalAmount | src/components/SalesForm.jsx:22-27 | the total is quantity times price when both are finite numbers, and 0 when either is not |
| SalesForm.SaleForm.SelectProduct | src/components/SalesForm.jsx:29-39 | the selected key is stored and the price becomes the catalog price of that product, or 0 |
| SalesForm.SaleForm.ChangeNumber | src/components/SalesForm.jsx:41-48 | only the edited number changes, to `''` or to the number typed |
| SalesForm.SaleForm.SetClient | src/components/SalesForm.jsx:185-187 | the client becomes the typed text and nothing else changes |
| SalesForm.SaleForm.SetPaymentMethod | src/components/SalesForm.jsx:198-202 | the payment method becomes the chosen one and nothing else changes |
| SalesForm.SaleForm.SetStatus | src/components/SalesForm.jsx:218-220 | the status becomes the chosen one and nothing else changes |
| SalesForm.SaleForm.Submit | src/components/SalesForm.jsx:66-111 | the submission follows the validity check, the presence of `onSave` and how `onSave` ends, and the error field ends as the submission's error |
| SalesForm.ValidTotal | src/components/SalesForm.jsx:50-64 | a valid form's total is the product of its quantity and price, and is positive |
| SalesForm.SubmissionContract | src/components/SalesForm.jsx:66-111 | a sale is sent exactly when the form is valid and `onSave` exists; a sent sale has positive numbers and a total equal to their product; the form closes exactly after a save that did not throw when `onCancel` exists; the error is empty exactly when the sale was saved |
| SalesForm.SelectionFromCatalog | src/components/SalesForm.jsx:88-94 | in a catalog with distinct keys, selecting a product's key puts its price in the form and its own id in the payload |
| SalesForm.SelectedPricePositive | src/components/SalesForm.jsx:37 | a selection gives a positive price exactly when a catalog product has that key and a positive numeric price |
| SalesForm.CatalogPrice | src/components/SalesForm.jsx:37 | definition of the price a selection sets, `Number(product.price)`, read as 0 when falsy or without a product; its properties are in `SalesForm.SelectedPricePositive` and `SalesForm.SelectionFromCatalog` |
| SalesForm.SaleForm.Selected | src/components/SalesForm.jsx:17-20 | definition of `selectedProduct`, the catalog row found by the selected key; see `Rows.Find` and `SalesForm.SelectionFromCatalog` |
| SalesForm.SaleForm.IsValid | src/components/SalesForm.jsx:50-64 | definition of `isValid`: a product key, finite quantity and price above 0, and a non-empty trimmed client; its consequences are in `SalesForm.ValidTotal` and `SalesForm.SubmissionContract` |
| SalesForm.SaleForm.Payload | src/components/SalesForm.jsx:88-94 | definition of the payload handed to `onSave`; its properties are in `SalesForm.SubmissionContract` and `SalesForm.SelectionFromCatalog` |
| SalesForm.SaleForm.Outcome | src/components/SalesForm.jsx:66-111 | definition of what `handleSubmit` does in each case; its properties are in `SalesForm.SubmissionContract`, and `SalesForm.SaleForm.Submit` is proved equal to it |
| PaymentStatus.StatusOf | src/components/Charts/PaymentStatus.jsx:53-55 | a sale is tallied exactly when its status key is paid, unpaid or proforma, and then under that key |
| PaymentStatus.NonEmpty | src/components/Charts/PaymentStatus.jsx:84 | the filter keeps exactly the slices with a positive count |
| PaymentStatus.ProcessChartData | src/components/Charts/PaymentStatus.jsx:31-96 | missing or empty data gives no slices and an all-zero summary; otherwise the chart and the summary are those of the per-status counts and amounts |
| PaymentStatus.FormatPercentage | src/components/Charts/PaymentStatus.jsx:105-107 | the percentage is `'0%'` exactly when the total is 0 |
| PaymentStatus.MissingStatusIsUnpaid | src/components/Charts/PaymentStatus.jsx:53 | a sale with a missing or falsy status is counted as unpaid |
| PaymentStatus.CountsWithinTotal | src/components/Charts/PaymentStatus.jsx:87-91 | the three counts add up to at most the number of sales, and to exactly that number when every sale has one of the three statuses |
| PaymentStatus.TalliesSplit | src/components/Charts/PaymentStatus.jsx:51-59 | counts and amounts split over a concatenation of the data |
| PaymentStatus.UnknownStatusIgnored | src/components/Charts/PaymentStatus.jsx:55-58 | a sale with another status changes neither the chart nor the counts and amounts; it only raises the total |
| PaymentStatus.AmountNumeric | src/components/Charts/PaymentStatus.jsx:52-57 | an amount is a number exactly when every sale counted under that status has a numeric quantity and price |
| PaymentStatus.FilterKeepsOrder | src/components/Charts/PaymentStatus.jsx:62-84 | filtering the three slices keeps them in the order paid, unpaid, pro forma |
| PaymentStatus.ChartShape | src/components/Charts/PaymentStatus.jsx:62-84 | the chart has a slice for a status exactly when some sale has it; every slice counts a sale; the slices keep their fixed order |
| PaymentStatus.StatusKey | src/components/Charts/PaymentStatus.jsx:53 | definition of the tally key: `sale.status`, or `'unpaid'` when it is falsy; its properties are in `PaymentStatus.StatusOf` and `PaymentStatus.MissingStatusIsUnpaid` |
| PaymentStatus.Count | src/components/Charts/PaymentStatus.jsx:51-59 | definition of the count tallied under a status; its properties are in `PaymentStatus.CountsWithinTotal` and `PaymentStatus.TalliesSplit` |
| PaymentStatus.Amount | src/components/Charts/PaymentStatus.jsx:51-59 | definition of the amount tallied under a status; its properties are in `PaymentStatus.AmountNumeric` and `PaymentStatus.TalliesSplit` |
| PaymentStatus.Chart | src/components/Charts/PaymentStatus.jsx:62-84 | definition of the three slices filtered to the non-empty ones; its properties are in `PaymentStatus.ChartShape` and `PaymentStatus.FilterKeepsOrder` |
| PaymentStatus.SummaryOf | src/components/Charts/PaymentStatus.jsx:87-95 | definition of the summary object; its properties are in `PaymentStatus.CountsWithinTotal`, and `PaymentStatus.ProcessChartData` is proved equal to it |
| DailySales.ProcessChartData | src/components/Charts/DailySales.jsx:21-78 | missing or empty data gives an empty series; otherwise the series is that of the buckets grouped by key, sorted, and cut to the last seven |
| DailySales.KeyAbsent | src/components/Charts/DailySales.jsx:49-55 | a key not seen yet has no sales, so its new bucket starts at total 0 and count 0 |
| DailySales.LastSeven | src/components/Charts/DailySales.jsx:72-75 | at most seven buckets are kept, and they are the last ones |
| DailySales.LessEqTotal | src/components/Charts/DailySales.jsx:69 | any two keys are comparable |
| DailySales.LessEqTransitive | src/components/Charts/DailySales.jsx:69 | the key order is transitive |
| DailySales.SortCorrect | src/components/Charts/DailySales.jsx:65-70 | the sort returns the same buckets, ordered by key |
| DailySales.KeysExact | src/components/Charts/DailySales.jsx:49-58 | there is one bucket per distinct key of the sales, and no other |
| DailySales.BucketsNonEmpty | src/components/Charts/DailySales.jsx:49-58 | every bucket counts at least one sale |
| DailySales.BucketsAddUp | src/components/Charts/DailySales.jsx:31-62 | the bucket counts add up to the number of sales and the bucket totals to the sum of all the amounts |
| DailySales.SeriesMembers | src/components/Charts/DailySales.jsx:62-75 | the series has at most seven buckets, each one of the grouped buckets and each counting a sale |
| DailySales.SeriesSorted | src/components/Charts/DailySales.jsx:65-75 | outside the daily view the series is sorted, and every bucket cut off comes before every bucket kept |
| DailySales.Keys | src/components/Charts/DailySales.jsx:31-59 | definition of the keys in first-appearance order; its properties are in `DailySales.KeysExact` |
| DailySales.Buckets | src/components/Charts/DailySales.jsx:27-62 | definition of `Object.values(salesByDate)`: one bucket per key with its summed amount and count; its properties are in `DailySales.KeysExact`, `DailySales.BucketsNonEmpty` and `DailySales.BucketsAddUp` |
| DailySales.Sort | src/components/Charts/DailySales.jsx:65-70 | definition of the sort by key (an insertion sort); its properties are in `DailySales.SortCorrect` |
| DailySales.Series | src/components/Charts/DailySales.jsx:60-75 | definition of the series shown: the buckets, sorted outside the daily view, cut to the last seven; its properties are in `DailySales.SeriesMembers` and `DailySales.SeriesSorted` |
| Inventory.PaidSales | src/components/Inventory.jsx:45 | the filter keeps exactly the sales whose status is strictly `'paid'` |
| Inventory.PaidTotal | src/components/Inventory.jsx:44-46 | a missing or empty result gives a paid total of 0 |
| Inventory.PaidTotalAppend | src/components/Inventory.jsx:44-46 | the paid sales and the paid total split over a concatenation |
| Inventory.OneMoreSale | src/components/Inventory.jsx:45-46 | a sale that is not paid leaves the total unchanged wherever it stands; a paid one adds its amount |
| Inventory.PaidTotalNumeric | src/components/Inventory.jsx:46 | the paid total is a number exactly when every paid sale has a numeric amount |
| Inventory.Label | src/components/Inventory.jsx:123-124 | a card reads "Payée" exactly for a paid sale and "Non payée" for every other status |
| Inventory.SaleAmount | src/components/Inventory.jsx:46 | definition of a sale's amount, `Number(total)` when above 0, else `Number(quantity) * Number(price)`, also shown on the sale card (line 118); its properties are in `Inventory.OneMoreSale` and `Inventory.PaidTotalNumeric` |
| Inventory.SumAmounts | src/components/Inventory.jsx:46 | definition of the `reduce` that sums the amounts; its properties are in `Inventory.PaidTotalAppend` |
| Header.MarkRead | src/components/Header.jsx:81-85 | the notifications with that id become read and keep their other fields; the others are unchanged; length and order are kept |
| Header.MarkAll | src/components/Header.jsx:87-89 | every notification becomes read and keeps its other fields |
| Header.UnreadCount | src/components/Header.jsx:91-93 | the unread count is at most the number of notifications |
| Header.MarkAllClears | src/components/Header.jsx:87-93 | after marking all read the badge count is 0 |
| Header.MarkReadCount | src/components/Header.jsx:81-93 | marking one read never raises the count, lowers it when an unread notification has that id, and changes nothing when no notification does |
| Header.Greeting | src/components/Header.jsx:111-116 | "Bonjour" exactly before noon, "Bon après-midi" exactly from 12 to before 18, "Bonsoir" exactly from 18 on |
| Header.InitialTheme | src/components/Header.jsx:10 | the theme starts as the stored one when it is non-empty, and as `'light'` when nothing or an empty string is stored |
| Header.Toggle | src/components/Header.jsx:15-17 | the theme becomes `'light'` exactly when it was `'dark'`, and `'dark'` otherwise |
| Header.ToggleTwice | src/components/Header.jsx:12-17 | two toggles restore `'light'` or `'dark'`; every toggle flips the body class |
| Migration.NameMapLookup | migrate_sales_products.js:16-17 | the product map holds a key exactly when some product has it, with the name of the last such product |
| Migration.BuildProductMap | migrate_sales_products.js:16-17 | the loop builds the product map |
| Migration.Fill | migrate_sales_products.js:29-31 | a line without a name whose key the map knows gets the map's name and keeps its other fields; other lines are unchanged; no filled line can be filled again |
| Migration.FillAll | migrate_sales_products.js:28-34 | every line passes through the fill, in order |
| Migration.FillEntries | migrate_sales_products.js:28-34 | the loop produces the filled lines, and the `updated` flag is set exactly when some line can be filled |
| Migration.Migrate | migrate_sales_products.js:16-44 | the script issues exactly the updates that the specification function lists, in sale order |
| Migration.ChangedIffFillable | migrate_sales_products.js:28-35 | a sale's lines change exactly when `updated` is set |
| Migration.FillIdempotent | migrate_sales_products.js:29-31 | filling twice is filling once |
| Migration.SecondRunDoesNothing | migrate_sales_products.js:25-44 | running the migration again on its own result issues no update |
| Migration.UpdatesExact | migrate_sales_products.js:25-41 | an update is issued for a sale exactly when its products are an array with a line to fill, and it carries the filled lines |
| Migration.NameMap | migrate_sales_products.js:16-17 | definition of `productMap`; its properties are in `Migration.NameMapLookup` |
| Migration.Updates | migrate_sales_products.js:25-41 | definition of the updates issued, in sale order; its properties are in `Migration.UpdatesExact` and `Migration.SecondRunDoesNothing` |
| InvoicesPage.Decorate | src/pages/Invoices.jsx:28 | the product name is the joined product's truthy name, else "Produit inconnu"; every other field is kept |
| InvoicesPage.DecorateAll | src/pages/Invoices.jsx:26-29 | every sale is decorated, in order |
| InvoicesPage.DecoratedRows | src/pages/Invoices.jsx:26-29 | every decorated row shows a product name and keeps its amount |
| InvoicesPage.BadgesDistinct | src/pages/Invoices.jsx:34-41 | the three statuses get three different badges, and any other status shows its own text under the plain class |
| InvoicesPage.Reference | src/pages/Invoices.jsx:81 | the reference is `#` followed by the first eight characters of the id (all of a shorter id) |
| InvoicesPage.StatusBadge | src/pages/Invoices.jsx:34-41 | definition of `getStatusBadge`, a `switch` on the status; its properties are in `InvoicesPage.BadgesDistinct` |
| ProductForm.InitialForm | src/components/ProductForm.jsx:16-21 | the form has the four fields; each is the product's value when truthy, else its default: `''`, the first category, 0 and 0 |
| ProductForm.NewProductDefaults | src/components/ProductForm.jsx:16-21 | a new product starts with empty name, the first truthy category or `''`, price 0 and stock 0 |
| ProductForm.Change | src/components/ProductForm.jsx:23-29 | the named field becomes `parseFloat(value)` for price and stock and the raw text otherwise; the other fields are kept |
| ProductForm.ChangesCompose | src/components/ProductForm.jsx:23-29 | the last edit of a field wins, and edits of two different fields commute |
| ProductForm.NumericEntry | src/components/ProductForm.jsx:27 | typing a whole number into price or stock stores it; clearing the field stores NaN |

## Left out

- Reads from and writes to the database are not modelled. Their results are parameters: `InsertResult` and `SaveResult`, the fetched rows, and the updates the migration would issue.
- Loading and "submitting" flags, logging, alerts, printing, routing and styling are not modelled, because none of them computes a figure.
- The callbacks `onCreated`, `onClose` and `onCancel` are assumed not to throw. The model only records whether they are called.
- Numbers are whole numbers or NaN. Infinity, `-0` and floating-point rounding are not modelled; `Number.isFinite` is the NaN test.
- Js.StringToNumber: reads only optionally signed decimal digit runs. Text with a fraction, an exponent or a hex prefix (`"12.5"`, `"1e3"`, `"0x10"`) gives NaN, where JavaScript gives 12.5, 1000 and 16. The price inputs accept steps of 0.01, so a fractional quantity or price makes `SaleForm.IsValid` and `InvoiceForm.IsValid` false here while the app accepts it, and totals with fractions are not covered.
- Js.ParseFloat: reads only the leading optionally signed digit run, so `parseFloat("12.5")` gives 12 here where JavaScript gives 12.5; `ProductForm.Change` then stores 12 for a price or stock typed as `12.5`.
- Invoice.Tva: computed in exact arithmetic. `Math.round(t * 0.18)` on binary floating point can differ by one when `t * 0.18` falls just short of a half.
- `toLocaleString`, `toLocaleDateString`, `Intl.NumberFormat` and the `FCFA` suffix text are not modelled; a `Money` cell stands for the formatted amount.
- PaymentStatus.FormatPercentage: only the `'0%'` case is given its text. The non-zero case is a ratio whose `toFixed(1)` formatting is floating point.
- DailySales.Sort: `localeCompare` is modelled as code-point order of the keys. Locale collation is not modelled.
- DailySales.Series: the daily view keeps the buckets in first-appearance order. Its comparator subtracts two `Date`s parsed from locale-formatted text, which is not modelled.
- DailySales.ProcessChartData: the date key comes in as the parameter `keyOf`. The clock and the locale date formatting behind it are not modelled.
- Property names inherited from `Object.prototype` (such as a status of `"toString"`) are not modelled; records are plain maps.
- The ordering rule of `Object.values`, which lists integer-like keys first, is not modelled; buckets come in first-appearance order, as they do for the non-numeric date keys.
- The screen rendering of `Invoice` throws when the product, the price or a total is missing. That is not modelled; only the figures are.
- ProductForm `handleSubmit` only forwards the form values to `onSave`, so there is no logic to model beyond `InitialForm` and `Change`.
- Header: the notification fixtures, the time shown and the write of the theme to `localStorage` are not modelled. The hour and the stored theme are parameters.
- Inventory: the period range (`getPeriodRange`) and the query that uses it are not modelled. The fetched sales are a parameter.
- The per-product check in `InvoiceGenerator`'s `handleSubmit` is modelled (`FirstUnfilled`), but it can never reject a form that `isValid` accepted (`SubmitDecidedByValidity`). Its message is therefore never shown.
- Migration: a `null` entry in a sale's `products` array makes `p.name` throw and aborts the run. Entries are records here, so that case is not modelled.
