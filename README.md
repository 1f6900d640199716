# Smart POS System — a verified model of its business rules

This project models the point-of-sale rules of the Smart POS System in Dafny and proves what they guarantee. The system has an Express/MongoDB backend and a React frontend. The modelled rules are:

- invoices: the schema's pre-save hook that recomputes line totals, subtotal, net total and change and fills a fallback number; the controller's `INV-<n>` numbering; invoice creation and lookup;
- the invoice screen and the shared cart: adding, incrementing, re-quantifying and removing lines, the totals shown, the checks before an invoice is posted, and the clamped stock writes after it;
- the named sequence counters and the zero-padded `VEND-00001` codes of vendors and receipts;
- the catalogue: category and product create, update and delete, with the blank-name and duplicate-name checks, SKU generation and regeneration, and the product model's SKU default and field constraints;
- the customer credit and supplier outstanding balances, adjusted and rounded to cents;
- the settings page: the payment-method toggle that keeps the default among the enabled methods, the percentage clamps, loading, and the shallow merge on import;
- the add-product page: SKU regeneration on a category change, and the bulk CSV upload that resolves category names to ids case-insensitively;
- reporting: grouping and KPIs of the sales report, its CSV exports, the filters, sorts, pages and figures of the products and sales pages, the dashboard's figures and charts, and the visible rows of the category tree;
- request gating: the two token middlewares and the role check.

Each source file has its own module (`invoice_schema.dfy` for `Backend/model/invoiceSchema.js`, `settings.dfy` for `frontend/src/pages/setting.jsx`, and so on). A few shared modules sit underneath:

- Wrappers: `Option`;
- Text: strings as sequences of characters, `trim` over JavaScript's white space, case mapping of the ASCII letters, `split`, decimal digits;
- Lists: sums, counts, filters, stable comparator sorts, prefixes;
- Tally: a JavaScript `Map` or object filled by accumulation, in insertion order;
- JsSet: a JavaScript `Set`, as a class;
- `Paging`, `Money` (cents) and `Jwt` (token verification, kept abstract).

Code that updates state in place is imperative Dafny:

- the counter store, the collections and the mongoose documents are classes whose methods state their new state;
- the loops of the report, the dashboard and the invoice screen are methods with invariants, each proved against a specification function.

Code built from expressions is functions and lemmas: the cart, the filters and sorts, the tree, and the token and role checks.

Money is exact `real`. `toFixed(2)` is rounding half away from zero to whole cents. A JavaScript comparator sort is a stable insertion sort, with a `NaN` comparison read as 0, as `Array.prototype.sort` does. Clocks, random draws, fresh ids, locale formatting, `localeCompare`, the barcode generator and `jwt.verify` are parameters of the operations that use them.

Some consequences of the code that the model keeps:

- the next invoice number follows the greatest stored number string; there is no atomic counter behind it;
- the server accepts an amount received below the net total and a discount above the subtotal, so the change and the net may be negative (`InvoiceSchema.ChangeMayBeNegative`);
- stock is checked, and decremented with a clamp at zero, only in the invoice screen; the server does neither;
- the server's pre-save hook does not round its totals.

## Model

| member | source | states |
|---|---|---|
| VendorUtils.CounterStore.GetNextSeq | Backend/controller/vendor/utils.js:3-10 | one call returns the counter's value plus one (1 for a counter never used) and stores it; no other counter changes |
| VendorUtils.Draws | Backend/controller/vendor/utils.js:3-10 | `k` successive calls for one name return the old value plus 1, 2, …, k |
| VendorUtils.DrawsIncrease | Backend/controller/vendor/utils.js:3-10 | successive values of one counter strictly increase, and the first value ever drawn is 1 |
| VendorUtils.DrawsStep | Backend/controller/vendor/utils.js:3-10 | one call returns the first of the draws and leaves the counters from which the remaining draws follow |
| VendorUtils.VendorCodeDigits | Backend/controller/vendor/vendorController.js:11 | the code is `VEND-` followed by at least five digits, none cut off, whose value is the counter value |
| VendorUtils.VendorCodeInjective | Backend/controller/vendor/vendorController.js:11 | different counter values give different vendor codes |
| VendorUtils.FirstVendorCode | Backend/controller/vendor/vendorController.js:11 | the first code is `VEND-00001` |
| VendorController.VendorStore.CreateVendor | Backend/controller/vendor/vendorController.js:6-15 | a missing or empty name is a 400 and touches no counter; otherwise the "vendor" counter goes up by one and a vendor with that code and the body's fields is stored and returned with 201 |
| VendorController.VendorStore.ListVendors | Backend/controller/vendor/vendorController.js:18-21 | at most 100 vendors, newest first, all among the stored ones, and no vendor left out is newer than one listed |
| VendorController.NewestKept | Backend/controller/vendor/vendorController.js:19 | the newest-first sort cut to 100 is ordered, drawn from the store, and keeps the newest vendors |
| VendorController.SuccessiveVendorCodesDiffer | Backend/controller/vendor/vendorController.js:10-11 | two vendors created one after the other get different codes |
| ReceiptController.ReceiptStore.GetNextVendorCode | Backend/controller/vendor/receiptController.js:4-12 | the "vendorCode" counter goes up by one and the code of its new value is returned; the receipts are untouched |
| ReceiptController.ReceiptStore.CreateReceipt | Backend/controller/vendor/receiptController.js:15-40 | the code is drawn first; a body without `vendor` then fails with 500 and stores nothing, otherwise the receipt with the vendor's fields, items, totals and that code is stored and returned with 201 |
| ReceiptController.ReceiptStore.GetReceipts | Backend/controller/vendor/receiptController.js:43-50 | all receipts, each as often as stored, newest first |
| ReceiptController.SuccessiveCodesDiffer | Backend/controller/vendor/receiptController.js:4-12 | the next receipt's code comes from the next counter value and differs from the previous one |
| ProductModel.SkuFromParts | Backend/model/product.model.js:47-48 | the SKU is a code and `-` and the time; the code is "PRD" for an empty value, otherwise at most the first `n` characters of the value with its ASCII letters in upper case |
| ProductModel.SkuFromTimeInjective | Backend/model/product.model.js:47-48 | with the same code, SKUs drawn at different times differ |
| ProductModel.SkuHook | Backend/model/product.model.js:44-51 | a truthy SKU is kept; a missing or empty one becomes the category's four-character code (or "PRD") and the time; nothing else changes |
| ProductModel.SkuHookIdempotent | Backend/model/product.model.js:44-51 | after the hook the SKU is truthy, and a second run at any time changes nothing |
| ProductModel.Save | Backend/model/product.model.js:3-51 | a save succeeds exactly when the required fields are present, the stock is at least 0 and the SKU after the hook is not held by another document; then the hooked document is stored under its id |
| ProductModel.SaveKeepsSkusUnique | Backend/model/product.model.js:14-17 | a successful save keeps SKUs unique, stores a valid document with a SKU and leaves every other document as it was |
| ProductModel.Assign | Backend/model/product.model.js:4-40 | every field the body carries replaces the document's, the name trimmed by the schema's `trim`; the others are kept |
| ProductModel.AssignIdempotent | Backend/model/product.model.js:4-40 | an empty body changes nothing and assigning the same body twice equals assigning it once |
| ProductModel.ProductDoc.constructor | Backend/model/product.model.js:26-29 | a new document holds the body's fields, the name trimmed and the description defaulting to "" |
| ProductModel.ProductDoc.AssignFields | Backend/model/product.model.js:4-40 | the document becomes `Assign` of its old contents and the body |
| ProductModel.ProductDoc.PreSave | Backend/model/product.model.js:44-51 | the document becomes `SkuHook` of its old contents |
| ProductController.AsList | Backend/controller/productcontroler.js:32-37 | a single product is handled as a list of one, a list as itself |
| ProductController.Step | Backend/controller/productcontroler.js:41-73 | one product: 400 exactly when a required field is falsy (a null stock) or no stored category has the given id, any other failure is the 500 of the save, and a saved product is stored under its id with nothing else changed |
| ProductController.Built | Backend/controller/productcontroler.js:55-70 | the document `new Product(...)` builds: the body's fields with the name trimmed and the description defaulting to "", the SKU generated from the category's name and the barcode of that SKU |
| ProductController.StepBuilds | Backend/controller/productcontroler.js:45-73 | a saved product had every required field and a known category, and is the document `Built` makes from its body |
| ProductController.StepSavesExactly | Backend/controller/productcontroler.js:45-72 | a product is saved exactly when it is complete, its category is known, its trimmed name is not empty, its stock is not negative and no other product holds the generated SKU |
| ProductController.StepFailsWith | Backend/controller/productcontroler.js:45-72 | a failing product fails for the reason its status names: 400 for a missing field or unknown category, 500 for an empty trimmed name, a negative stock or a SKU already held |
| ProductController.CreateFrom | Backend/controller/productcontroler.js:30-84 | the products are saved in order and the first failure ends the request; a request answers 201, 400 or 500, and on 201 every product was created |
| ProductController.CreateFromNoRollback | Backend/controller/productcontroler.js:41-79 | with fresh, distinct ids, every product a request created is still stored under its id when the request ends, whatever its status, and is the product built from its body; the status is 201 exactly when every product was created |
| ProductController.CreateFromStopsAtFailure | Backend/controller/productcontroler.js:41-79 | a request that does not answer 201 stopped at the product right after the created ones, which fails for the reason its status names, judged against the collection the products before it left |
| ProductController.CreateFromKeeps | Backend/controller/productcontroler.js:41-74 | there is no rollback: every product stored before stays unchanged, and new entries lie under this request's ids |
| ProductController.FirstInvalidSavesNothing | Backend/controller/productcontroler.js:45-53 | a request whose first product is incomplete or names an unknown category is a 400 that saves nothing |
| ProductController.SameMillisecondCollides | Backend/controller/productcontroler.js:6-8 | two products of one category drawn in the same millisecond get the same SKU: the second save breaks the unique index, the request answers 500 and the first product stays saved |
| ProductController.Update | Backend/controller/productcontroler.js:99-133 | 404 exactly when no product has the id; 400 exactly when the body changes the category to an id no category has; otherwise 200 exactly when the document after the category change and `Object.assign` passes the schema and its SKU after the hook is held by no other product, the stored product then being `Updated`; on 500 nothing is stored |
| ProductController.Updated | Backend/controller/productcontroler.js:109-123 | the saved document: every field the body carries replaces the stored one, the name trimmed; a changed category brings the SKU generated from its name and that SKU's barcode unless the body gives its own; a non-empty SKU in the body is kept and an empty one is replaced by the hook's default |
| ProductController.EmptyUpdateKeepsProduct | Backend/controller/productcontroler.js:99-133 | an update with an empty body leaves a valid stored product as it was |
| ProductController.ProductStore.SaveOne | Backend/controller/productcontroler.js:45-73 | one pass of the loop in place: the result is that of `Step` and only a saved product changes the collection |
| ProductController.ProductStore.CreateProduct | Backend/controller/productcontroler.js:30-84 | the loop over the products has the status, collection and created list of `CreateFrom` |
| ProductController.ProductStore.UpdateProduct | Backend/controller/productcontroler.js:99-133 | the update on the loaded document has the status, collection and product of `Update` |
| ProductController.ProductStore.DeleteProduct | Backend/controller/productcontroler.js:136-150 | 404 for an unknown id, otherwise 200 with only that product removed |
| ProductController.ProductStore.DeleteAllProducts | Backend/controller/productcontroler.js:153-164 | 200, the collection emptied, and the count of removed products reported |
| ProductController.GenerateSkuShape | Backend/controller/productcontroler.js:6-9 | the SKU is at most the first three characters of the category name with its ASCII letters in upper case, or "PRD" for an empty name, then `-` and the time |
| CategoryController.ParentOf | Backend/controller/categoryController.js:20 | `parentCategory \|\| null`: a missing or empty parent id means no parent, any other is kept |
| CategoryController.Populate | Backend/controller/categoryController.js:39 | a parent reference populates to its id and name exactly when it names a stored category, otherwise to null |
| CategoryController.View | Backend/controller/categoryController.js:52-53 | a category as sent: its id, name and time, with the parent populated |
| CategoryController.Doc | Backend/controller/categoryController.js:25-28 | the saved document as it is sent back after a save: the stored id, name and time, and the parent as a bare id, not populated |
| CategoryController.PutKeepsValid | Backend/controller/categoryController.js:18-23 | storing a present, trimmed name that no other category holds keeps every stored name present, trimmed and unique |
| CategoryController.CategoryStore.CreateCategory | Backend/controller/categoryController.js:4-33 | a blank name is 400, a trimmed name already held is 400, both with the store unchanged; otherwise the category is stored with the trimmed name and `parentCategory \|\| null`, and the saved document, its parent a bare id, is sent with 201; the names stay valid |
| CategoryController.CategoryStore.UpdateCategory | Backend/controller/categoryController.js:67-94 | 404 for an unknown id; a truthy name whose trimmed form another category holds is 400; otherwise the trimmed name and `parentCategory \|\| null` are stored and the saved document, with its old creation time, is sent with 200, unless the save fails (an empty name) with 500 and no change; the names stay valid |
| CategoryController.CategoryStore.DeleteCategory | Backend/controller/categoryController.js:97-110 | 404 for an unknown id, otherwise 200 with only that category removed; the names stay valid |
| CategoryController.CategoryStore.GetCategoryById | Backend/controller/categoryController.js:50-64 | 200 with the populated category exactly when the id is stored, 404 with nothing otherwise |
| CategoryController.CategoryStore.GetCategories | Backend/controller/categoryController.js:36-47 | every stored category exactly once, populated, newest first |
| CategoryController.DeleteOrphansChildren | Backend/controller/categoryController.js:97-110 | deleting a parent leaves its children pointing at an id that populates as null |
| CategoryController.UpdateWithoutParentIsMain | Backend/controller/categoryController.js:85 | an update without `parentCategory` makes the category a main category |
| CategoryController.PaddedDuplicateRenameRefused | Backend/controller/categoryController.js:76-81 | a space-padded copy of another category's name is caught by the duplicate check, whose filter is trimmed like the stored names, so the rename is a 400 |
| CategoryController.BlankNameRefusedOnCreateButNotOnUpdate | Backend/controller/categoryController.js:8-10 | an all-space name is blank for create, while on update it trims to "" and is held by no category, so only the save refuses it |
| InvoiceSchema.Validate | Backend/model/invoiceSchema.js:3-66 | a document passes exactly when every line has a product id, a name, a quantity of at least 1 and a price, the payment method is one of Cash, Card, EasyPaisa, JazzCash and an amount received is given; then it keeps the lines and the number, and the date and the discount and tax totals take their defaults |
| InvoiceSchema.RandomSuffix | Backend/model/invoiceSchema.js:72 | for a random draw in [0, 1) the suffix lies in 0..999 |
| InvoiceSchema.HookTotals | Backend/model/invoiceSchema.js:75-87 | whatever totals the client sent, each line total becomes price × quantity, the subtotal is their sum, net = subtotal − discount + tax and change = received − net; the other fields are kept |
| InvoiceSchema.HookNumber | Backend/model/invoiceSchema.js:70-73 | a present invoice number is kept; a missing one becomes `INV-<now>-<d>` with 0 ≤ d ≤ 999 |
| InvoiceSchema.FallbackNumberPieces | Backend/model/invoiceSchema.js:72 | the fallback number splits at `-` into "INV", the time and the suffix |
| InvoiceSchema.HookIdempotent | Backend/model/invoiceSchema.js:69-90 | running the hook again, at any time and with any draw, changes nothing |
| InvoiceSchema.ChangeMayBeNegative | Backend/model/invoiceSchema.js:86-87 | an underpaid invoice is saved with a negative change |
| InvoiceSchema.InvoiceDoc.PreSave | Backend/model/invoiceSchema.js:69-90 | the hook in place: the line totals are updated in a loop over the items array, after which the document equals `Hook` of its old contents |
| InvoiceController.InvoiceSeqOfNumber | Backend/controller/Invoice.js:9 | `parseInt` of the piece after the first `-` reads `INV-<k>` back as `k` |
| InvoiceController.NumberAfterSuccessor | Backend/controller/Invoice.js:9-10 | after `INV-<k>` the numbering goes on with `INV-<k+1>` |
| InvoiceController.SaveUnique | Backend/model/invoiceSchema.js:4-7 | a save fails exactly when another stored invoice has the same number, otherwise the invoice is stored under its id |
| InvoiceController.LexicographicNumberingRepeats | Backend/controller/Invoice.js:4-11 | with INV-9999 and INV-10000 stored, the string-greatest number is INV-9999, the next number is INV-10000 again and its save fails, leaving the store as it was |
| InvoiceController.NinesAboveTenThousand | Backend/controller/Invoice.js:5 | as strings "INV-10000" sorts below "INV-9999" |
| InvoiceController.InvoiceStore.LastInvoiceNumber | Backend/controller/Invoice.js:5 | nothing for an empty collection, otherwise a stored number that no stored number exceeds as a string |
| InvoiceController.InvoiceStore.GenerateInvoiceNumber | Backend/controller/Invoice.js:4-11 | "INV-1001" for an empty collection, otherwise the successor of the string-greatest stored number |
| InvoiceController.InvoiceStore.HighestSequence | Backend/controller/Invoice.js:9 | the largest number read from any stored invoice number, and at least 1000 |
| InvoiceController.InvoiceStore.NextInvoiceNumber | Backend/controller/Invoice.js:4-11 | the corrected numbering: "INV-1001" for an empty collection, always `INV-<k>` with k ≥ 1001 above every stored number, so never a stored number |
| InvoiceController.InvoiceStore.CreateInvoice | Backend/controller/Invoice.js:15-58 | 201 exactly when the body passes the schema; the number is generated and never taken from the body, the stored invoice is the hooked document and nothing else changes; on 500 nothing is stored |
| InvoiceController.InvoiceStore.GetAllInvoices | Backend/controller/Invoice.js:61-76 | every stored invoice exactly once, with its id |
| InvoiceController.InvoiceStore.GetInvoiceById | Backend/controller/Invoice.js:79-94 | 200 with the invoice exactly when the id is stored, 404 with nothing otherwise |
| InvoiceForm.FilteredProducts | frontend/src/pages/InvoiceForm.jsx:35-41 | no suggestions for an empty query; otherwise exactly the products whose name (missing reads as "") starts with the query ignoring case, drawn from the catalogue |
| InvoiceForm.FilteredProductsInOrder | frontend/src/pages/InvoiceForm.jsx:35-41 | the suggestions keep catalogue order: those of a split catalogue are the suggestions of each part, one after the other, and a single product is suggested exactly when the query is not empty and its name starts with the query ignoring case |
| InvoiceForm.FindLine | frontend/src/pages/InvoiceForm.jsx:50 | the index of the first line with that id, or none exactly when no line has it |
| InvoiceForm.AddItem | frontend/src/pages/InvoiceForm.jsx:44-76 | unchanged for a product without a positive stock or when one more unit would exceed the stock; an existing line gains one unit with its total recomputed and the others stay; a new product is appended with quantity 1 and total its selling price |
| InvoiceForm.AddItemPreserves | frontend/src/pages/InvoiceForm.jsx:44-76 | adding keeps every line's total equal to quantity × price and one line per product |
| InvoiceForm.UpdateQuantity | frontend/src/pages/InvoiceForm.jsx:79-92 | the product's lines get the quantity, or their stock when it is above it, with total quantity × price; the other lines are unchanged |
| InvoiceForm.UpdateQuantityPreserves | frontend/src/pages/InvoiceForm.jsx:79-92 | after the update no line of that product exceeds its known stock, and totals and unique ids are kept |
| InvoiceForm.RemoveItem | frontend/src/pages/InvoiceForm.jsx:95-97 | exactly the lines of the other products remain, as many as the list has |
| InvoiceForm.RemoveItemInOrder | frontend/src/pages/InvoiceForm.jsx:95-97 | the remaining lines keep their order: removal from a split list is the removal from each part, one after the other, and a single line stays exactly when its id differs |
| InvoiceForm.RemoveItemPreserves | frontend/src/pages/InvoiceForm.jsx:95-97 | removing keeps totals consistent and ids unique |
| InvoiceForm.ComputeTotals | frontend/src/pages/InvoiceForm.jsx:100-106 | subtotal is the sum of the line totals, tax is taxPct percent of it, net = subtotal − discount + tax; the change is received − net when a non-zero amount covers the net, else 0, and never negative |
| InvoiceForm.SubtotalOfConsistent | frontend/src/pages/InvoiceForm.jsx:100 | with consistent lines the subtotal is the sum of quantity × price |
| InvoiceForm.AddNewProductSubtotal | frontend/src/pages/InvoiceForm.jsx:69-73 | adding a new product raises the subtotal by its selling price |
| InvoiceForm.DiscountInput | frontend/src/pages/InvoiceForm.jsx:360 | the discount entered is never below 0, and a non-negative entry is kept |
| InvoiceForm.AmountInput | frontend/src/pages/InvoiceForm.jsx:398 | the amount entered is never below the net total, and an entry at or above it is kept |
| InvoiceForm.NewStock | frontend/src/pages/InvoiceForm.jsx:151-155 | the stock written is never below 0, and is stock − quantity when that is not negative |
| InvoiceForm.CreateInvoice | frontend/src/pages/InvoiceForm.jsx:109-169 | rejected for no lines, for the first line above its stock (named), for a missing amount or one below the net, and for a negative amount, each exactly when its check is the first to fail; otherwise the payload of the lines and totals is posted and each line's product gets one stock write |
| InvoiceForm.StockWritesExact | frontend/src/pages/InvoiceForm.jsx:151-155 | once the stock check has passed, the clamp never fires: each write is stock − quantity |
| InvoiceForm.ServerAgreesWithScreen | frontend/src/pages/InvoiceForm.jsx:132-147 | the posted payload passes the server's schema, and the server's hook recomputes the subtotal and net the screen showed, and the same change once the amount covers the net |
| InvoiceForm.PayloadValid | frontend/src/pages/InvoiceForm.jsx:132-147 | lines with an id, a name and a quantity of at least 1 and an accepted payment method make a payload the schema accepts |
| CartContext.AddToCart | frontend/src/context/CartContext.js:24-34 | a new product is appended with qty 1; a product in the cart gains one unit on each of its entries and everything else is unchanged |
| CartContext.AddToCartKeepsIdsUnique | frontend/src/context/CartContext.js:24-34 | adding keeps one entry per product, and the product is in the cart afterwards |
| CartContext.AddExistingIncrementsOnlyIt | frontend/src/context/CartContext.js:26-31 | in a cart without repeated ids, adding a present product raises only its quantity, by one |
| CartContext.RemoveFromCart | frontend/src/context/CartContext.js:37-39 | exactly the entries with another id remain, and none with that id |
| CartContext.RemoveFromCartInOrder | frontend/src/context/CartContext.js:37-39 | the remaining entries keep their order: removal from a split cart is the removal from each part, one after the other, and a single entry stays exactly when its id differs |
| CartContext.RemoveAbsentIsIdentity | frontend/src/context/CartContext.js:37-39 | removing an id not in the cart changes nothing |
| CartContext.UpdateQty | frontend/src/context/CartContext.js:42-46 | the entries with that id get the quantity, with no bounds check; all others are unchanged |
| CartContext.UpdateQtyProperties | frontend/src/context/CartContext.js:42-46 | ids are kept (so uniqueness is kept) and setting the same quantity twice equals setting it once |
| CartContext.ClearCart | frontend/src/context/CartContext.js:49-51 | the cart is empty |
| Money.Round2 | Backend/model/Customer.js:46 | `Number(x.toFixed(2))` on an exact amount: a whole number of cents within half a cent of `x` |
| Money.Round2OfCents | Backend/model/Customer.js:46 | a whole-cent amount is left as it is |
| Money.AdjustExact | Backend/model/Customer.js:46 | on whole-cent amounts the adjusted balance is exactly balance + amount |
| Money.AdjustCompose | Backend/model/Supplier.js:55 | two whole-cent adjustments compose additively into one by their sum |
| Money.AdjustDirection | Backend/model/Supplier.js:54-55 | a positive amount raises the balance, a negative one lowers it, and nothing keeps it from going below zero |
| Money.AdjustBounded | Backend/model/Supplier.js:55 | for any amounts the new balance is whole cents within half a cent of the exact sum |
| Customer.Customer.constructor | Backend/model/Customer.js:4-41 | name and phone trimmed, email trimmed and lower-cased, address and notes default to "" and the credit balance to 0 |
| Customer.Customer.AdjustCredit | Backend/model/Customer.js:44-48 | the balance becomes balance + amount rounded to cents and no other field changes; the save succeeds exactly when name and phone are present and the phone is held by no other customer |
| Customer.EmailNormalised | Backend/model/Customer.js:16-20 | the stored email has no ASCII capital and no surrounding white space, and normalising it again changes nothing |
| Supplier.Supplier.constructor | Backend/model/Supplier.js:4-50 | name and phone trimmed, email trimmed and lower-cased, address and notes default to "", the balance to 0 and the payment terms to "Cash" |
| Supplier.Supplier.AdjustOutstanding | Backend/model/Supplier.js:53-57 | the balance becomes balance + amount rounded to cents and no other field changes; the save succeeds exactly when a name is present |
| JsSet.OrderedSet.Empty | frontend/src/pages/Dashboard.jsx:169 | `new Set()` holds nothing |
| JsSet.OrderedSet.constructor | frontend/src/pages/setting.jsx:436 | `new Set(arr)` holds the elements of `arr` once each, in the order of their first occurrence |
| JsSet.OrderedSet.Add | frontend/src/pages/setting.jsx:437 | adding a present element changes nothing; a new one goes at the end |
| JsSet.OrderedSet.Delete | frontend/src/pages/setting.jsx:437 | exactly the element is removed; the others keep their order |
| SettingsPage.DefaultsConsistent | frontend/src/pages/setting.jsx:24-44 | the defaults have a non-negative tax, a discount cap within [0, 100], no repeated payment method and an enabled default |
| SettingsPage.ResetDefaults | frontend/src/pages/setting.jsx:262-265 | whatever the settings were, they become the defaults, a consistent state |
| SettingsPage.ClampTax | frontend/src/pages/setting.jsx:386 | the tax is never below 0, and a non-negative entry is kept |
| SettingsPage.ClampDiscount | frontend/src/pages/setting.jsx:408 | the maximum discount lies in [0, 100]: entries inside are kept, those below become 0 and those above 100 |
| SettingsPage.SetTaxPct | frontend/src/pages/setting.jsx:385-391 | only the tax percentage changes, to its clamped value |
| SettingsPage.SetMaxDiscount | frontend/src/pages/setting.jsx:407-413 | only the maximum discount changes, to its clamped value |
| SettingsPage.ClampsKeepConsistent | frontend/src/pages/setting.jsx:386-412 | the clamps are idempotent and whatever the user types the settings stay consistent |
| SettingsPage.ToggleMethod | frontend/src/pages/setting.jsx:434-446 | the `Set`-based toggle gives the settings with `Toggle` of the payments and nothing else changed |
| SettingsPage.ToggleSpec | frontend/src/pages/setting.jsx:436-438 | toggling flips exactly `m`'s membership, leaves no repetitions, keeps the other methods in their order and appends `m` when it was off |
| SettingsPage.ToggleDefault | frontend/src/pages/setting.jsx:439-441 | the default stays when still enabled, else becomes the first enabled method, else "" |
| SettingsPage.ToggleTwice | frontend/src/pages/setting.jsx:436-437 | toggling twice restores the set of enabled methods, and the very list when the method was off and the list had no repetitions |
| SettingsPage.ToggleKeepsConsistent | frontend/src/pages/setting.jsx:434-446 | after a toggle the default is enabled (or "" with none enabled) and the settings stay consistent |
| SettingsPage.ToJson | frontend/src/pages/setting.jsx:55 | the stored and exported object has exactly the five sections |
| SettingsPage.Load | frontend/src/pages/setting.jsx:48-54 | the defaults for nothing stored, a syntax error or a falsy value; otherwise the parsed value as it is |
| SettingsPage.LoadAfterSave | frontend/src/pages/setting.jsx:48-55 | saved settings are loaded back unchanged |
| SettingsPage.IndexKeys | frontend/src/pages/setting.jsx:286 | spreading an array gives, under each index key "0", "1", …, the element at that index |
| SettingsPage.IndexKeysExact | frontend/src/pages/setting.jsx:286 | the spread holds the index keys and nothing else, each with its element |
| SettingsPage.Import | frontend/src/pages/setting.jsx:279-294 | a syntax error keeps the settings; otherwise `{ ...DEFAULTS, ...parsed }`: each parsed key wins and every other default key stays, with no further keys |
| SettingsPage.ImportExported | frontend/src/pages/setting.jsx:267-286 | an exported file imports back to exactly the settings it holds |
| SettingsPage.ImportEmptyIsDefaults | frontend/src/pages/setting.jsx:286 | importing a value with no own keys gives the defaults |
| SettingsPage.ImportIsShallow | frontend/src/pages/setting.jsx:286 | the merge is shallow: an imported section replaces the default one whole |
| AddProduct.HandleChange | frontend/src/pages/AddProduct.jsx:94-103 | exactly the named field is set; changing the category also sets the SKU to the value's first four characters in upper case (or "PRD") and the time; every other field is kept |
| AddProduct.FormSkuMatchesModelDefault | frontend/src/pages/AddProduct.jsx:99-102 | the SKU the form shows for a category is the one the product model's pre-save hook derives from the same category at the same time |
| AddProduct.LastIdForFound | frontend/src/pages/AddProduct.jsx:177-179 | an id found under a key belongs to a category whose lower-cased name is that key |
| AddProduct.LastIdForComplete | frontend/src/pages/AddProduct.jsx:177-179 | every category can be found under its lower-cased name |
| AddProduct.CategoryMap | frontend/src/pages/AddProduct.jsx:176-179 | the lookup built by the loop holds, under each lower-cased name, the id of the last category with that name, and nothing else |
| AddProduct.Resolve | frontend/src/pages/AddProduct.jsx:181-187 | every row is sent exactly when each has a category that resolves, each with its category replaced by the id; otherwise there is a first failing row, all rows before it resolve, and the result is `NoCategory` exactly when that row has no category column, otherwise `NotFound` with that row's category text |
| AddProduct.HandleBulkUpload | frontend/src/pages/AddProduct.jsx:171-187 | no rows only warns; otherwise the rows are resolved against the lookup built from the categories |
| AddProduct.SentRowsReferToCategories | frontend/src/pages/AddProduct.jsx:181-186 | a sent row names the id of a category whose name matches the row's case-insensitively, and keeps its other fields |
| AddProduct.UnknownCategoryStopsUpload | frontend/src/pages/AddProduct.jsx:182-185 | a row whose category matches no category's name stops the whole upload |
| ReportChart.ItemName | frontend/src/components/ReportChart.jsx:36 | a line's group name is never empty: a missing or empty name is filed as "Unknown" |
| ReportChart.WeekOfMonthRange | frontend/src/components/ReportChart.jsx:52 | `Math.ceil(day / 7)` puts days 1 to 31 in weeks 1 to 5, seven consecutive days to a week |
| ReportChart.ItemPairs | frontend/src/components/ReportChart.jsx:35-39 | one (name, total) contribution per invoice line, in order, with the missing-field defaults |
| ReportChart.AddItems | frontend/src/components/ReportChart.jsx:35-39 | the inner loop adds every line of an invoice to the running totals |
| ReportChart.Group | frontend/src/components/ReportChart.jsx:26-69 | the loop over invoices leaves in `grouped` the running totals of every contribution: lines by name under the product filter, dated net totals by period key otherwise |
| ReportChart.GroupData | frontend/src/components/ReportChart.jsx:26-72 | the chart rows are the grouped entries, keyed in order of first appearance |
| ReportChart.GroupRows | frontend/src/components/ReportChart.jsx:67-71 | each chart row's sales are the sum of the contributions filed under its name; names do not repeat; every contributed name has a row |
| ReportChart.PairsSum | frontend/src/components/ReportChart.jsx:29-69 | the contributions add up to the line totals under the product filter and to the dated invoices' net totals otherwise |
| ReportChart.GroupTotal | frontend/src/components/ReportChart.jsx:26-71 | the chart's sales add up to the dated net totals under a time filter and to all line totals under the product filter |
| ReportChart.UndatedIgnored | frontend/src/components/ReportChart.jsx:43 | under a time filter an undated invoice contributes nothing |
| ReportChart.ComputeKpis | frontend/src/components/ReportChart.jsx:149-172 | revenue is the sum of net totals, the count is the number of invoices, the average is revenue over count (0 with none), and the top product is the first largest line-total name |
| ReportChart.ProductPairsIgnoreFormats | frontend/src/components/ReportChart.jsx:34-41 | grouping by product reads no date, so it does not depend on the date formats |
| ReportChart.TopProductIsBest | frontend/src/components/ReportChart.jsx:163-164 | the top product is "—" exactly when there are no lines (or the best name is itself "—"); otherwise no product's line total exceeds it |
| ReportChart.NamesNonEmpty | frontend/src/components/ReportChart.jsx:159 | no product key is empty, so `|| "—"` only applies when there are no lines |
| ReportChart.AverageTimesCount | frontend/src/components/ReportChart.jsx:169 | with at least one invoice, average times count gives the revenue back |
| ReportChart.ReadFieldBack | frontend/src/components/ReportChart.jsx:104-107 | an escaped field reads back as itself under section 2 of RFC 4180, whatever boundary follows it |
| ReportChart.ReadRecordBack | frontend/src/components/ReportChart.jsx:100 | a line joined with commas reads back as its fields |
| ReportChart.CsvRoundTrip | frontend/src/components/ReportChart.jsx:99-107 | the written CSV text reads back as exactly the rows it was written from, for any non-empty table of non-empty rows |
| ReportChart.EscapeShape | frontend/src/components/ReportChart.jsx:104-107 | a field without a quote, comma or newline is written as it is; one with them is enclosed in quotes |
| ReportChart.AggregatedRows | frontend/src/components/ReportChart.jsx:76-80 | a "Label, Sales" header followed by one row per chart row, in order |
| ReportChart.DetailedRows | frontend/src/components/ReportChart.jsx:82-97 | the header followed by the rows of each invoice's lines, invoice by invoice |
| ReportChart.DetailRowsShape | frontend/src/components/ReportChart.jsx:84-95 | one detailed row per (invoice, line) pair, each five fields wide |
| ReportChart.ExportsReadBack | frontend/src/components/ReportChart.jsx:76-107 | both exports read back as the rows they were built from |
| ProductsPage.NarrowedMultiplicity | frontend/src/pages/Products.jsx:50-65 | the four filter steps keep each product exactly as often as the fetched list holds it when it passes every set filter, and drop it otherwise |
| ProductsPage.FilteredContents | frontend/src/pages/Products.jsx:47-76 | the list shows exactly the products that pass every filter, with their multiplicities, and nothing that was not fetched |
| ProductsPage.FilteredOrder | frontend/src/pages/Products.jsx:67-73 | the price and stock sorts are the stable ascending sorts by that field; the name sort is the stable sort by any ranking of names `localeCompare` follows |
| ProductsPage.FilteredAscending | frontend/src/pages/Products.jsx:68-69 | sorted by price or by stock, the list ascends in that field |
| ProductsPage.Paged | frontend/src/pages/Products.jsx:80 | a page holds at most ten products |
| ProductsPage.KpisBounds | frontend/src/pages/Products.jsx:83-97 | the figures count the shown products and the low-stock ones among them; the average is 0 for none and otherwise between the lowest and highest price; the inventory value is not negative without negative prices or stock |
| ProductsPage.KpisIgnoreSort | frontend/src/pages/Products.jsx:83-97 | the figures depend on which products are shown, not on their order |
| SalesPage.NarrowedMultiplicity | frontend/src/pages/Sales.jsx:52-71 | the four filter steps keep each invoice exactly as often as the fetched list holds it when it passes every set filter, and drop it otherwise |
| SalesPage.FilteredContents | frontend/src/pages/Sales.jsx:48-84 | the list shows exactly the invoices that pass every filter, with their multiplicities |
| SalesPage.FilteredOrder | frontend/src/pages/Sales.jsx:74-81 | the date and total sorts are the stable sorts newest and largest first; the invoice sort, here the corrected one (see Findings), puts the highest number first |
| SalesPage.FilteredDescending | frontend/src/pages/Sales.jsx:74-81 | the list descends in the chosen field, the invoice number by the corrected sort |
| SalesPage.InvNumberIsNaN | frontend/src/pages/Sales.jsx:79 | `Number` of an `INV-…` invoice number is NaN |
| SalesPage.InvoiceSortAsWrittenKeepsOrder | frontend/src/pages/Sales.jsx:78-79 | as written, the invoice sort leaves a list of `INV-…` invoices in the order it was fetched |
| SalesPage.InvoiceSortCounterexample | frontend/src/pages/Sales.jsx:78-79 | INV-k listed before INV-(k+1) stays first as written, while the intended sort puts INV-(k+1) first |
| SalesPage.FilteredAsWrittenOrder | frontend/src/pages/Sales.jsx:74-81 | as written, the date and total sorts give the same list as `Filtered`, and with the invoice sort a list of `INV-…` invoices keeps its fetched order |
| SalesPage.Paged | frontend/src/pages/Sales.jsx:88 | a page holds at most eight invoices |
| SalesPage.LinePairs | frontend/src/pages/Sales.jsx:102-107 | one (name, total) pair per line |
| SalesPage.AddLines | frontend/src/pages/Sales.jsx:102-107 | the inner loop adds every line of an invoice to the product totals |
| SalesPage.ComputeKpis | frontend/src/pages/Sales.jsx:91-114 | revenue is the sum of the shown net totals, the count their number, the average revenue over count (0 with none), and the top product the first largest line-total name |
| SalesPage.TopProductIsBest | frontend/src/pages/Sales.jsx:99-111 | with no line sold the top product is "—"; otherwise it is a sold name and no product's summed line total exceeds its own |
| SalesPage.RevenueIgnoresSort | frontend/src/pages/Sales.jsx:91-97 | revenue and count do not depend on the chosen sort |
| SalesPage.AverageWithinAmounts | frontend/src/pages/Sales.jsx:97 | the average lies between the smallest and largest shown amount |
| Paging.TotalPages | frontend/src/pages/Products.jsx:79 | `Math.ceil(n / size)` is the fewest pages of `size` rows that hold `n` rows, zero only for no rows |
| Paging.Page | frontend/src/pages/Products.jsx:80 | a page is the slice from (page-1)·size to page·size, clamped to the list, and no longer than `size` |
| Paging.FirstPagesArePrefix | frontend/src/pages/Sales.jsx:88 | the first k pages together are the list's first k·size rows |
| Paging.PagesCoverList | frontend/src/pages/Sales.jsx:87-88 | all pages together are the whole list, in order: no row lost or repeated |
| Paging.PagerInRange | frontend/src/pages/Products.jsx:253-266 | on a non-empty list the Prev and Next buttons keep the page within 1 to the page count, and every such page shows at least one row |
| Paging.PagerHiddenShowsAll | frontend/src/pages/Sales.jsx:252-271 | the Prev/Next pager is rendered exactly when the rows do not fit on one page; when it is hidden, page 1 shows the whole list |
| Dashboard.ToArray | frontend/src/pages/Dashboard.jsx:24-32 | the loop over the candidate fields returns what `Unwrapped` describes: an array as it is, the first candidate array of an object, [] otherwise |
| Dashboard.FirstListSpec | frontend/src/pages/Dashboard.jsx:27-31 | the array found is the one under the first candidate key holding an array; with none the result is [] |
| Dashboard.ToArraySpec | frontend/src/pages/Dashboard.jsx:24-32 | an array is returned unchanged; null, undefined and scalars give []; an object gives its first candidate array, [] when none is |
| Dashboard.DateFilterSpec | frontend/src/pages/Dashboard.jsx:124-133 | an invoice is kept, as often as it occurs, exactly when its time lies within the given bounds, both inclusive; with no bounds every invoice is kept |
| Dashboard.LowStockSpec | frontend/src/pages/Dashboard.jsx:140-143 | the low-stock count is at most the number of products, adds up over two lists, and a product without a stock figure counts as low |
| Dashboard.AllCategories | frontend/src/pages/Dashboard.jsx:168-175 | the list read back from the Set is the truthy category names in order of first appearance, without repeats |
| Dashboard.TruthyNamesSpec | frontend/src/pages/Dashboard.jsx:170-173 | a name is collected exactly when some product has it as its truthy category name |
| Dashboard.AllCategoriesSpec | frontend/src/pages/Dashboard.jsx:168-175 | the category list names each category some product has, once each, never a blank name |
| Dashboard.DatePairs | frontend/src/pages/Dashboard.jsx:179-185 | one (day label, amount) pair per invoice, an undated invoice labelled by the current time |
| Dashboard.SalesByDate | frontend/src/pages/Dashboard.jsx:177-187 | the loop leaves the running totals of the day pairs |
| Dashboard.DatePairsSum | frontend/src/pages/Dashboard.jsx:184 | the day pairs add up to the total revenue |
| Dashboard.SalesByDateSpec | frontend/src/pages/Dashboard.jsx:177-187 | one point per day label in order of first appearance, each with the summed amounts of its invoices; the points add up to the total revenue |
| Dashboard.CategoryData | frontend/src/pages/Dashboard.jsx:189-199 | the loop with its early returns leaves the running totals of the charted products' stock values |
| Dashboard.CategoryPairsSpec | frontend/src/pages/Dashboard.jsx:191-197 | the pairs add up to the charted stock value, and no key is blank or, with a category selected, any other category |
| Dashboard.CategoryDataSpec | frontend/src/pages/Dashboard.jsx:189-199 | one slice per charted category, none blank and none but the selected one; each sums price times stock over its products, and the slices add up to the charted stock value |
| Dashboard.RecentSalesSpec | frontend/src/pages/Dashboard.jsx:201-204 | at most six invoices are shown, all of them filtered ones |
| Dashboard.RecentSalesDated | frontend/src/pages/Dashboard.jsx:202 | when every invoice is dated, the shown ones are the newest six, newest first, and none left out is newer than one shown |
| CategoryManager.HandleSubmit | frontend/src/pages/CategoryManager.jsx:34-65 | a blank name (after trimming) is refused with no request; otherwise an update of the edited category or a creation, sending the name as typed and an empty parent as null |
| CategoryManager.AfterSaved | frontend/src/pages/CategoryManager.jsx:67-77 | after an accepted save the form is emptied and editing ends |
| CategoryManager.HandleEdit | frontend/src/pages/CategoryManager.jsx:84-88 | editing loads the category's name and its parent id, "" when it has none |
| CategoryManager.EditThenSubmit | frontend/src/pages/CategoryManager.jsx:34-88 | editing and saving unchanged sends an update of that category with its own name and the parent the tree files it under; a blank-named category cannot be saved back |
| CategoryManager.ToggleExpand | frontend/src/pages/CategoryManager.jsx:117-119 | toggling flips the one category's flag, a missing flag reading as closed, and keeps every other flag |
| CategoryManager.ToggleTwice | frontend/src/pages/CategoryManager.jsx:117-119 | toggling twice restores every flag as the page reads it |
| CategoryManager.AtLevelAppend | frontend/src/pages/CategoryManager.jsx:122-169 | the categories at a level of two runs of lines are those of each, in order |
| CategoryManager.AtLevelDeeper | frontend/src/pages/CategoryManager.jsx:166 | a nested subtree holds no line at its parent's level |
| CategoryManager.WellNestedAppend | frontend/src/pages/CategoryManager.jsx:123-169 | sibling blocks that are each well nested form a well-nested run |
| CategoryManager.BlockNested | frontend/src/pages/CategoryManager.jsx:131-167 | a category's line followed by its expanded subtree is well nested |
| CategoryManager.NoShallowerAppend | frontend/src/pages/CategoryManager.jsx:123-169 | two runs at or below a level make one |
| CategoryManager.RenderTop | frontend/src/pages/CategoryManager.jsx:122-169 | the lines at the starting level are exactly the given categories, in order, and no line is shallower |
| CategoryManager.RenderNested | frontend/src/pages/CategoryManager.jsx:122-169 | every deeper line comes after a line one level up for its parent, and that parent is expanded |
| CategoryManager.CategoryTreeSpec | frontend/src/pages/CategoryManager.jsx:122-170 | the tree's top lines are the categories filed under the parent, in list order, and every other line is nested under an expanded parent |
| CategoryManager.HasChildrenIffSubtree | frontend/src/pages/CategoryManager.jsx:126-166 | a category shows a toggle exactly when the tree has categories to list under it |
| Authorize.Request.constructor | Backend/middleware/authorize.js:4-5 | a request starts with its authorization header and no decoded user |
| Authorize.Protect | Backend/middleware/authorize.js:4-18 | 401 without a token, 403 when verification fails, otherwise `next` with the decoded payload stored as the user; the header is never changed and the user is written only on success |
| Authorize.ProtectCases | Backend/middleware/authorize.js:5-17 | each of the three answers holds exactly when its condition does: no non-empty second word, a word that fails verification, a word that passes |
| Authorize.BearerHeaderToken | Backend/middleware/authorize.js:5 | for a `Bearer <t>` header with `t` free of spaces the token is `t` |
| Authorize.AnySchemeToken | Backend/middleware/authorize.js:5 | the scheme word is not checked, and only the text up to the next space is the token |
| Authorize.OneWordHeader | Backend/middleware/authorize.js:5-9 | a header without a space carries no token and gets 401 |
| Authorize.AuthorizeOutcome | Backend/middleware/authorize.js:21-28 | `next` exactly when the user's role is listed, 403 "Access denied" for any other user, and a throw when no user was stored |
| Authorize.Authorize | Backend/middleware/authorize.js:22-27 | the role check answers as `AuthorizeOutcome` on the request's user and changes nothing |
| Authorize.GuardedRoute | Backend/middleware/authorize.js:4-28 | behind `protect`, `authorize` never throws, and the route is reached exactly when the token verifies to a payload with a listed role |
| Authorize.Guard | Backend/middleware/authorize.js:4-28 | the two guards in sequence answer as the chained outcome and keep the header |
| AuthMiddleware.BearerPiece | Backend/rolebaseUser/authMiddleware.js:8-12 | for a header starting with `Bearer `, the second space-separated word is the first word after the prefix |
| AuthMiddleware.BearerToken | Backend/rolebaseUser/authMiddleware.js:12 | the token is the second space-separated word of the header |
| AuthMiddleware.Authenticate | Backend/rolebaseUser/authMiddleware.js:5-21 | 401 "no token" for a missing or non-Bearer header, 401 "Invalid or expired token" when verification fails (an empty token included), otherwise `next` with the decoded user stored; the header is kept |
| AuthMiddleware.OutcomeCases | Backend/rolebaseUser/authMiddleware.js:8-20 | every refusal is a 401; the "no token" answer comes exactly for a non-Bearer header, and `next` exactly when the Bearer token verifies |
| AuthMiddleware.BearerHeaderToken | Backend/rolebaseUser/authMiddleware.js:8-12 | `Bearer <t>` with `t` free of spaces is a Bearer header whose token is `t` |
| AuthMiddleware.AgreesWithProtect | Backend/rolebaseUser/authMiddleware.js:3-21 | on a Bearer header, when the two verifiers (this middleware's literal secret, `protect`'s configured one) agree on the token, this middleware and `protect` pass together and store the same user; a refused token is 401 here and 403 in `protect` |
| AuthMiddleware.SecretsDisagree | Backend/rolebaseUser/authMiddleware.js:3-19 | when the secrets differ, a token only `protect`'s secret accepts passes `protect` and is refused here with 401 |
| AuthMiddleware.OtherSchemeRefused | Backend/rolebaseUser/authMiddleware.js:8 | a token `protect`'s verifier accepts, sent under another scheme, is refused here whatever this middleware's verifier says, while `protect` lets it through |
| InvoiceController.NumberAfterNines | Backend/controller/Invoice.js:9-10 | the number after INV-9999 is INV-10000 |
| InvoiceSchema.InvoiceDoc.constructor | Backend/model/invoiceSchema.js:3-66 | a new document holds the invoice's fields, its lines in a fresh array |
| InvoiceForm.SameAmounts | frontend/src/pages/InvoiceForm.jsx:132-147 | lines sent with the screen's quantities and prices have the amounts the screen shows |
| ProductController.FreshAfterSave | Backend/controller/productcontroler.js:72-73 | with distinct new ids, the ids after one just used are still free |
| ProductController.ExtendsStep | Backend/controller/productcontroler.js:41-74 | saving one product and then the rest adds exactly the products under this request's ids |
| CategoryController.PutKeepsNamesStored | Backend/controller/categoryController.js:18-23 | storing a category with a present, trimmed name keeps every stored name present and trimmed |
| CategoryController.PutKeepsNamesUnique | Backend/controller/categoryController.js:18-23 | storing a name no other category holds keeps the names unique |
| ProductModel.ProductDoc.Load | Backend/controller/productcontroler.js:104 | a document loaded from the collection holds the stored product |
| Tally.TallyOfSpec | frontend/src/components/ReportChart.jsx:27-68 | the running totals hold each key once, in order of first appearance, with the sum of its values, and nothing else |
| Tally.TallyTotal | frontend/src/pages/Dashboard.jsx:178-186 | the totals per key add up to the sum of all values |
| Tally.TopKey | frontend/src/components/ReportChart.jsx:163-164 | the first entry after sorting by total, descending, has the largest total; there is none only for an empty map |
| Tally.FirstIsLargest | frontend/src/pages/Sales.jsx:109-111 | the head of the entries sorted by descending total is an entry whose total no other key exceeds |
| Authorize.HeaderToken | Backend/middleware/authorize.js:5 | the second space-separated word of the header, none without a header or second word; BearerHeaderToken, AnySchemeToken and OneWordHeader prove its shape |
| Authorize.ProtectOutcome | Backend/middleware/authorize.js:4-18 | the three answers of `protect` on a header and a verifier; ProtectCases proves when each holds |
| AuthMiddleware.Outcome | Backend/rolebaseUser/authMiddleware.js:5-21 | the answers of `authenticate` on a header and a verifier; OutcomeCases and AgreesWithProtect prove them |
| CategoryManager.CategoryTree | frontend/src/pages/CategoryManager.jsx:122-170 | the lines of the tree under a parent id; CategoryTreeSpec proves their shape |
| CategoryManager.Render | frontend/src/pages/CategoryManager.jsx:123-169 | the lines of a list of sibling categories, each followed by its subtree when expanded; RenderTop and RenderNested prove their order and nesting |
| Dashboard.FilteredInvoices | frontend/src/pages/Dashboard.jsx:124-133 | the invoices within the date bounds; DateFilterSpec proves which are kept |
| Dashboard.TotalRevenue | frontend/src/pages/Dashboard.jsx:135-137 | the sum of the filtered invoices' net totals; DatePairsSum and SalesByDateSpec prove the day chart adds up to it |
| Dashboard.LowStockCount | frontend/src/pages/Dashboard.jsx:140-143 | the number of products with a stock below 5, a missing stock counting as 0; LowStockSpec proves its bounds |
| Dashboard.RecentCompare | frontend/src/pages/Dashboard.jsx:202 | the comparator of the recent-sales list, newest first; RecentSalesDated proves the order it gives |
| Dashboard.RecentSales | frontend/src/pages/Dashboard.jsx:201-204 | the first six filtered invoices after that sort; RecentSalesSpec and RecentSalesDated prove what they are |
| ProductsPage.Narrowed | frontend/src/pages/Products.jsx:50-65 | the products passing the search, category, minimum and maximum price filters; NarrowedMultiplicity and FilteredContents prove which |
| ProductsPage.Filtered | frontend/src/pages/Products.jsx:47-76 | the narrowed products under the chosen sort; FilteredContents and FilteredOrder prove contents and order |
| ProductsPage.ComputeKpis | frontend/src/pages/Products.jsx:83-97 | the four product figures; KpisBounds and KpisIgnoreSort prove them |
| SalesPage.Narrowed | frontend/src/pages/Sales.jsx:52-71 | the invoices passing the four filter steps; NarrowedMultiplicity proves which and how often |
| SalesPage.Filtered | frontend/src/pages/Sales.jsx:48-84 | the narrowed invoices under the chosen sort, the invoice sort corrected; FilteredContents, FilteredOrder and FilteredDescending prove it |
| SalesPage.Compare | frontend/src/pages/Sales.jsx:74-81 | the date, total and (corrected) invoice comparators; FilteredOrder proves the order each gives |
| SalesPage.InvoiceCompare | frontend/src/pages/Sales.jsx:78-79 | the evidently intended invoice comparator, the higher number first |
| SalesPage.InvoiceCompareAsWritten | frontend/src/pages/Sales.jsx:78-79 | the invoice comparator as written, subtracting `Number` of the numbers; InvoiceSortAsWrittenKeepsOrder proves its effect |
| SalesPage.FilteredAsWritten | frontend/src/pages/Sales.jsx:48-84 | the list with the invoice comparator as written; FilteredAsWrittenOrder relates it to `Filtered` |
| ProductController.GenerateSku | Backend/controller/productcontroler.js:6-9 | the controller's SKU from the category name and the time; GenerateSkuShape proves its shape |
| ProductModel.DefaultSku | Backend/model/product.model.js:47-48 | the model's default SKU from the category value and the time; SkuFromParts and SkuFromTimeInjective prove its shape |
| ReportChart.EscapeCSV | frontend/src/components/ReportChart.jsx:104-107 | a CSV field, quoted with inner quotes doubled when it holds a comma, quote or newline; EscapeShape proves its shape and CsvRoundTrip that it reads back as the field |
| ReportChart.CsvText | frontend/src/components/ReportChart.jsx:99-107 | the CSV text: each row's escaped fields joined by commas, the rows joined by newlines; CsvRoundTrip proves the rows read back from it |
| ReportChart.DetailRows | frontend/src/components/ReportChart.jsx:84-95 | one CSV row per invoice line, with the invoice's number, date and customer; DetailRowsShape proves the row count |
| ReportChart.WeekOfMonth | frontend/src/components/ReportChart.jsx:52 | `Math.ceil(day / 7)`; WeekOfMonthRange proves days 1 to 31 fall in weeks 1 to 5 |
| ReportChart.TimeKey | frontend/src/components/ReportChart.jsx:46-65 | the grouping key of an invoice for the daily, weekly, monthly and yearly views |
| InvoiceSchema.Hook | Backend/model/invoiceSchema.js:69-90 | the pre-save hook on a document; HookTotals, HookNumber and HookIdempotent prove its totals, number and idempotence |
| InvoiceSchema.FallbackNumber | Backend/model/invoiceSchema.js:72 | `INV-`, the time, `-` and a random whole number below 1000, used only when a document comes without a number; FallbackNumberPieces proves its pieces |
| VendorUtils.VendorCode | Backend/controller/vendor/vendorController.js:11 | `VEND-` and the value padded to five digits; VendorCodeDigits and VendorCodeInjective prove its shape and injectivity |
| Paging.NextPage | frontend/src/pages/Products.jsx:263-266 | the Next button: one page on unless it is the last; PagerInRange proves the bounds |
| Paging.PrevPage | frontend/src/pages/Products.jsx:253-256 | the Prev button: one page back unless it is the first; PagerInRange proves the bounds |
| Tally.TallyOf | frontend/src/pages/Dashboard.jsx:178-186 | the running totals of key and amount pairs in insertion order; TallyOfSpec and TallyTotal prove them |
| Tally.Entries | frontend/src/components/ReportChart.jsx:71 | the entries of the totals in insertion order; TopKey and FirstIsLargest prove the largest one |
| AddProduct.LastIdFor | frontend/src/pages/AddProduct.jsx:177-179 | the id under a lower-cased name: the last category with that name; LastIdForComplete and CategoryMap prove it |
| Lists.SortByStable | frontend/src/pages/Products.jsx:67-73 | the stable sort keeps the elements with one key in their original relative order |

## Left out

- Network, storage and rendering are not modelled. This covers HTTP routing, fetch and axios calls, mongoose query internals, `localStorage`, JSX, charts, toasts and PDF output. Each collection is a map or a sequence in a class, and each request is one method call.
- Password hashing, token issuance and the signing secrets are not modelled. `jwt.verify` with a secret is a parameter, a partial function from a token to its decoded claims. `protect` and the Bearer middleware each get their own (`protectCheck` and `check`), because one reads the environment secret and the other a hard-coded one; AuthMiddleware.AgreesWithProtect and AuthMiddleware.SecretsDisagree relate them.
- A decoded token payload is the `Jwt.Claims` datatype: an optional user id and an optional role.
- Authorize.AuthorizeOutcome: `Throws` stands for the TypeError raised by reading the role of an unset `req.user`. Express would answer it with 500; that answer is not modelled.
- Express reads request headers case-insensitively. The model gives the Authorization header as one optional string.
- Floating-point behaviour is not modelled: the IEEE rounding of `toFixed(2)`, of the tax percentage, and of `Number` on large or fractional inputs. All amounts are exact reals.
- Concurrency is not modelled: the read-then-increment race of the invoice numbering, and the atomicity of `findOneAndUpdate` with `$inc`. Calls are sequential, and a counter increment is one step.
- Barcode images (`bwip-js`), `Date.now()`, `Math.random()` and fresh ObjectIds are parameters. A fresh id is required not to be in the collection, which is what the database guarantees.
- Dates are timestamps given as integers. An invalid date (`NaN`) is not modelled. The dashboard's date fields are given as the times they denote, `None` when a field is missing or empty.
- SalesPage.ToNumber: only a string of ASCII digits counts as a number. JavaScript's `Number` also accepts blanks, signs, decimals and exponents; invoice numbers of the form `INV-…` are `NaN` either way.
- Lists.SortWith: a comparator that is not a consistent order, such as one mixing `NaN` results, yields the order of the stable insertion sort. The engine's own algorithm may order such input differently.
- Tally.Entries: `Object.entries` lists integer-like keys first, in ascending order. The model keeps insertion order for every key, as a `Map` does. This affects the order of the dashboard's per-day and per-category points only when a key looks like an integer.
- ProductsPage.FilteredOrder: the name sort goes through the `collate` parameter for `localeCompare`. It is proved to be the stable sort by any ranking of names that `collate` follows.
- The products page's category select list and the dashboard's customer count (only the number of fetched rows) are not modelled.
- CategoryManager.CategoryTree: the recursion carries a `fuel` bound on its depth. With enough fuel an acyclic tree is rendered in full. With parent links that form a cycle the page itself would not terminate; the model cuts the cycle off at the bound.
- AddProduct.LastIdFor: the category lookup of the bulk upload is a plain object, so keys such as `constructor` that it inherits from `Object.prototype` are not modelled.
- `getAllProducts`, the customer and supplier controllers, the user controllers, the sales PDF controller and `utils/generateSKU.js` are not modelled. They forward to the store, write files or issue tokens.
- The invoice screen's `downloadPDF` and `printInvoice` (jsPDF and `window.print`) are not modelled.
- InvoiceController.InvoiceStore.CreateInvoice: it numbers invoices with the corrected `NextInvoiceNumber` (see Findings). It is therefore deliberately not the code as written. The code as written is `GenerateInvoiceNumber`, proved to repeat numbers.
- SalesPage.Compare: the "invoice" sort uses the corrected `InvoiceCompare` (see Findings). It is therefore deliberately not the code as written. The code as written is `InvoiceCompareAsWritten`, proved to leave the list unsorted.
- SalesPage.Filtered, SalesPage.FilteredOrder, SalesPage.FilteredDescending: they use the corrected invoice comparator. The list as the code sorts it is `SalesPage.FilteredAsWritten`, and `SalesPage.FilteredAsWrittenOrder` states what it is.
- Text.Lower, Text.Upper: `toLowerCase` and `toUpperCase` map only the ASCII letters; other characters stay as they are. JavaScript also maps other letters (É to é, ß to SS), so a case-insensitive match between non-ASCII names is missed by the model. This touches AddProduct.Resolve, AddProduct.UnknownCategoryStopsUpload, AddProduct.LastIdFor and the search filters of InvoiceForm.FilteredProducts, ProductsPage.Narrowed and SalesPage.Narrowed.
- Text.Trim: a string is a sequence of Unicode characters, while JavaScript's `length` and `substring` count UTF-16 code units; characters outside the Basic Multilingual Plane count once here and twice there.
- SkuFromParts (ProductModel.SkuFromParts): the bound of at most `n` code characters holds for the ASCII upper case of the model. JavaScript's `toUpperCase` can lengthen a string ("ß" becomes "SS"), so the source's code can be longer than `n`.
- GenerateSkuShape (ProductController.GenerateSkuShape): the same ASCII-only bound as SkuFromParts, for the three-character code of the controller.
- EmailNormalised (Customer.EmailNormalised): the `lowercase` setter folds every capital; the model folds the ASCII ones, so a non-ASCII capital stays in the model's stored email.
- Step (ProductController.Step), Update (ProductController.Update): ids are taken to be well-formed ObjectIds. A category id that is not one makes `Category.findById` throw a CastError, which the catch answers with 500; the model answers 400 as for an unknown category.
- Assign (ProductModel.Assign), Update (ProductController.Update): the body's fields are options, and an explicit `null` in a JSON body reads as an absent field. `Object.assign` copies a `null`, so `{ "stock": null }` empties the stock, the schema's required check fails and the answer is 500; the model keeps the stored stock and can answer 200. A `null` for an optional field (the description, the image) is likewise stored by the source and ignored by the model.
- GetCategoryById (CategoryController.CategoryStore.GetCategoryById), UpdateCategory (CategoryController.CategoryStore.UpdateCategory), DeleteCategory (CategoryController.CategoryStore.DeleteCategory): a malformed id makes the lookup throw a CastError, answered 500 by the catch; the model answers 404.
- CreateCategory (CategoryController.CategoryStore.CreateCategory): a `parentCategory` that is not a well-formed ObjectId fails the cast on save, answered 500; the model stores it.
- GetInvoiceById (InvoiceController.InvoiceStore.GetInvoiceById), DeleteProduct (ProductController.ProductStore.DeleteProduct): a malformed id makes the lookup throw a CastError, answered 500; the model answers 404.
- UpdateCategory (CategoryController.CategoryStore.UpdateCategory): the duplicate check compares the trimmed name, because Mongoose runs the schema's `trim` setter on query filters. Without that casting the untrimmed filter would miss a padded duplicate and the unique index would refuse the save with 500.
- ProductsPage.Paged: it states only the page size of ten. What a page holds is stated by Paging.Page, Paging.FirstPagesArePrefix and Paging.PagesCoverList.
- SalesPage.Paged: it states only the page size of eight. What a page holds is stated by the same Paging lemmas.

## Findings

| source | as written | input that shows it | evidently intended | confidence | as-written member | corrected member |
|---|---|---|---|---|---|---|
| Backend/controller/Invoice.js:5-10 | the last invoice is the greatest `invoice_number` as a string, and the next number is its successor | INV-9999 and INV-10000 are stored: "INV-9999" is the string-greatest, so the next number is INV-10000 again; the unique index rejects it, and every later invoice fails the same way | the next number follows the numerically greatest stored number | high (not executed) | InvoiceController.InvoiceStore.GenerateInvoiceNumber, InvoiceController.LexicographicNumberingRepeats | InvoiceController.InvoiceStore.NextInvoiceNumber |
| frontend/src/pages/Sales.jsx:78-79 | the "invoice" sort subtracts the invoice numbers as numbers | the invoices are INV-1001 then INV-1002: `Number("INV-…")` is `NaN`, so every comparison counts as equal and the list keeps its fetched order | the highest invoice number first | high (not executed) | SalesPage.InvoiceCompareAsWritten, SalesPage.InvoiceSortAsWrittenKeepsOrder, SalesPage.InvoiceSortCounterexample, SalesPage.FilteredAsWrittenOrder | SalesPage.InvoiceCompare |
