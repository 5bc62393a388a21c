# IHMS hospital system — a verified model of its services and portal screens

IHMS is a hospital information system: Spring services for patients,
appointments, pharmacy, billing and authentication, plus an Angular portal.
This project models in Dafny the core of those services and the portal screens
that drive them, and proves what they promise.

**Services.** Each service is a `class` whose fields are its tables. A table is a
`map` from the generated id to the stored row, and `nextId` is the identity
column's next value. Each service method changes those fields the way the Java
method changes the database, and its `ensures` states the whole new state. An
operation that throws becomes an `Err` of the exception it raises
(`Wrappers.Error`), with the tables left as they were; `@Transactional` means all
or nothing.

**Pure decisions.** The pure decision behind each service operation is a
function next to the class: `CreateOutcome`, `UpdateOutcome`, `LoginOutcome`,
`DispenseFrom`, `BillingSummary` and so on. Lemmas about those functions state
the properties the code relies on:
- unique SKUs, e-mails, usernames and numbers stay unique;
- a prescription can be dispensed exactly when the stock covers it;
- a billing summary moves by exactly the charge, payment or cancellation;
- a registered user can log in;
- an appointment conflict is found exactly when one exists.

**Entities and repositories.** An entity that the source builds and then fills in
with `@PrePersist` or `addItem` is a class: `Product`, `Invoice`,
`Prescription`, `Appointment`. Its saved form is a datatype row. A repository
is a set of functions over the table: a finder returns the sub-map of the
rows it selects.

**Portal.** Each screen is a class holding the component's fields. An HTTP
call is split in two:
- the method that starts it returns the request it sends;
- a separate method models each callback.

The patient client's URLs and query parameters are functions.

**Inputs.** What the code gets from the outside world is an input of the model:
- the clock;
- date parsing and formatting;
- the password encoder and the JWT issuer;
- the remote patient lookup;
- JavaScript's number and date conversions;
- the user's answer to a confirmation dialog.

## Model

| member | source | states |
|---|---|---|
| ProductEntity.Nullable | pharmacy-service/src/main/java/com/ihms/pharmacy/entity/Product.java:24-66 | a stored product read back as an object holds every `nullable = false` column |
| ProductEntity.ToRow | pharmacy-service/src/main/java/com/ihms/pharmacy/entity/Product.java:24-66 | saving succeeds exactly when every non-null column holds a value, else `NotNullViolation`; the saved row reads back as the same object |
| ProductEntity.ToRowNullable | pharmacy-service/src/main/java/com/ihms/pharmacy/entity/Product.java:24-66 | reading a row back and saving it again gives the same row |
| ProductEntity.WithDefaults | pharmacy-service/src/main/java/com/ihms/pharmacy/entity/Product.java:86-89 | `active` and `taxable` default to true, stock to 0 and the reorder level to 10, each only where null; every other field is kept |
| ProductEntity.WithDefaultsIdempotent | pharmacy-service/src/main/java/com/ihms/pharmacy/entity/Product.java:86-89 | the defaults never overwrite a value, so applying them twice changes nothing more |
| ProductEntity.Product.constructor | pharmacy-service/src/main/java/com/ihms/pharmacy/entity/Product.java:15-18 | the builder sets every field as given |
| ProductEntity.Product.OnCreate | pharmacy-service/src/main/java/com/ihms/pharmacy/entity/Product.java:82-90 | `@PrePersist` leaves the object with the defaults filled in |
| ProductRepository.FindByActiveTrue | pharmacy-service/src/main/java/com/ihms/pharmacy/repository/ProductRepository.java:15 | exactly the active rows |
| ProductRepository.FindByCategory | pharmacy-service/src/main/java/com/ihms/pharmacy/repository/ProductRepository.java:21 | exactly the rows of that category, active or not |
| ProductRepository.FindByCategoryAndActiveTrue | pharmacy-service/src/main/java/com/ihms/pharmacy/repository/ProductRepository.java:23 | the rows both the category finder and the active finder return |
| ProductRepository.FindBySupplierAndActiveTrue | pharmacy-service/src/main/java/com/ihms/pharmacy/repository/ProductRepository.java:40 | exactly the active rows whose supplier is that one; a null supplier matches nothing |
| ProductRepository.SearchByKeyword | pharmacy-service/src/main/java/com/ihms/pharmacy/repository/ProductRepository.java:25-26 | exactly the active rows whose lower-cased name or description contains the lower-cased keyword |
| ProductRepository.FindLowStockProducts | pharmacy-service/src/main/java/com/ihms/pharmacy/repository/ProductRepository.java:28-29 | exactly the active rows whose stock is at or below their reorder level |
| ProductRepository.FindOutOfStockProducts | pharmacy-service/src/main/java/com/ihms/pharmacy/repository/ProductRepository.java:31-32 | exactly the active rows with zero stock |
| ProductRepository.FindAllCategories | pharmacy-service/src/main/java/com/ihms/pharmacy/repository/ProductRepository.java:34-35 | a category is listed exactly when an active product has it |
| ProductRepository.FindAllBrands | pharmacy-service/src/main/java/com/ihms/pharmacy/repository/ProductRepository.java:37-38 | a brand is listed exactly when an active product has it; nulls are excluded |
| ProductRepository.FindBySku | pharmacy-service/src/main/java/com/ihms/pharmacy/repository/ProductRepository.java:17 | nothing exactly when no product has that SKU; a key only when it is the one product with it; `NonUniqueResult` only when two products share it |
| ProductRepository.FindByBarcode | pharmacy-service/src/main/java/com/ihms/pharmacy/repository/ProductRepository.java:19 | nothing exactly when no product has that barcode; a key only when it is the one product with it; `NonUniqueResult` only when two products share it, which the unconstrained column allows |
| ProductRepository.FindBySkuUnique | pharmacy-service/src/main/java/com/ihms/pharmacy/repository/ProductRepository.java:17 | with unique SKUs the SKU finder never fails and finds exactly the row with that SKU |
| ProductRepository.OutOfStockIsLowStock | pharmacy-service/src/main/java/com/ihms/pharmacy/repository/ProductRepository.java:28-32 | with non-negative reorder levels, every out-of-stock product is also a low-stock product |
| ProductRepository.SearchEmptyKeyword | pharmacy-service/src/main/java/com/ihms/pharmacy/repository/ProductRepository.java:25-26 | the empty keyword matches every active product |
| ProductRepository.SearchWithinActive | pharmacy-service/src/main/java/com/ihms/pharmacy/repository/ProductRepository.java:25-26 | a keyword search returns only products the active finder returns |
| ProductService.GeneratedSku | pharmacy-service/src/main/java/com/ihms/pharmacy/service/ProductService.java:87 | a made-up SKU starts with "PRD-" |
| ProductService.Draft | pharmacy-service/src/main/java/com/ihms/pharmacy/service/ProductService.java:85-105 | the builder uses the given SKU or a generated one; stock defaults to 0 and the reorder level to 10; `active` is true; `taxable` defaults to true; every other field is copied |
| ProductService.SkuPresentIffFound | pharmacy-service/src/main/java/com/ihms/pharmacy/service/ProductService.java:81 | the SKU check used on creation is `findBySku(sku).isPresent()`: some product has the SKU exactly when the finder does not come back empty |
| ProductService.CreateOutcome | pharmacy-service/src/main/java/com/ihms/pharmacy/service/ProductService.java:80-109 | a given SKU already in use is a `BadRequest`; otherwise the built product is saved, which fails only on a missing non-null column or a generated SKU that clashes; the saved row reads back as the built product with its defaults, so the given or generated SKU, the four defaults and every other DTO field, nulls included, are stored |
| ProductService.UpdateOutcome | pharmacy-service/src/main/java/com/ihms/pharmacy/service/ProductService.java:112-135 | the sixteen descriptive columns are overwritten, nulls included; SKU, stock and `active` are kept; a null in a non-null column is refused |
| ProductService.CreateKeepsSkusUnique | pharmacy-service/src/main/java/com/ihms/pharmacy/service/ProductService.java:80-107 | a successful creation keeps the SKUs unique |
| ProductService.ProductService.constructor | pharmacy-service/src/main/java/com/ihms/pharmacy/service/ProductService.java:18-20 | an empty table satisfying the invariants |
| ProductService.ProductService.GetAllProducts | pharmacy-service/src/main/java/com/ihms/pharmacy/service/ProductService.java:23-27 | exactly the active products, each with its stored row |
| ProductService.ProductService.GetProductById | pharmacy-service/src/main/java/com/ihms/pharmacy/service/ProductService.java:29-33 | the stored row, or `NotFound` exactly when the id is absent |
| ProductService.ProductService.GetProductBySku | pharmacy-service/src/main/java/com/ihms/pharmacy/service/ProductService.java:35-39 | the row with that SKU, or `NotFound` when there is none |
| ProductService.ProductService.GetProductByBarcode | pharmacy-service/src/main/java/com/ihms/pharmacy/service/ProductService.java:41-45 | the row with that barcode; `NotFound` when none has it, and a non-unique-result failure when several do |
| ProductService.ProductService.GetProductsByCategory | pharmacy-service/src/main/java/com/ihms/pharmacy/service/ProductService.java:47-51 | exactly the active products of that category, each with its stored row |
| ProductService.ProductService.SearchProducts | pharmacy-service/src/main/java/com/ihms/pharmacy/service/ProductService.java:53-57 | a product is found exactly when it is active and its name or description contains the keyword, ignoring case; so only active products, and with the empty keyword all of them |
| ProductService.ProductService.GetLowStockProducts | pharmacy-service/src/main/java/com/ihms/pharmacy/service/ProductService.java:59-63 | exactly the active products at or below their reorder level, each with its stored row |
| ProductService.ProductService.GetOutOfStockProducts | pharmacy-service/src/main/java/com/ihms/pharmacy/service/ProductService.java:65-69 | exactly the active products with zero stock, each with its stored row |
| ProductService.ProductService.GetAllCategories | pharmacy-service/src/main/java/com/ihms/pharmacy/service/ProductService.java:71-73 | the categories of the active products, no more |
| ProductService.ProductService.GetAllBrands | pharmacy-service/src/main/java/com/ihms/pharmacy/service/ProductService.java:75-77 | the non-null brands of the active products, no more |
| ProductService.ProductService.CreateProduct | pharmacy-service/src/main/java/com/ihms/pharmacy/service/ProductService.java:79-109 | inserts `CreateOutcome`'s row under a fresh key, or changes nothing and returns its error; SKUs stay unique |
| ProductService.ProductService.UpdateProduct | pharmacy-service/src/main/java/com/ihms/pharmacy/service/ProductService.java:111-135 | `NotFound` for an unknown id; otherwise the row becomes `UpdateOutcome`'s, or nothing changes on its error |
| ProductService.ProductService.UpdateStock | pharmacy-service/src/main/java/com/ihms/pharmacy/service/ProductService.java:137-153 | the stock becomes `StockAfter`'s wrapped `int` result, never negative; a negative result is refused and nothing changes |
| ProductService.ProductService.DeleteProduct | pharmacy-service/src/main/java/com/ihms/pharmacy/service/ProductService.java:155-161 | a soft delete: the row stays, with `active` false, and nothing else changes |
| Stock.StockAfter | pharmacy-service/src/main/java/com/ihms/pharmacy/service/ProductService.java:142-148 | the new level is computed in 32-bit `int`; a negative level is refused with the available quantity in the message; without overflow it is accepted exactly when the exact result is non-negative, and equals it |
| Stock.AcceptedIsExact | pharmacy-service/src/main/java/com/ihms/pharmacy/service/DrugService.java:100-106 | from a non-negative stock, an accepted adjustment never wrapped |
| JavaInt.Wrap32 | pharmacy-service/src/main/java/com/ihms/pharmacy/service/DrugService.java:100-102 | Java's `int` result agrees with the exact one modulo 2^32, and equals it within range |
| DrugEntity.SameExceptStockKeepsSkus | pharmacy-service/src/main/java/com/ihms/pharmacy/entity/Drug.java:30-31 | changing only stock levels keeps the non-null SKUs unique |
| DrugRepository.FindBySku | pharmacy-service/src/main/java/com/ihms/pharmacy/repository/DrugRepository.java:15 | nothing exactly when no drug has that SKU (a null SKU never matches); a key only when it is the one drug with it; `NonUniqueResult` only when two drugs share it |
| DrugRepository.FindBySkuUnique | pharmacy-service/src/main/java/com/ihms/pharmacy/repository/DrugRepository.java:15 | with unique SKUs the finder never fails and finds exactly the row with that SKU |
| DrugRepository.FindByCategory | pharmacy-service/src/main/java/com/ihms/pharmacy/repository/DrugRepository.java:17 | exactly the rows of that category |
| DrugRepository.FindByManufacturer | pharmacy-service/src/main/java/com/ihms/pharmacy/repository/DrugRepository.java:19 | exactly the rows of that manufacturer |
| DrugRepository.SearchByName | pharmacy-service/src/main/java/com/ihms/pharmacy/repository/DrugRepository.java:21-23 | exactly the rows whose name or generic name contains the text, ignoring case; deleted drugs are included |
| DrugRepository.FindLowStockDrugs | pharmacy-service/src/main/java/com/ihms/pharmacy/repository/DrugRepository.java:25-26 | exactly the active rows at or below their reorder level |
| DrugRepository.FindExpiringDrugs | pharmacy-service/src/main/java/com/ihms/pharmacy/repository/DrugRepository.java:28-29 | exactly the active rows with an expiry date on or before the date; a null expiry matches nothing |
| DrugRepository.FindByActiveTrue | pharmacy-service/src/main/java/com/ihms/pharmacy/repository/DrugRepository.java:31 | exactly the rows whose `active` is true; null counts as not active |
| DrugRepository.ExpiringMonotone | pharmacy-service/src/main/java/com/ihms/pharmacy/repository/DrugRepository.java:28-29 | looking further ahead finds every drug found before |
| DrugRepository.FiltersWithinActive | pharmacy-service/src/main/java/com/ihms/pharmacy/repository/DrugRepository.java:25-31 | the low-stock and expiring lists hold only active drugs |
| DrugService.GeneratedSku | pharmacy-service/src/main/java/com/ihms/pharmacy/service/DrugService.java:58 | the SKU always starts with "SKU-" |
| DrugService.SkuPresentIffFound | pharmacy-service/src/main/java/com/ihms/pharmacy/repository/DrugRepository.java:15 | the SKU clash refused on creation is the repository finder's answer: some drug has the SKU exactly when `findBySku` does not come back empty |
| DrugService.CreateOutcome | pharmacy-service/src/main/java/com/ihms/pharmacy/service/DrugService.java:54-72 | an expiry text that is no date is refused first; then the DTO's name, generic name, manufacturer, category, price, stock, reorder level and batch number with the parsed expiry date, a generated SKU, no description or storage conditions, `requiresPrescription` false and `active` true; a null non-null column is refused, and so is a generated SKU already in use |
| DrugService.UpdateOutcome | pharmacy-service/src/main/java/com/ihms/pharmacy/service/DrugService.java:75-93 | seven fields are overwritten, nulls included; the expiry date changes only when given, and a text that is no date is refused; SKU, description, stock, storage conditions, the prescription flag and `active` are kept |
| DrugService.DrugService.constructor | pharmacy-service/src/main/java/com/ihms/pharmacy/service/DrugService.java:18-20 | an empty table satisfying the invariants |
| DrugService.DrugService.GetAllDrugs | pharmacy-service/src/main/java/com/ihms/pharmacy/service/DrugService.java:22-26 | exactly the active drugs, each with its stored row |
| DrugService.DrugService.GetDrugById | pharmacy-service/src/main/java/com/ihms/pharmacy/service/DrugService.java:28-32 | the stored row, or `NotFound` exactly when absent |
| DrugService.DrugService.SearchDrugs | pharmacy-service/src/main/java/com/ihms/pharmacy/service/DrugService.java:34-38 | the name search, deleted drugs included |
| DrugService.DrugService.GetLowStockDrugs | pharmacy-service/src/main/java/com/ihms/pharmacy/service/DrugService.java:40-44 | exactly the active drugs at or below their reorder level |
| DrugService.DrugService.GetExpiringDrugs | pharmacy-service/src/main/java/com/ihms/pharmacy/service/DrugService.java:46-51 | exactly the active drugs expiring on or before today plus `daysAhead` |
| DrugService.DrugService.CreateDrug | pharmacy-service/src/main/java/com/ihms/pharmacy/service/DrugService.java:53-72 | inserts `CreateOutcome`'s row under a fresh key, or changes nothing |
| DrugService.DrugService.UpdateDrug | pharmacy-service/src/main/java/com/ihms/pharmacy/service/DrugService.java:74-93 | `NotFound` for an unknown id; otherwise the row becomes `UpdateOutcome`'s, or nothing changes |
| DrugService.DrugService.UpdateStock | pharmacy-service/src/main/java/com/ihms/pharmacy/service/DrugService.java:95-111 | as for products: `StockAfter` decides, and a refused adjustment changes nothing |
| DrugService.DrugService.DeleteDrug | pharmacy-service/src/main/java/com/ihms/pharmacy/service/DrugService.java:113-119 | a soft delete: `active` becomes false and the row stays |
| PrescriptionEntity.GeneratedNumber | pharmacy-service/src/main/java/com/ihms/pharmacy/entity/Prescription.java:63-65 | a made-up prescription number starts with "RX-" |
| PrescriptionEntity.ItemRows | pharmacy-service/src/main/java/com/ihms/pharmacy/entity/PrescriptionItem.java:29-49 | inserting the lines succeeds exactly when every quantity is given; each line keeps its fields and gets `dispensed` false and `dispensedQuantity` 0 |
| PrescriptionEntity.RowOf | pharmacy-service/src/main/java/com/ihms/pharmacy/entity/Prescription.java:25-49 | inserting succeeds exactly when the number, patient, doctor, status and every line's quantity are given, the nullable columns (`prescribedAt` and `dispensedAt` among them) kept as they are; else `NotNullViolation` |
| PrescriptionEntity.PrescriptionItem.constructor | pharmacy-service/src/main/java/com/ihms/pharmacy/entity/PrescriptionItem.java:15-43 | the builder sets the line's fields, with no owner yet |
| PrescriptionEntity.Prescription.Drafts | pharmacy-service/src/main/java/com/ihms/pharmacy/entity/Prescription.java:36-38 | the line contents, in list order |
| PrescriptionEntity.Prescription.constructor | pharmacy-service/src/main/java/com/ihms/pharmacy/entity/Prescription.java:36-49 | the builder starts with an empty list of lines, no number and neither instant set |
| PrescriptionEntity.Prescription.OnCreate | pharmacy-service/src/main/java/com/ihms/pharmacy/entity/Prescription.java:55-66 | `prescribedAt` becomes the current instant whatever it held; the status defaults to PENDING and the number to a generated one, each only where null; nothing else changes |
| PrescriptionEntity.Prescription.AddItem | pharmacy-service/src/main/java/com/ihms/pharmacy/entity/Prescription.java:73-76 | the line is appended and points back at this prescription |
| PrescriptionRepository.FindByPrescriptionNumber | pharmacy-service/src/main/java/com/ihms/pharmacy/repository/PrescriptionRepository.java:13 | nothing exactly when no prescription has that number; a key only when it is the one with it; `NonUniqueResult` only when two share it |
| PrescriptionRepository.FindByNumberUnique | pharmacy-service/src/main/java/com/ihms/pharmacy/repository/PrescriptionRepository.java:13 | with unique numbers the finder never fails and finds exactly the row with that number |
| PrescriptionRepository.FindByPatientId | pharmacy-service/src/main/java/com/ihms/pharmacy/repository/PrescriptionRepository.java:15 | exactly the patient's prescriptions |
| PrescriptionRepository.FindByDoctorId | pharmacy-service/src/main/java/com/ihms/pharmacy/repository/PrescriptionRepository.java:17 | exactly the doctor's prescriptions |
| PrescriptionRepository.FindByStatus | pharmacy-service/src/main/java/com/ihms/pharmacy/repository/PrescriptionRepository.java:19 | exactly the prescriptions in that status |
| PrescriptionRepository.FindByPatientIdAndStatus | pharmacy-service/src/main/java/com/ihms/pharmacy/repository/PrescriptionRepository.java:21 | what the patient finder and the status finder both return |
| PrescriptionRepository.StatusesDisjoint | pharmacy-service/src/main/java/com/ihms/pharmacy/repository/PrescriptionRepository.java:19 | the status finders split the table: different statuses share no prescription |
| PrescriptionService.LineDraft | pharmacy-service/src/main/java/com/ihms/pharmacy/service/PrescriptionService.java:66-76 | a line is accepted exactly when its drug exists, and then carries the DTO's fields |
| PrescriptionService.BuildItems | pharmacy-service/src/main/java/com/ihms/pharmacy/service/PrescriptionService.java:64-79 | every line accepted, in input order; or the failure of the first line that fails |
| PrescriptionService.BuildItemsStep | pharmacy-service/src/main/java/com/ihms/pharmacy/service/PrescriptionService.java:65-78 | one more accepted line extends the list by its draft |
| PrescriptionService.BuildItemsFirstError | pharmacy-service/src/main/java/com/ihms/pharmacy/service/PrescriptionService.java:66-67 | the first failing line's error is the loop's result |
| PrescriptionService.CreateOutcome | pharmacy-service/src/main/java/com/ihms/pharmacy/service/PrescriptionService.java:55-83 | succeeds exactly when every line's drug exists, patient, doctor and every quantity are given and the generated number is free; then a PENDING prescription prescribed now, not dispensed, with the DTO's doctor name and notes and every line's fields in order, none dispensed; the first failing line's error otherwise |
| PrescriptionService.DispenseFrom | pharmacy-service/src/main/java/com/ihms/pharmacy/service/PrescriptionService.java:95-105 | the lines in order each check and then lower their drug's stock; the first short line stops with "Insufficient stock for drug: " and its name; only stock levels change |
| PrescriptionService.MarkDispensed | pharmacy-service/src/main/java/com/ihms/pharmacy/service/PrescriptionService.java:103-104 | every line is marked dispensed with its full quantity |
| PrescriptionService.QuantityForNonNegative | pharmacy-service/src/main/java/com/ihms/pharmacy/service/PrescriptionService.java:95-100 | non-negative quantities ask for a non-negative total |
| PrescriptionService.DispenseSucceedsIffCovered | pharmacy-service/src/main/java/com/ihms/pharmacy/service/PrescriptionService.java:95-105 | with non-negative quantities, dispensing succeeds exactly when each drug's stock covers the sum its lines ask; then each drug loses exactly that sum |
| PrescriptionService.DispenseLeavesNoNegativeStock | pharmacy-service/src/main/java/com/ihms/pharmacy/service/PrescriptionService.java:97-100 | dispensing never leaves a drug it used with negative stock |
| PrescriptionService.CoveredStep | pharmacy-service/src/main/java/com/ihms/pharmacy/service/PrescriptionService.java:97-101 | once the first line has taken its quantity, what is left to cover is the rest against the lowered stock |
| PrescriptionService.QuantityForAbsent | pharmacy-service/src/main/java/com/ihms/pharmacy/service/PrescriptionService.java:95-100 | a drug no line uses is asked for nothing |
| PrescriptionService.DispenseItems | pharmacy-service/src/main/java/com/ihms/pharmacy/service/PrescriptionService.java:95-105 | the loop computes exactly `DispenseFrom`'s stock and, on success, `MarkDispensed`'s lines |
| PrescriptionService.PrescriptionService.constructor | pharmacy-service/src/main/java/com/ihms/pharmacy/service/PrescriptionService.java:24-28 | an empty table sharing the drug service's table |
| PrescriptionService.PrescriptionService.GetAllPrescriptions | pharmacy-service/src/main/java/com/ihms/pharmacy/service/PrescriptionService.java:30-34 | every stored prescription |
| PrescriptionService.PrescriptionService.GetPrescriptionById | pharmacy-service/src/main/java/com/ihms/pharmacy/service/PrescriptionService.java:36-40 | the stored row, or `NotFound` exactly when absent |
| PrescriptionService.PrescriptionService.GetPrescriptionsByPatientId | pharmacy-service/src/main/java/com/ihms/pharmacy/service/PrescriptionService.java:42-46 | exactly the patient's prescriptions |
| PrescriptionService.PrescriptionService.GetPendingPrescriptions | pharmacy-service/src/main/java/com/ihms/pharmacy/service/PrescriptionService.java:48-52 | exactly the PENDING prescriptions |
| PrescriptionService.PrescriptionService.CreatePrescription | pharmacy-service/src/main/java/com/ihms/pharmacy/service/PrescriptionService.java:54-83 | inserts `CreateOutcome`'s row under a fresh key, or changes nothing; numbers stay unique |
| PrescriptionService.PrescriptionService.DispensePrescription | pharmacy-service/src/main/java/com/ihms/pharmacy/service/PrescriptionService.java:85-112 | `NotFound` for an unknown id and "Prescription already dispensed" for a dispensed one; otherwise the drug table becomes `DispenseFrom`'s and the prescription DISPENSED, stamped `dispensedAt` with the current instant, with `MarkDispensed` lines; or nothing changes on its error |
| PrescriptionService.PrescriptionService.CancelPrescription | pharmacy-service/src/main/java/com/ihms/pharmacy/service/PrescriptionService.java:114-125 | refused once dispensed; any other status becomes CANCELLED |
| InvoiceEntity.StatusName | billing-service/src/main/java/com/ihms/billing/entity/Invoice.java:90-92 | an invoice status's enum name, in capitals |
| InvoiceEntity.ParseStatus | billing-service/src/main/java/com/ihms/billing/service/BillingService.java:50 | `valueOf(status.toUpperCase())`: the status spelled by the upper-cased name, or `InvalidEnum` exactly when no status has that name |
| InvoiceEntity.ParseStatusExactly | billing-service/src/main/java/com/ihms/billing/service/BillingService.java:50 | a name is accepted as a status exactly when it spells it in any case; a status's own name, and its lower-case form, parse back to it |
| InvoiceEntity.GeneratedNumber | billing-service/src/main/java/com/ihms/billing/entity/Invoice.java:75-77 | a made-up invoice number starts with "INV-" |
| InvoiceEntity.ItemRows | billing-service/src/main/java/com/ihms/billing/entity/InvoiceItem.java:27-40 | inserting the lines succeeds exactly when every description is given, each line keeping its fields |
| InvoiceEntity.RowOf | billing-service/src/main/java/com/ihms/billing/entity/Invoice.java:26-56 | inserting succeeds exactly when the number, patient, total, status and every description are given; else `NotNullViolation` |
| InvoiceEntity.InvoiceItem.constructor | billing-service/src/main/java/com/ihms/billing/entity/InvoiceItem.java:15-40 | the builder sets the line's fields, with no owner yet |
| InvoiceEntity.Invoice.Drafts | billing-service/src/main/java/com/ihms/billing/entity/Invoice.java:34-36 | the line contents, in list order |
| InvoiceEntity.Invoice.constructor | billing-service/src/main/java/com/ihms/billing/entity/Invoice.java:34-52 | the builder starts with no lines and nothing paid; fields it is not given are null |
| InvoiceEntity.Invoice.OnCreate | billing-service/src/main/java/com/ihms/billing/entity/Invoice.java:68-78 | the status defaults to PENDING and the number to a generated one, each only where null; nothing else changes |
| InvoiceEntity.Invoice.AddItem | billing-service/src/main/java/com/ihms/billing/entity/Invoice.java:85-88 | the line is appended and points back at this invoice |
| InvoiceRepository.FindByInvoiceNumber | billing-service/src/main/java/com/ihms/billing/repository/InvoiceRepository.java:15 | nothing exactly when no invoice has that number; a key only when it is the one with it; `NonUniqueResult` only when two share it |
| InvoiceRepository.FindByNumberUnique | billing-service/src/main/java/com/ihms/billing/repository/InvoiceRepository.java:15 | with unique numbers the finder never fails and finds at most the one invoice |
| InvoiceRepository.FindByPatientId | billing-service/src/main/java/com/ihms/billing/repository/InvoiceRepository.java:17 | exactly the patient's invoices |
| InvoiceRepository.FindByStatus | billing-service/src/main/java/com/ihms/billing/repository/InvoiceRepository.java:19 | exactly the invoices in that status |
| InvoiceRepository.FindByAppointmentId | billing-service/src/main/java/com/ihms/billing/repository/InvoiceRepository.java:21 | exactly the invoices of that appointment |
| InvoiceRepository.FindOverdueInvoices | billing-service/src/main/java/com/ihms/billing/repository/InvoiceRepository.java:23-24 | exactly the PENDING invoices due strictly before `now`; a null due date matches nothing |
| InvoiceRepository.BilledInvoices | billing-service/src/main/java/com/ihms/billing/repository/InvoiceRepository.java:26 | the invoices the billed sum adds up: the patient's, cancelled ones left out |
| InvoiceRepository.GetTotalBilledAmount | billing-service/src/main/java/com/ihms/billing/repository/InvoiceRepository.java:26-27 | null exactly when the patient has no invoice that is not cancelled; otherwise the sum of their totals |
| InvoiceRepository.GetTotalPaidAmount | billing-service/src/main/java/com/ihms/billing/repository/InvoiceRepository.java:29-30 | null exactly when the patient has no invoice; otherwise the sum of their paid amounts |
| InvoiceRepository.BilledAfterInsert | billing-service/src/main/java/com/ihms/billing/repository/InvoiceRepository.java:26-27 | a new invoice adds its total to its patient's billed sum unless it is cancelled |
| InvoiceRepository.PaidAfterUpdate | billing-service/src/main/java/com/ihms/billing/repository/InvoiceRepository.java:29-30 | changing one invoice moves its patient's paid sum by the change in its paid amount |
| InvoiceRepository.BilledOrZero | billing-service/src/main/java/com/ihms/billing/service/BillingService.java:142-145 | a null billed sum read as 0 is the plain sum |
| InvoiceRepository.PaidOrZero | billing-service/src/main/java/com/ihms/billing/service/BillingService.java:143-146 | a null paid sum read as 0 is the plain sum |
| InvoiceRepository.BilledAfterUpdate | billing-service/src/main/java/com/ihms/billing/repository/InvoiceRepository.java:26-27 | changing one invoice moves its patient's billed sum by the change in its total and status |
| PaymentEntity.MethodName | billing-service/src/main/java/com/ihms/billing/entity/Payment.java:61-63 | a payment method's enum name, in capitals |
| PaymentEntity.ParseMethod | billing-service/src/main/java/com/ihms/billing/service/BillingService.java:100 | the method spelled by the upper-cased name, or `InvalidEnum` exactly when none has it |
| PaymentEntity.ParseMethodExactly | billing-service/src/main/java/com/ihms/billing/service/BillingService.java:100 | a name is accepted as a method exactly when it spells it in any case |
| PaymentEntity.GeneratedTransactionId | billing-service/src/main/java/com/ihms/billing/entity/Payment.java:56-58 | a made-up transaction id starts with "TXN-" |
| BillingService.LineDraft | billing-service/src/main/java/com/ihms/billing/service/BillingService.java:68-73 | a line is built exactly when its price and quantity are given, else `NullValue`; its total price is the price times the quantity |
| BillingService.BuildItems | billing-service/src/main/java/com/ihms/billing/service/BillingService.java:66-77 | every line built, in input order, or `NullValue` |
| BillingService.LineAmount | billing-service/src/main/java/com/ihms/billing/service/BillingService.java:72 | no contract of its own: unit price times quantity; `LineDraft` states it is what a line is charged when both are given |
| BillingService.Charge | billing-service/src/main/java/com/ihms/billing/service/BillingService.java:64-76 | no contract of its own: the sum of the line charges; `SumIsCharge` and `BuildItemsStep` prove the loop's running total equals it |
| BillingService.SumIsCharge | billing-service/src/main/java/com/ihms/billing/service/BillingService.java:64-76 | the loop's running total is the charge of the request's lines |
| BillingService.BuildItemsStep | billing-service/src/main/java/com/ihms/billing/service/BillingService.java:67-76 | one more line extends the list by its draft and the total by its price |
| BillingService.BuildItemsFails | billing-service/src/main/java/com/ihms/billing/service/BillingService.java:72 | a line the loop throws on makes the whole creation throw |
| BillingService.CreateOutcome | billing-service/src/main/java/com/ihms/billing/service/BillingService.java:56-86 | a PENDING invoice due in 30 days; subtotal and total are both the lines' charge; no tax, no discount, nothing paid; each line in order keeps its description, quantity and unit price, has no item type, and costs unit price times quantity; or why the insert fails |
| BillingService.PaymentApplied | billing-service/src/main/java/com/ihms/billing/service/BillingService.java:106-114 | the amount is added to what was paid; PAID and stamped exactly when that reaches the total, PARTIAL otherwise; nothing else changes |
| BillingService.PayAllAddsUp | billing-service/src/main/java/com/ihms/billing/service/BillingService.java:93-114 | instalments are accepted exactly while earlier ones have not covered the total; then the invoice holds their sum and is PAID exactly when it covers the total |
| BillingService.ToDto | billing-service/src/main/java/com/ihms/billing/service/BillingService.java:167-200 | the stored invoice with the patient's display name, its status by its enum name (which parses back to it), and its lines in order |
| BillingService.ToDtos | billing-service/src/main/java/com/ihms/billing/service/BillingService.java:31-35 | `toDTO` of every invoice, each with its own patient's lookup |
| BillingService.BillingSummary | billing-service/src/main/java/com/ihms/billing/service/BillingService.java:141-165 | billed is the sum of the patient's invoices that are not cancelled; paid is the sum over all their invoices; outstanding is the difference |
| BillingService.SummaryAfterInsert | billing-service/src/main/java/com/ihms/billing/service/BillingService.java:141-165 | a new invoice that is not cancelled adds its total to the billed amount and its paid amount to the paid one |
| BillingService.SummaryAfterCreate | billing-service/src/main/java/com/ihms/billing/service/BillingService.java:56-86 | creating an invoice raises its patient's billed and outstanding amounts by the charge, and leaves what was paid alone |
| BillingService.SummaryAfterPayment | billing-service/src/main/java/com/ihms/billing/service/BillingService.java:106-114 | a payment lowers the outstanding amount by the amount paid; paying a cancelled invoice brings it back into the billed sum |
| BillingService.SummaryAfterCancel | billing-service/src/main/java/com/ihms/billing/service/BillingService.java:120-131 | cancelling takes the invoice's total out of billed and outstanding; what was paid on it still counts |
| BillingService.AddLines | billing-service/src/main/java/com/ihms/billing/service/BillingService.java:64-77 | the loop adds every line to the invoice in order and ends with the charge as its total, or throws `NullValue` |
| BillingService.AssembleInvoice | billing-service/src/main/java/com/ihms/billing/service/BillingService.java:57-82 | the object saved: the builder's fields, the lines and the four amounts |
| BillingService.PaymentKeepsTablesValid | billing-service/src/main/java/com/ihms/billing/service/BillingService.java:97-116 | a payment with a fresh transaction id against an existing invoice keeps numbers and transaction ids unique and every payment pointing at an invoice |
| BillingService.BillingService.constructor | billing-service/src/main/java/com/ihms/billing/service/BillingService.java:25-29 | empty tables satisfying the invariants |
| BillingService.BillingService.GetAllInvoices | billing-service/src/main/java/com/ihms/billing/service/BillingService.java:31-35 | `toDTO` of every invoice |
| BillingService.BillingService.GetInvoiceById | billing-service/src/main/java/com/ihms/billing/service/BillingService.java:37-41 | the invoice's `toDTO`, or `NotFound` exactly when absent |
| BillingService.BillingService.GetInvoicesByPatientId | billing-service/src/main/java/com/ihms/billing/service/BillingService.java:43-47 | exactly the patient's invoices, as `toDTO` |
| BillingService.BillingService.GetInvoicesByStatus | billing-service/src/main/java/com/ihms/billing/service/BillingService.java:49-53 | the invoices in the status named in any case, each as its `ToDto` with its own patient's lookup; `InvalidEnum` exactly when no status has that name |
| BillingService.BillingService.CreateInvoice | billing-service/src/main/java/com/ihms/billing/service/BillingService.java:55-86 | inserts `CreateOutcome`'s row under a fresh key and returns its `toDTO`, or changes nothing |
| BillingService.BillingService.ProcessPayment | billing-service/src/main/java/com/ihms/billing/service/BillingService.java:88-118 | `NotFound`, then "Invoice is already paid", then an unknown method are refused with nothing changed; otherwise one COMPLETED payment is recorded and the invoice becomes `PaymentApplied`'s |
| BillingService.BillingService.CancelInvoice | billing-service/src/main/java/com/ihms/billing/service/BillingService.java:120-131 | refused once PAID; any other status becomes CANCELLED |
| BillingService.BillingService.GetPatientBillingSummary | billing-service/src/main/java/com/ihms/billing/service/BillingService.java:141-165 | `BillingSummary` of the current invoices: outstanding is billed less paid |
| RemotePatient.JavaString | billing-service/src/main/java/com/ihms/billing/service/BillingService.java:152 | Java's string concatenation prints a null `String` as "null" |
| RemotePatient.DisplayName | billing-service/src/main/java/com/ihms/billing/service/BillingService.java:148-156 | first and last name joined by a blank when a patient came back, "Unknown" when the call threw or returned no data |
| Time.StartOfDay | appointment-service/src/main/java/com/ihms/appointment/service/AppointmentService.java:54 | the start of a day is a whole number of days, and falls on that day |
| Time.EndOfDay | appointment-service/src/main/java/com/ihms/appointment/service/AppointmentService.java:55 | 23:59:59 is the last second of the day |
| Time.OnDate | appointment-service/src/main/java/com/ihms/appointment/service/AppointmentService.java:53-59 | an instant falls on a date exactly when it lies between its first and last second, both included |
| AppointmentEntity.StatusName | appointment-service/src/main/java/com/ihms/appointment/entity/Appointment.java:65-67 | each status is shown by its upper-case constant name |
| AppointmentEntity.ParseStatus | appointment-service/src/main/java/com/ihms/appointment/entity/Appointment.java:65-67 | `Status.valueOf(name.toUpperCase())`: the status whose name is the upper-cased text, otherwise `InvalidEnum` and no status has that name |
| AppointmentEntity.ParseStatusExactly | appointment-service/src/main/java/com/ihms/appointment/entity/Appointment.java:65-67 | a text parses to a status exactly when it spells it in any case; a status's name (or its lower case) parses back to it |
| AppointmentEntity.Nullable | appointment-service/src/main/java/com/ihms/appointment/entity/Appointment.java:23-42 | a stored row has every NOT NULL column present |
| AppointmentEntity.ToRow | appointment-service/src/main/java/com/ihms/appointment/entity/Appointment.java:23-42 | the insert succeeds exactly when patient, doctor, time and status are present, otherwise `NotNullViolation`; what is stored reads back as given |
| AppointmentEntity.ToRowNullable | appointment-service/src/main/java/com/ihms/appointment/entity/Appointment.java:23-42 | reading a row and storing it again gives the same row |
| AppointmentEntity.WithDefaults | appointment-service/src/main/java/com/ihms/appointment/entity/Appointment.java:48-58 | status SCHEDULED and 30 minutes, each only where null; every other field unchanged |
| AppointmentEntity.Appointment.constructor | appointment-service/src/main/java/com/ihms/appointment/entity/Appointment.java:14-17 | the builder sets every field as given |
| AppointmentEntity.Appointment.OnCreate | appointment-service/src/main/java/com/ihms/appointment/entity/Appointment.java:48-58 | the object's fields become `WithDefaults` of the old ones |
| AppointmentRepository.FindByPatientId | appointment-service/src/main/java/com/ihms/appointment/repository/AppointmentRepository.java:14 | the rows of that patient, and only those |
| AppointmentRepository.FindByDoctorId | appointment-service/src/main/java/com/ihms/appointment/repository/AppointmentRepository.java:16 | the rows of that doctor, and only those |
| AppointmentRepository.FindByStatus | appointment-service/src/main/java/com/ihms/appointment/repository/AppointmentRepository.java:18 | the rows in that status, and only those |
| AppointmentRepository.FindByDoctorIdAndDateRange | appointment-service/src/main/java/com/ihms/appointment/repository/AppointmentRepository.java:20-22 | the doctor's rows from start to end, both ends included, whatever their status |
| AppointmentRepository.FindByDateRange | appointment-service/src/main/java/com/ihms/appointment/repository/AppointmentRepository.java:24-25 | every row from start to end, both ends included |
| AppointmentRepository.FindUpcomingByPatientId | appointment-service/src/main/java/com/ihms/appointment/repository/AppointmentRepository.java:27-28 | the patient's SCHEDULED rows, whatever their time |
| AppointmentRepository.DoctorRangeIsIntersection | appointment-service/src/main/java/com/ihms/appointment/repository/AppointmentRepository.java:16-25 | the doctor-and-range query is exactly the doctor finder intersected with the range query |
| AppointmentRepository.UpcomingIsScheduledOfPatient | appointment-service/src/main/java/com/ihms/appointment/repository/AppointmentRepository.java:14-28 | the upcoming query is exactly the patient finder intersected with the SCHEDULED finder |
| DoctorScheduleRepository.FindByDoctorId | appointment-service/src/main/java/com/ihms/appointment/repository/DoctorScheduleRepository.java:11 | the doctor's slots, and only those |
| DoctorScheduleRepository.FindByDoctorIdAndDayOfWeek | appointment-service/src/main/java/com/ihms/appointment/repository/DoctorScheduleRepository.java:12 | the doctor's slots on that day, and only those |
| DoctorScheduleRepository.FindBySpecialization | appointment-service/src/main/java/com/ihms/appointment/repository/DoctorScheduleRepository.java:13 | the slots of exactly that specialization |
| DoctorScheduleRepository.FindByAvailableTrue | appointment-service/src/main/java/com/ihms/appointment/repository/DoctorScheduleRepository.java:14 | the slots whose `available` is true; false and null are both left out |
| DoctorScheduleRepository.DayOfWeekWithinDoctor | appointment-service/src/main/java/com/ihms/appointment/repository/DoctorScheduleRepository.java:11-12 | the doctor-and-day query run on the doctor's own slots gives exactly its rows on the whole table, so it never reaches beyond the doctor's schedule |
| AppointmentService.Conflicts | appointment-service/src/main/java/com/ihms/appointment/service/AppointmentService.java:71-79 | no contract of its own: an appointment of the doctor within 30 minutes either side, any status; `ConflictsFound` proves the query finds exactly these |
| AppointmentService.ConflictsFound | appointment-service/src/main/java/com/ihms/appointment/service/AppointmentService.java:71-79 | the conflict query finds a row exactly when some appointment of the doctor lies within 30 minutes either side |
| AppointmentService.InsertKeepsSpaced | appointment-service/src/main/java/com/ihms/appointment/service/AppointmentService.java:61-92 | a booking that passed the conflict check keeps every two appointments of a doctor more than 30 minutes apart |
| AppointmentService.StatusChangeKeepsSpaced | appointment-service/src/main/java/com/ihms/appointment/service/AppointmentService.java:94-111 | a status change keeps the doctors' appointments spaced |
| AppointmentService.CreateOutcome | appointment-service/src/main/java/com/ihms/appointment/service/AppointmentService.java:61-92 | a failed patient lookup, then a missing time, then a conflict are refused with their messages; success exactly when patient, doctor and time are given and nothing conflicts, and the row is then SCHEDULED, 30 minutes, with the request's reason and notes, and clear of every other appointment of the doctor |
| AppointmentService.ToDto | appointment-service/src/main/java/com/ihms/appointment/service/AppointmentService.java:121-142 | the row's fields with the patient's display name, and the status by its enum name, which parses back to the row's status |
| AppointmentService.ToDtos | appointment-service/src/main/java/com/ihms/appointment/service/AppointmentService.java:29-33 | one view per row, each `ToDto` of that row |
| AppointmentService.CancelledStillConflicts | appointment-service/src/main/java/com/ihms/appointment/service/AppointmentService.java:71-79 | a cancelled appointment still blocks its slot: cancelling never removes a conflict |
| AppointmentService.AppointmentService.constructor | appointment-service/src/main/java/com/ihms/appointment/service/AppointmentService.java:25-27 | an empty table that keeps the invariant |
| AppointmentService.AppointmentService.GetAllAppointments | appointment-service/src/main/java/com/ihms/appointment/service/AppointmentService.java:29-33 | every appointment, as its `ToDto` |
| AppointmentService.AppointmentService.GetAppointmentById | appointment-service/src/main/java/com/ihms/appointment/service/AppointmentService.java:35-39 | the appointment's view exactly when the id is stored, otherwise `NotFound` |
| AppointmentService.AppointmentService.GetAppointmentsByPatientId | appointment-service/src/main/java/com/ihms/appointment/service/AppointmentService.java:41-45 | exactly the patient's appointments |
| AppointmentService.AppointmentService.GetAppointmentsByDoctorId | appointment-service/src/main/java/com/ihms/appointment/service/AppointmentService.java:47-51 | exactly the doctor's appointments |
| AppointmentService.AppointmentService.GetAppointmentsByDate | appointment-service/src/main/java/com/ihms/appointment/service/AppointmentService.java:53-59 | exactly the appointments whose instant falls on that date |
| AppointmentService.AppointmentService.GetDoctorSchedules | appointment-service/src/main/java/com/ihms/appointment/service/AppointmentService.java:113-115 | exactly the doctor's schedule slots |
| AppointmentService.AppointmentService.GetAvailableDoctors | appointment-service/src/main/java/com/ihms/appointment/service/AppointmentService.java:117-119 | exactly the slots marked available |
| AppointmentService.AppointmentService.CreateAppointment | appointment-service/src/main/java/com/ihms/appointment/service/AppointmentService.java:61-92 | stores `CreateOutcome`'s row under a fresh id and returns its view, or changes nothing and returns its error; the doctors' appointments stay spaced |
| AppointmentService.AppointmentService.UpdateAppointmentStatus | appointment-service/src/main/java/com/ihms/appointment/service/AppointmentService.java:94-102 | `NotFound` for an unknown id; an unknown status name is refused with nothing changed; otherwise only that appointment's status changes |
| AppointmentService.AppointmentService.CancelAppointment | appointment-service/src/main/java/com/ihms/appointment/service/AppointmentService.java:104-111 | `NotFound` for an unknown id; otherwise that appointment becomes CANCELLED from any status |
| PatientEntity.GenderName | patient-service/src/main/java/com/ihms/patient/entity/Patient.java:73-75 | each gender is shown by its upper-case constant name |
| PatientEntity.ParseGender | patient-service/src/main/java/com/ihms/patient/entity/Patient.java:73-75 | `Gender.valueOf(name.toUpperCase())`: the gender whose name is the upper-cased text, otherwise `InvalidEnum` and no gender has that name |
| PatientEntity.ParseGenderExactly | patient-service/src/main/java/com/ihms/patient/entity/Patient.java:73-75 | a text parses to a gender exactly when it spells it in any case; a gender's name (or its lower case) parses back to it |
| PatientEntity.Nullable | patient-service/src/main/java/com/ihms/patient/entity/Patient.java:24-56 | a stored row has its four NOT NULL columns present |
| PatientEntity.ToRow | patient-service/src/main/java/com/ihms/patient/entity/Patient.java:24-56 | the save succeeds exactly when first name, last name, e-mail and phone are present, otherwise `NotNullViolation`; what is stored reads back as given |
| PatientRepository.FindByEmail | patient-service/src/main/java/com/ihms/patient/repository/PatientRepository.java:13 | nothing exactly when no patient has that e-mail (a null one matches none); a key only when it is the one patient with it; `NonUniqueResult` only when two share it |
| PatientRepository.ExistsByEmail | patient-service/src/main/java/com/ihms/patient/repository/PatientRepository.java:14 | no contract of its own: some patient has that e-mail; `ExistsIffFound` ties it to `FindByEmail` |
| PatientRepository.ExistsIffFound | patient-service/src/main/java/com/ihms/patient/repository/PatientRepository.java:13-14 | with unique e-mails, `findByEmail` finds at most one patient, and `existsByEmail` holds exactly when it finds one |
| PatientRepository.SearchByName | patient-service/src/main/java/com/ihms/patient/repository/PatientRepository.java:16-18 | the patients whose first or last name contains the text, ignoring case, and only those |
| PatientRepository.FindByBloodGroup | patient-service/src/main/java/com/ihms/patient/repository/PatientRepository.java:20 | the patients of exactly that blood group; none without one |
| PatientRepository.SearchEmptyNameFindsAll | patient-service/src/main/java/com/ihms/patient/repository/PatientRepository.java:16-18 | an empty search text finds every patient |
| Time.ParseDate | patient-service/src/main/java/com/ihms/patient/service/PatientService.java:110-112 | a null date stays null; a text that is no date is refused with `InvalidDate`; otherwise its day |
| PatientService.ParseOptionalGender | patient-service/src/main/java/com/ihms/patient/service/PatientService.java:113-115 | a null gender stays null; otherwise `ParseGender`'s answer, its error included |
| PatientService.ToEntity | patient-service/src/main/java/com/ihms/patient/service/PatientService.java:99-118 | the eight text fields copied as given, nulls included; the date and gender parsed when present, a bad one refused; allergies and insurance left null |
| PatientService.ToDto | patient-service/src/main/java/com/ihms/patient/service/PatientService.java:83-97 | every field of the row, the date printed and the gender by its enum name, which parses back to it |
| PatientService.ToDtoToEntity | patient-service/src/main/java/com/ihms/patient/service/PatientService.java:83-118 | a DTO stored and read back keeps its names, e-mail, phone, address, blood group, emergency contact and history; a gender comes back upper-cased |
| PatientService.UpdateOutcome | patient-service/src/main/java/com/ihms/patient/service/PatientService.java:51-73 | seven fields overwritten from the DTO, nulls included; the date and the gender only when given; e-mail, allergies and insurance never; refused when a parse fails or a required field is null |
| PatientService.UpdateWithOwnDto | patient-service/src/main/java/com/ihms/patient/service/PatientService.java:51-97 | sending back a patient as it was read leaves its row as it was, when the printed date parses back to its day |
| PatientService.PatientService.constructor | patient-service/src/main/java/com/ihms/patient/service/PatientService.java:20 | an empty table with unique e-mails |
| PatientService.PatientService.GetAllPatients | patient-service/src/main/java/com/ihms/patient/service/PatientService.java:22-26 | every patient, as its `ToDto` |
| PatientService.PatientService.GetPatientById | patient-service/src/main/java/com/ihms/patient/service/PatientService.java:28-32 | the patient's view exactly when the id is stored, otherwise `NotFound` |
| PatientService.PatientService.SearchPatients | patient-service/src/main/java/com/ihms/patient/service/PatientService.java:34-38 | exactly the patients whose first or last name contains the text, ignoring case |
| PatientService.PatientService.CreatePatient | patient-service/src/main/java/com/ihms/patient/service/PatientService.java:40-49 | an e-mail on file is refused first; then a parse or NOT NULL failure changes nothing; otherwise one new row under a fresh id; e-mails stay unique |
| PatientService.PatientService.UpdatePatient | patient-service/src/main/java/com/ihms/patient/service/PatientService.java:51-73 | `NotFound` for an unknown id; otherwise the row becomes `UpdateOutcome`'s, or nothing changes on its error; e-mails stay unique |
| PatientService.PatientService.DeletePatient | patient-service/src/main/java/com/ihms/patient/service/PatientService.java:75-81 | `NotFound` for an unknown id; otherwise exactly that row is removed |
| Ascii.EmptyKeywordMatches | patient-service/src/main/java/com/ihms/patient/repository/PatientRepository.java:16-18 | `LIKE '%%'` matches every text |
| AuthService.UserNamed | auth-service/src/main/java/com/ihms/auth/service/AuthService.java:44-45 | with unique usernames, the one user of that name, or none exactly when the name is not taken |
| AuthService.ParseRole | auth-service/src/main/java/com/ihms/auth/service/AuthService.java:34 | `Role.valueOf(role.toUpperCase())`: a null role is a null dereference; the upper-cased role when it is a role, otherwise `InvalidEnum` |
| AuthService.Registered | auth-service/src/main/java/com/ihms/auth/service/AuthService.java:28-36 | the built user is active, holds the encoded password and the request's names, e-mail and role |
| AuthService.LoginOutcome | auth-service/src/main/java/com/ihms/auth/service/AuthService.java:43-56 | unknown user, then wrong password, then disabled account are refused with their messages; a token for the user's name and role exactly when all three checks pass |
| AuthService.RegisteredUserCanLogIn | auth-service/src/main/java/com/ihms/auth/service/AuthService.java:20-56 | a user just registered can log in with the raw password, and gets the token the registration returned |
| AuthService.AuthService.constructor | auth-service/src/main/java/com/ihms/auth/service/AuthService.java:16-18 | no users, with unique usernames and e-mails |
| AuthService.AuthService.Register | auth-service/src/main/java/com/ihms/auth/service/AuthService.java:20-41 | a taken username, then a taken e-mail, then a role that is no role are refused with nothing saved; otherwise one active user is added under a fresh id and its token returned; usernames and e-mails stay unique |
| AuthService.AuthService.Login | auth-service/src/main/java/com/ihms/auth/service/AuthService.java:43-56 | changes nothing and answers `LoginOutcome` for the user of the requested name |
| AuthGuard.HoldsAny | frontend/ihms-portal/src/app/core/guards/auth.guard.ts:29 | true exactly when the session holds one of the listed roles |
| AuthGuard.AuthGuard | frontend/ihms-portal/src/app/core/guards/auth.guard.ts:5-15 | a signed-in user passes with no navigation; anyone else is refused and sent once to the login page with the requested address |
| AuthGuard.RoleGuard | frontend/ihms-portal/src/app/core/guards/auth.guard.ts:17-37 | sign-in is checked first; then a non-empty role list must share a role with the session, otherwise one navigation to the unauthorized page; an absent or empty list admits every signed-in user |
| AuthGuard.OneNavigationPerDenial | frontend/ihms-portal/src/app/core/guards/auth.guard.ts:5-37 | both guards ask for a navigation exactly when they deny, and for one at most |
| AuthGuard.RoleGuardRefinesAuthGuard | frontend/ihms-portal/src/app/core/guards/auth.guard.ts:5-37 | the role guard admits no one the sign-in guard refuses, refuses those the same way, and is the sign-in guard when no roles are declared |
| InvoiceForm.DefaultItem | frontend/ihms-portal/src/app/features/billing/invoice-form/invoice-form.component.ts:230-238 | an empty consultation line of one unit at price 0 and amount 0 |
| InvoiceForm.LineAmount | frontend/ihms-portal/src/app/features/billing/invoice-form/invoice-form.component.ts:248-254 | quantity times unit price, a missing one read as 0 |
| InvoiceForm.Total | frontend/ihms-portal/src/app/features/billing/invoice-form/invoice-form.component.ts:264-268 | the total plus the discount (a missing one read as 0) is the subtotal |
| InvoiceForm.Subtotal | frontend/ihms-portal/src/app/features/billing/invoice-form/invoice-form.component.ts:256-262 | no contract of its own: the sum of the line amounts; `SubtotalAppend`, `SubtotalRemove`, `SubtotalIgnoresAmount` and `RequestAddsUpToSubtotal` state its properties |
| InvoiceForm.ItemValid | frontend/ihms-portal/src/app/features/billing/invoice-form/invoice-form.component.ts:230-238 | no contract of its own: description and category required, quantity at least 1, price at least 0; `ValidItemsSubtotalNonNegative` uses it |
| InvoiceForm.SubtotalAppend | frontend/ihms-portal/src/app/features/billing/invoice-form/invoice-form.component.ts:256-262 | the subtotal of two lists one after the other is the sum of their subtotals |
| InvoiceForm.SubtotalRemove | frontend/ihms-portal/src/app/features/billing/invoice-form/invoice-form.component.ts:244-246 | removing a line takes exactly its amount off the subtotal |
| InvoiceForm.SubtotalIgnoresAmount | frontend/ihms-portal/src/app/features/billing/invoice-form/invoice-form.component.ts:256-262 | the subtotal does not depend on the read-only amount controls |
| InvoiceForm.ValidItemsSubtotalNonNegative | frontend/ihms-portal/src/app/features/billing/invoice-form/invoice-form.component.ts:230-238 | when every line passes its validators (quantity at least 1, price at least 0), the subtotal is at least 0 |
| InvoiceForm.ItemRequestOf | frontend/ihms-portal/src/app/features/billing/invoice-form/invoice-form.component.ts:280-283 | a submitted line carries its fields and quantity times price as its amount |
| InvoiceForm.ItemRequests | frontend/ihms-portal/src/app/features/billing/invoice-form/invoice-form.component.ts:280-283 | one submitted line per form line, in order |
| InvoiceForm.RequestAddsUpToSubtotal | frontend/ihms-portal/src/app/features/billing/invoice-form/invoice-form.component.ts:256-283 | the amounts sent add up to the subtotal the form showed |
| InvoiceForm.InvoiceFormComponent.constructor | frontend/ihms-portal/src/app/features/billing/invoice-form/invoice-form.component.ts:201-221 | one default line, a discount of 0, empty notes, no patient or due date; the minimum due date is the day the form was opened |
| InvoiceForm.InvoiceFormComponent.AddItem | frontend/ihms-portal/src/app/features/billing/invoice-form/invoice-form.component.ts:240-242 | one default line appended; nothing else changes and the subtotal does not move |
| InvoiceForm.InvoiceFormComponent.RemoveItem | frontend/ihms-portal/src/app/features/billing/invoice-form/invoice-form.component.ts:103-246 | exactly that line removed, its amount taken off the subtotal; nothing else changes; removing through the button, shown only beside more than one line, never empties the list |
| InvoiceForm.InvoiceFormComponent.CalculateItemAmount | frontend/ihms-portal/src/app/features/billing/invoice-form/invoice-form.component.ts:248-254 | that line's amount becomes its quantity times price; nothing else changes, the subtotal included |
| InvoiceForm.InvoiceFormComponent.FormValid | frontend/ihms-portal/src/app/features/billing/invoice-form/invoice-form.component.ts:201-221 | no contract of its own: patient and due date given, the due date not before the day the form was opened, every line valid; `OnSubmit` sends exactly when it holds |
| InvoiceForm.InvoiceFormComponent.RemoveOffered | frontend/ihms-portal/src/app/features/billing/invoice-form/invoice-form.component.ts:103 | no contract of its own: the remove button shows beside more than one line; `RemoveItem` proves removing through it leaves a line |
| InvoiceForm.InvoiceFormComponent.OnSubmit | frontend/ihms-portal/src/app/features/billing/invoice-form/invoice-form.component.ts:270-290 | an invalid form sends nothing, a due date before the minimum included; a valid one starts loading and sends every line with its amount, adding up to the subtotal |
| InvoiceForm.InvoiceFormComponent.OnSubmitSuccess | frontend/ihms-portal/src/app/features/billing/invoice-form/invoice-form.component.ts:287-290 | the snack bar confirms the invoice and the portal goes to `/billing`; nothing changes |
| InvoiceForm.InvoiceFormComponent.OnSubmitError | frontend/ihms-portal/src/app/features/billing/invoice-form/invoice-form.component.ts:291-294 | loading stops and the snack bar asks to try again; the form is kept |
| Inventory.Level | frontend/ihms-portal/src/app/features/pharmacy/inventory/inventory.component.ts:240-250 | out of stock exactly at quantity 0; low at or below the reorder level; in stock above it |
| Inventory.StockStatus | frontend/ihms-portal/src/app/features/pharmacy/inventory/inventory.component.ts:240-244 | the chip's CSS class is the one of the batch's level |
| Inventory.StockStatusLabel | frontend/ihms-portal/src/app/features/pharmacy/inventory/inventory.component.ts:246-250 | the chip's text is the one of the batch's level |
| Inventory.ClassAndLabelAgree | frontend/ihms-portal/src/app/features/pharmacy/inventory/inventory.component.ts:240-250 | two batches get the same class exactly when they get the same label, exactly when they are at the same level |
| Inventory.QuantityHighlighted | frontend/ihms-portal/src/app/features/pharmacy/inventory/inventory.component.ts:77 | no contract of its own: quantity at or below the reorder level; `HighlightMatchesLevel` compares it with the stock chip |
| Inventory.HighlightMatchesLevel | frontend/ihms-portal/src/app/features/pharmacy/inventory/inventory.component.ts:77 | a low batch is always highlighted, one in stock never, an empty one exactly when its reorder level is at least 0 |
| Inventory.InventoryComponent.constructor | frontend/ihms-portal/src/app/features/pharmacy/inventory/inventory.component.ts:193-197 | no data, not loading, page size 10, total 0 |
| Inventory.InventoryComponent.LoadInventory | frontend/ihms-portal/src/app/features/pharmacy/inventory/inventory.component.ts:206-208 | loading starts and the page is asked for at the current size; nothing else changes |
| Inventory.InventoryComponent.NgOnInit | frontend/ihms-portal/src/app/features/pharmacy/inventory/inventory.component.ts:201-204 | loading starts and exactly two requests go out, in order: the first page at the current size, then the low-stock list; nothing else changes |
| Inventory.InventoryComponent.LoadLowStockAlerts | frontend/ihms-portal/src/app/features/pharmacy/inventory/inventory.component.ts:220-221 | the low-stock list is asked for, with no parameters, and the screen's state is untouched until it arrives |
| Inventory.InventoryComponent.OnInventoryLoaded | frontend/ihms-portal/src/app/features/pharmacy/inventory/inventory.component.ts:209-213 | the page and total shown become the response's, and loading stops |
| Inventory.InventoryComponent.OnInventoryError | frontend/ihms-portal/src/app/features/pharmacy/inventory/inventory.component.ts:214-216 | loading stops; the page shown stays |
| Inventory.InventoryComponent.OnLowStockLoaded | frontend/ihms-portal/src/app/features/pharmacy/inventory/inventory.component.ts:220-226 | the low-stock list becomes the response; nothing else changes |
| Inventory.InventoryComponent.OnPageChange | frontend/ihms-portal/src/app/features/pharmacy/inventory/inventory.component.ts:228-231 | the page size is kept first, so the request is for the event's page at the event's size |
| PatientForm.AllergiesFromText | frontend/ihms-portal/src/app/features/patient/patient-form/patient-form.component.ts:283 | an empty text gives no allergies; otherwise one entry per comma-separated piece, trimmed |
| PatientForm.AllergiesText | frontend/ihms-portal/src/app/features/patient/patient-form/patient-form.component.ts:265 | no allergies, or an empty list, shows as an empty text |
| PatientForm.SplitJoined | frontend/ihms-portal/src/app/features/patient/patient-form/patient-form.component.ts:265-283 | a list joined with ", " splits at the commas into its first entry and the others with a blank in front |
| PatientForm.TrimPiece | frontend/ihms-portal/src/app/features/patient/patient-form/patient-form.component.ts:283 | a piece of a joined list trims back to its entry |
| PatientForm.TrimPieces | frontend/ihms-portal/src/app/features/patient/patient-form/patient-form.component.ts:283 | every piece of a joined list trims back to its entry |
| PatientForm.AllergiesRoundTrip | frontend/ihms-portal/src/app/features/patient/patient-form/patient-form.component.ts:265-283 | a list shown as text and read back is the same list, when no entry holds a comma or outer blanks and the list is not one empty entry |
| PatientForm.NoAllergiesRoundTrip | frontend/ihms-portal/src/app/features/patient/patient-form/patient-form.component.ts:265-283 | a patient without allergies shows an empty text and sends no allergies |
| PatientForm.Patched | frontend/ihms-portal/src/app/features/patient/patient-form/patient-form.component.ts:263-266 | the patient's fields replace the controls, an absent optional one leaving its control; the allergies shown as text |
| PatientForm.Payload | frontend/ihms-portal/src/app/features/patient/patient-form/patient-form.component.ts:280-285 | every control's value, with the allergies read from the text |
| PatientForm.LoadThenSubmit | frontend/ihms-portal/src/app/features/patient/patient-form/patient-form.component.ts:260-285 | a patient loaded and submitted unchanged is sent back with its own allergies and fields |
| PatientForm.PatientFormComponent.constructor | frontend/ihms-portal/src/app/features/patient/patient-form/patient-form.component.ts:226-248 | the empty form, not in edit mode, not loading |
| PatientForm.PatientFormComponent.NgOnInit | frontend/ihms-portal/src/app/features/patient/patient-form/patient-form.component.ts:251-258 | a non-empty id turns on edit mode, records the id and asks for that patient; otherwise nothing changes |
| PatientForm.PatientFormComponent.OnPatientLoaded | frontend/ihms-portal/src/app/features/patient/patient-form/patient-form.component.ts:262-266 | the form becomes `Patched`'s; nothing else changes |
| PatientForm.PatientFormComponent.OnPatientLoadError | frontend/ihms-portal/src/app/features/patient/patient-form/patient-form.component.ts:268-270 | back to the patient list |
| PatientForm.EmptyForm | frontend/ihms-portal/src/app/features/patient/patient-form/patient-form.component.ts:226-248 | every control starts empty, so the new form is invalid whatever the e-mail check says |
| PatientForm.FormValid | frontend/ihms-portal/src/app/features/patient/patient-form/patient-form.component.ts:226-233 | no contract of its own: the six required controls filled in and the e-mail well formed; `OnSubmit` sends exactly when it holds |
| PatientForm.PatientFormComponent.OnSubmit | frontend/ihms-portal/src/app/features/patient/patient-form/patient-form.component.ts:274-290 | an invalid form sends nothing; a valid one starts loading and sends an update in edit mode, a create otherwise |
| PatientForm.PatientFormComponent.OnSubmitSuccess | frontend/ihms-portal/src/app/features/patient/patient-form/patient-form.component.ts:292-295 | the snack bar says "updated" in edit mode and "created" otherwise, and the portal goes to `/patients`; nothing changes |
| PatientForm.PatientFormComponent.OnSubmitError | frontend/ihms-portal/src/app/features/patient/patient-form/patient-form.component.ts:296-299 | loading stops and the snack bar asks to try again; the form is kept |
| AppointmentForm.EmptyForm | frontend/ihms-portal/src/app/features/appointment/appointment-form/appointment-form.component.ts:219-229 | a 30-minute consultation with the required controls empty, so the new form is not filled in |
| AppointmentForm.KnownDoctors | frontend/ihms-portal/src/app/features/appointment/appointment-form/appointment-form.component.ts:198-203 | four doctors with distinct ids, the k-th in department k |
| AppointmentForm.Filled | frontend/ihms-portal/src/app/features/appointment/appointment-form/appointment-form.component.ts:219-229 | no contract of its own: every control but duration and notes holds a value; `RequestOf` needs it |
| AppointmentForm.FormValid | frontend/ihms-portal/src/app/features/appointment/appointment-form/appointment-form.component.ts:182-229 | no contract of its own: filled in, and the date not before the day the form was opened; `OnSubmit` sends exactly when it holds |
| AppointmentForm.PastDateInvalid | frontend/ihms-portal/src/app/features/appointment/appointment-form/appointment-form.component.ts:85 | a date before the minimum makes the form invalid however the rest is filled in, and moving it to the minimum makes it valid exactly when filled in |
| AppointmentForm.DoctorsOf | frontend/ihms-portal/src/app/features/appointment/appointment-form/appointment-form.component.ts:269-271 | exactly the doctors of the chosen department; none when no department is chosen |
| AppointmentForm.DoctorsOfAppend | frontend/ihms-portal/src/app/features/appointment/appointment-form/appointment-form.component.ts:271 | the filter keeps the order of the list |
| AppointmentForm.DoctorsOfIdempotent | frontend/ihms-portal/src/app/features/appointment/appointment-form/appointment-form.component.ts:271 | filtering twice by the same department is filtering once |
| AppointmentForm.RequestOf | frontend/ihms-portal/src/app/features/appointment/appointment-form/appointment-form.component.ts:283-287 | every control's value, the date printed |
| AppointmentForm.Loaded | frontend/ihms-portal/src/app/features/appointment/appointment-form/appointment-form.component.ts:250-260 | every control overwritten from the loaded appointment |
| AppointmentForm.AppointmentFormComponent.constructor | frontend/ihms-portal/src/app/features/appointment/appointment-form/appointment-form.component.ts:182-229 | the empty form with the four known doctors, not in edit mode, no doctors offered; the minimum date is the day the form was opened |
| AppointmentForm.AppointmentFormComponent.NgOnInit | frontend/ihms-portal/src/app/features/appointment/appointment-form/appointment-form.component.ts:232-245 | a patient query parameter pre-fills the patient; a non-empty id turns on edit mode and asks for that appointment |
| AppointmentForm.AppointmentFormComponent.OnDepartmentChange | frontend/ihms-portal/src/app/features/appointment/appointment-form/appointment-form.component.ts:269-275 | the doctors offered become the department's; a new booking forgets the doctor chosen |
| AppointmentForm.AppointmentFormComponent.OnAppointmentLoaded | frontend/ihms-portal/src/app/features/appointment/appointment-form/appointment-form.component.ts:249-261 | the controls filled in and the doctors of the appointment's department offered |
| AppointmentForm.AppointmentFormComponent.OnAppointmentLoadError | frontend/ihms-portal/src/app/features/appointment/appointment-form/appointment-form.component.ts:263-265 | back to the appointment list |
| AppointmentForm.AppointmentFormComponent.OnSubmit | frontend/ihms-portal/src/app/features/appointment/appointment-form/appointment-form.component.ts:277-291 | an invalid form sends nothing, a date before the minimum included; a valid one starts loading and sends an update in edit mode, a booking otherwise |
| AppointmentForm.AppointmentFormComponent.OnSubmitSuccess | frontend/ihms-portal/src/app/features/appointment/appointment-form/appointment-form.component.ts:294-297 | the snack bar says "updated" in edit mode and "booked" otherwise, and the portal goes to `/appointments`; nothing changes |
| AppointmentForm.AppointmentFormComponent.OnSubmitError | frontend/ihms-portal/src/app/features/appointment/appointment-form/appointment-form.component.ts:298-301 | loading stops and the snack bar asks to try again; the form is kept |
| AppointmentDetail.Actions | frontend/ihms-portal/src/app/features/appointment/appointment-detail/appointment-detail.component.ts:33-45 | no buttons before loading; Edit and Cancel for a pending or confirmed appointment; Confirm only when pending; Complete only when confirmed |
| AppointmentDetail.ActionsConsistent | frontend/ihms-portal/src/app/features/appointment/appointment-detail/appointment-detail.component.ts:33-45 | Confirm and Complete are never offered together, each comes with Edit and Cancel, and a finished appointment offers nothing |
| AppointmentDetail.AppointmentDetailComponent.constructor | frontend/ihms-portal/src/app/features/appointment/appointment-detail/appointment-detail.component.ts:199-204 | no appointment held |
| AppointmentDetail.AppointmentDetailComponent.NgOnInit | frontend/ihms-portal/src/app/features/appointment/appointment-detail/appointment-detail.component.ts:206-211 | a non-empty id asks for that appointment |
| AppointmentDetail.AppointmentDetailComponent.OnLoadError | frontend/ihms-portal/src/app/features/appointment/appointment-detail/appointment-detail.component.ts:218-220 | back to the appointment list |
| AppointmentDetail.AppointmentDetailComponent.ConfirmAppointment | frontend/ihms-portal/src/app/features/appointment/appointment-detail/appointment-detail.component.ts:224-233 | the held appointment's id is sent to confirm; nothing when none is held |
| AppointmentDetail.AppointmentDetailComponent.CompleteAppointment | frontend/ihms-portal/src/app/features/appointment/appointment-detail/appointment-detail.component.ts:235-244 | the held appointment's id is sent to complete; nothing when none is held |
| AppointmentDetail.AppointmentDetailComponent.CancelAppointment | frontend/ihms-portal/src/app/features/appointment/appointment-detail/appointment-detail.component.ts:246-255 | the dialog is shown exactly when an appointment is held, and the request sent exactly when the user agrees |
| AppointmentDetail.AppointmentDetailComponent.ShowAppointment | frontend/ihms-portal/src/app/features/appointment/appointment-detail/appointment-detail.component.ts:215-217 | the appointment shown becomes the one the server sent |
| AppointmentDetail.AppointmentDetailComponent.OnActionDone | frontend/ihms-portal/src/app/features/appointment/appointment-detail/appointment-detail.component.ts:227-252 | after confirm, complete or cancel, the appointment the server sent is shown and the snack bar says "confirmed", "completed" or "cancelled" accordingly |
| PatientClient.PatientUrl | frontend/ihms-portal/src/app/core/services/patient.service.ts:22-24 | a patient's address is the base address, a slash, then the id |
| PatientClient.GetPatients | frontend/ihms-portal/src/app/core/services/patient.service.ts:15-20 | a GET of the base address with the page and the size, always both (0 and 10 by default) |
| PatientClient.GetPatient | frontend/ihms-portal/src/app/core/services/patient.service.ts:22-24 | a GET of the patient's address |
| PatientClient.CreatePatient | frontend/ihms-portal/src/app/core/services/patient.service.ts:26-28 | a POST of the patient to the base address |
| PatientClient.UpdatePatient | frontend/ihms-portal/src/app/core/services/patient.service.ts:30-32 | a PUT of the patient to its address |
| PatientClient.DeletePatient | frontend/ihms-portal/src/app/core/services/patient.service.ts:34-36 | a DELETE of the patient's address |
| PatientClient.GetPatientMedicalHistory | frontend/ihms-portal/src/app/core/services/patient.service.ts:50-52 | a GET of the patient's history address |
| PatientClient.TextParam | frontend/ihms-portal/src/app/core/services/patient.service.ts:40-43 | a text criterion is sent only when present and not empty |
| PatientClient.NumberParam | frontend/ihms-portal/src/app/core/services/patient.service.ts:44-45 | a page or size is sent whenever given, 0 included |
| PatientClient.SearchPatients | frontend/ihms-portal/src/app/core/services/patient.service.ts:38-48 | a GET of the search address with the criteria's parameters |
| PatientClient.LookupAppend | frontend/ihms-portal/src/app/core/services/patient.service.ts:39-45 | a parameter set earlier is found before one set later |
| PatientClient.SetInOrder | frontend/ihms-portal/src/app/core/services/patient.service.ts:39-45 | setting a parameter of a later rank keeps the order |
| PatientClient.LookupText | frontend/ihms-portal/src/app/core/services/patient.service.ts:40-43 | a text parameter carries its criterion's value under its own name only |
| PatientClient.LookupNumber | frontend/ihms-portal/src/app/core/services/patient.service.ts:44-45 | a number parameter carries its criterion's value under its own name only |
| PatientClient.SearchLookup | frontend/ihms-portal/src/app/core/services/patient.service.ts:38-48 | each search parameter's value is the one its own criterion sets |
| PatientClient.Truthy | frontend/ihms-portal/src/app/core/services/patient.service.ts:40-43 | no contract of its own: present and not empty; `TextParam` sends a text criterion exactly when it holds |
| PatientClient.SearchParams | frontend/ihms-portal/src/app/core/services/patient.service.ts:39-45 | no contract of its own: the parameters set one after the other; `SearchParamsSent` and `SearchParamsInOrder` state which are sent, with what value, in what order |
| PatientClient.SearchParamsSent | frontend/ihms-portal/src/app/core/services/patient.service.ts:38-48 | which search parameters are sent, and with what value |
| PatientClient.SearchParamsInOrder | frontend/ihms-portal/src/app/core/services/patient.service.ts:38-48 | the search parameters always come in the order first name, last name, e-mail, phone, page, size |
| PatientClient.EmptyTextIsOmitted | frontend/ihms-portal/src/app/core/services/patient.service.ts:40-43 | searching with an empty text criterion is searching without it |
| PatientClient.PatientUrlInjective | frontend/ihms-portal/src/app/core/services/patient.service.ts:22-36 | different patients have different addresses |
| PatientClient.SearchIsNoPatient | frontend/ihms-portal/src/app/core/services/patient.service.ts:22-48 | the search address is no patient's address |

## Left out

- HTTP between the services: Feign clients, their fallbacks and the portal's transport. The patient lookup's outcome is an input (`RemotePatient.Lookup`), and a portal request is the value a component hands to its client.
- JPA mechanics: list order, lazy loading and the `createdAt`/`updatedAt` timestamps of every entity. Tables are maps from id to row, so a query's answer is a sub-map and not an ordered list.
- The clock: `LocalDateTime.now()`, `System.currentTimeMillis()` and `new Date()` are parameters. This covers generated numbers and SKUs, due dates, payment dates, a prescription's `prescribedAt` and `dispensedAt`, the expiring-drugs horizon, and the day the portal's appointment and invoice forms were opened, below which their date pickers refuse a date. `isExpiringSoon` in the inventory screen, which only reads the clock, is not modelled.
- Time in seconds: instants are whole seconds and dates whole days. Seconds rather than minutes make the 23:59:59 end of `getAppointmentsByDate` exact. Sub-second precision and time zones (`toISOString`) are left out.
- Date text: `LocalDate.parse`, `LocalDate.toString`, `new Date(text)` and `toISOString().split('T')[0]` are inputs.
- Password hashing and JWT signing are inputs (`encode`, `matches`, `token`). The `User` entity, the portal's own `AuthService` and the environment file are not part of this model.
- JavaScript numbers are reals, so floating-point rounding in the invoice form is not modelled. `BigDecimal` is modelled exactly as `real`, with no scale or rounding mode.
- Text: `LOWER`, `toUpperCase` and `trim` act on ASCII only; Unicode case folding is left out. A `%` or `_` inside a search keyword is read as a literal character, not as a `LIKE` wildcard.
- Transactions and concurrency: each `@Transactional` method is one atomic step that leaves the tables untouched on failure. Races between requests are not modelled.
- Not-found messages: `NotFound` carries the entity's name but not the id the Java message prints.
- DTO mapping: the product and drug getters return the stored rows in place of their DTOs.
- PrescriptionService.PrescriptionService.GetPrescriptionById: returns the stored row. The prescription `toDTO` (the patient's name and the item DTOs) is not modelled.
- PrescriptionService.DispenseFrom: refuses a line whose drug row is missing with `NotFound`. The foreign key rules this case out in the running system.
- AppointmentService.AppointmentService.CreateAppointment: uses one patient lookup for both the existence check and `toDTO`. The Java code calls the patient service twice, and the two answers could differ.
- AuthService.AuthService.Register: the username, e-mail, password and names of the request are taken to be non-null. Only the role is nullable.
- AuthGuard.RoleGuard: reads `hasRole` as membership in the session's set of roles.
- InvoiceForm.InvoiceFormComponent.RemoveItem: requires an index within the list. The screen only calls it with the index of a line it shows.
- PaymentEntity: the payment date that `onCreate` fills in is not kept in the row, being a clock reading.
- Controllers, route tables, the list and dashboard screens, and the pharmacy, appointment and billing clients of the portal only forward or display. They are not part of this model.
- The portal's appointment screens offer their actions for PENDING and CONFIRMED appointments. The appointment service creates SCHEDULED ones, so a new booking shows no action until its status is changed. Each side is modelled as written.
