# Computer Store back office, modelled in Dafny

This project models the in-memory back office of the "Computer Store" point-of-sale
application. That back office is a single shared store of arrays: products, sales,
invoices, payments, warranties, stock movements, audit entries, clients, categories,
validations and warranty claims. The mock services read that store and update it in
place. Around it sit a few small pure pieces:

- the static-dataset getters;
- the barcode builder and formatter;
- the two credential checks;
- the side menu's role table;
- the gate every protected page passes through.

How the source maps onto Dafny:

- **The store** is the class `BackOffice.Store`, with one `seq` field per entity.
  - Every service operation that writes is a method taking the store, with
    `modifies store`.
  - Each such method states its whole new state as `store.Snapshot() ==
    old(store.Snapshot()).(field := ...)`, which also says that nothing else changes.
  - A lookup of an absent id is the source's thrown error, modelled as `Err(message)`.
    On that path the store is unchanged.
- **Read operations** (filter chains, lookups, statistics, documents) are functions over
  the collections they copy.
- **Loops** stay loops: the stock check, warranty creation, stock exits and the two
  ranking tallies are methods, each proved equal to a specification function.
- **Sale creation** is specified by the whole-state function
  `SalesService.SaleCreation`. The imperative method `SalesService.Create` is proved to
  produce exactly that outcome, and the sale's properties are lemmas about the function.
- **Clocks, ids, randomness and the browser's user agent** are one parameter,
  `Entities.Env(stamp, now, random, navigator)`. Each call sees a single instant.
- **Money and quantities** are unbounded integers.
- **Status strings** are enumerations.
- **JavaScript truthiness** is modelled where the source relies on it: `""` and `0`
  count as "not given" in `if (x)` and `x || default`.
- **Calendar dates** are `Dates.Instant` (year, month 0-11, day, milliseconds), in UTC.
  `Dates.AddMonths` follows `setMonth`, including its overflow into the following month.
  `Dates.AddDays` follows `setDate`.

## Model

| member | source | states |
|---|---|---|
| SalesService.GetAll | services/mock-sales-service.ts:39-66 | the result is a permutation of the sales matching every given filter; the date range applies only when both bounds are given and is inclusive; the result is sorted by sale date, newest first; `meta.total` is the match count |
| SalesService.FiltersMeanMatches | services/mock-sales-service.ts:44-59 | the chain of optional filters keeps exactly the sales satisfying their conjunction |
| SalesService.GetById | services/mock-sales-service.ts:68-73 | error iff no sale has the id; otherwise the first sale with the id |
| SalesService.UpdateStatus | services/mock-sales-service.ts:169-175 | sets the status of the first sale with the id whatever it was; changes nothing else; an unknown id is an error that changes nothing |
| SalesService.CheckStock | services/mock-sales-service.ts:78-83 | returns the index of the first line whose product is missing or lacks stock, or a negative value when every line passes on its own |
| SalesService.SaleLines | services/mock-sales-service.ts:102-106 | one sale line per submitted line, carrying its fields and the product it names |
| SalesService.RecordSale | services/mock-sales-service.ts:93-111 | appends exactly the sale record built from the store as it was before the call, and returns it |
| SalesService.ExitFor | services/mock-sales-service.ts:141-151 | the exit recorded for a line: SORTIE, the line's quantity and product, the seller, motif "Vente " + sale number |
| SalesService.AddWarranties | services/mock-sales-service.ts:127-138 | the loop appends exactly the warranties of the specification, in line order, and changes nothing else |
| SalesService.RecordExit | services/mock-sales-service.ts:141-157 | one iteration appends the line's exit and lowers the stock of the first product with the line's id |
| SalesService.TakeStock | services/mock-sales-service.ts:153-157 | lowers the stock of the first product with the line's id by the line's quantity, leaves the store as it was when none has it, and changes nothing else |
| SalesService.RecordExits | services/mock-sales-service.ts:140-158 | the loop appends one exit per line and applies every line's decrement, and changes nothing else |
| SalesService.SaleCreation | services/mock-sales-service.ts:75-167 | refused with the store unchanged iff some line's product is missing or short; on success the sale is appended with one more invoice, payment and audit entry; clients, categories, users, validations and claims never change |
| SalesService.Create | services/mock-sales-service.ts:75-167 | the method's outcome (result and whole new store) is exactly `SaleCreation` of the old store |
| SalesService.CreateChecksStock | services/mock-sales-service.ts:78-83 | creation fails iff some line on its own finds no product or too little stock; the error names the first such line and the store is unchanged |
| SalesService.CreateTotals | services/mock-sales-service.ts:86-101 | `totalBrut` is the sum of the submitted subtotals, `totalNet = totalBrut - remiseGlobale` with no lower bound; VALIDEE, dated now, for the given client and seller |
| SalesService.SubmittedSubtotalsDecide | services/mock-sales-service.ts:86-87 | the totals follow the caller's `sousTotal`, never quantity times price: a subtotal of 0 gives a negative net total |
| SalesService.OneLineSale | services/mock-sales-service.ts:78-101 | a one-line sale that passes the stock check is created with the line's submitted subtotal as `totalBrut` and that minus the discount as `totalNet` |
| SalesService.CreateNumbering | services/mock-sales-service.ts:90 | the sale number is "V-", the year, "-", then the count of earlier sales plus one in at least six digits |
| SalesService.SaleNumbersDistinct | services/mock-sales-service.ts:90 | different sale counts in the same year give different numbers |
| SalesService.CreateAppendsOneOfEach | services/mock-sales-service.ts:111-125 | success appends exactly one sale, one invoice, one payment and one audit entry, and leaves clients, categories, validations, claims and users alone |
| SalesService.CreateLinkedRecords | services/mock-sales-service.ts:113-164 | the invoice bills `totalNet`, is unpaid, GENEREE and due in 30 days; the payment pays `totalNet` by the given mode; the audit entry is CREATE_SALE on "Vente" with no old values |
| SalesService.SaleWarrantiesOfCoveredLines | services/mock-sales-service.ts:127-138 | the warranties are the covered lines (product found, `garantieMois > 0`), each mapped to its warranty |
| SalesService.CreateWarranties | services/mock-sales-service.ts:127-138 | exactly one ACTIVE warranty per covered line, starting now, ending `garantieMois` months later, described "Garantie constructeur N mois" |
| SalesService.WarrantiesOfLines | services/mock-sales-service.ts:127-138 | one warranty per covered line and no other, in line order: ACTIVE, starting now, ending `garantieMois` months later, for the sale and the line's product |
| SalesService.CreateMovements | services/mock-sales-service.ts:140-151 | exactly one SORTIE per line, in line order, with the line's product and quantity and motif "Vente " + number |
| SalesService.DecrementsTake | services/mock-sales-service.ts:153-157 | after all lines, each product's stock is lowered by the quantities of the lines that resolve to it |
| SalesService.CreateStock | services/mock-sales-service.ts:153-157 | on success each product's stock drops by the quantity taken from it, and no product is added or removed |
| SalesService.TakenWithDistinctIds | services/mock-sales-service.ts:153-157 | with distinct product ids, the quantity taken from a product is the sum over the lines naming it |
| SalesService.CreateStockDistinctIds | services/mock-sales-service.ts:140-158 | with distinct product ids, each stock drops by the total quantity of the lines naming it |
| SalesService.RepeatedProductCanGoNegative | services/mock-sales-service.ts:78-83 | two lines for one product, each within stock but together above it, pass the check and leave a negative stock |
| SalesRanking.TallyLines | services/mock-sales-service.ts:213-223 | the per-line loop equals the specification tally `AddLines` |
| SalesRanking.EntryFirstLine | services/mock-sales-service.ts:214-222 | the first line for a product opens an entry holding that line's product, quantity and subtotal |
| SalesRanking.EntrySameLine | services/mock-sales-service.ts:221-222 | a further line for a product adds its quantity and subtotal to that product's entry |
| SalesRanking.EntryOtherLine | services/mock-sales-service.ts:221-222 | a line for another product leaves an entry's figures as they were |
| SalesRanking.GetTopProducts | services/mock-sales-service.ts:207-229 | the method returns `TopProducts`: the tallies sorted by revenue and sliced to `limit` |
| SalesRanking.AddLinesTallies | services/mock-sales-service.ts:212-224 | accumulating lines keeps every entry equal to the quantity and revenue sums of its product's lines |
| SalesRanking.ProductTotalsTally | services/mock-sales-service.ts:210-224 | each product entry holds the sum of quantities and of subtotals over all lines of all sales naming it, one entry per product |
| SalesRanking.TopProductsRanked | services/mock-sales-service.ts:226-228 | sorted by revenue descending, as long as JavaScript's `slice(0, limit)` makes it (negative limits count from the end), every entry a true tally, and no product left out earns more than one kept |
| SalesRanking.GetTopClients | services/mock-sales-service.ts:231-251 | the method returns `TopClients`: the per-client tallies sorted by amount spent and sliced to `limit` |
| SalesRanking.EntryFirstSale | services/mock-sales-service.ts:237-245 | the first sale of a client opens an entry holding that sale's client, its net total and one purchase |
| SalesRanking.EntrySameSale | services/mock-sales-service.ts:244-245 | a further sale of a client adds its net total and one purchase to that client's entry |
| SalesRanking.ClientTotalsTally | services/mock-sales-service.ts:236-246 | each client entry holds the sum of `totalNet` and the count of that client's sales |
| SalesRanking.TopClientsRanked | services/mock-sales-service.ts:248-250 | sorted by amount spent descending, length per `slice(0, limit)`, every entry a true tally, and no client left out spent more than one kept |
| ProductService.FiltersMeanMatches | services/mock-product-service.ts:19-40 | the filter chain keeps exactly the products matching search (name or code, lower-cased), category, status and `stock <= stockMin` |
| ProductService.FilterProducts | services/mock-product-service.ts:19-40 | the kept products are exactly the store's products that match, in store order |
| ProductService.GetAllProduits | services/mock-product-service.ts:5-56 | the page is the window `[(page-1)*limit, +limit)` of the matches, page and limit default to 1 and 10 (also for 0), total is the match count |
| ProductService.GetProduitById | services/mock-product-service.ts:58-63 | error iff no product has the id; otherwise the first one |
| ProductService.NewProductRecord | services/mock-product-service.ts:67-76 | the created product is ACTIF, dated now, with the given code, name, description, image, purchase, minimum and sale prices, stock and threshold; its category is found iff some category has its id |
| ProductService.CreateProduit | services/mock-product-service.ts:65-78 | appends exactly that product and changes nothing else |
| ProductService.CreatedIsFound | services/mock-product-service.ts:65-78 | when no earlier product has the new "prod-" + stamp id, the created product is ACTIF and `getById` with that id returns it |
| ProductService.ApplyPatch | services/mock-product-service.ts:85 | each supplied field (code, name, description, image, purchase, minimum and sale prices, stock, threshold, warranty months, category id) is overwritten and each absent one kept; id, status, creation date and the joined category kept; the modification date set |
| ProductService.PatchIdempotent | services/mock-product-service.ts:85 | applying the same patch twice equals applying it once |
| ProductService.UpdateProduit | services/mock-product-service.ts:80-87 | patches the first product with the id; unknown id: error, nothing changes |
| ProductService.UpdatedIsFound | services/mock-product-service.ts:80-87 | after an update the id finds the patched product |
| ProductService.DemandeSuppression | services/mock-product-service.ts:89-96 | sets only the status to EN_ATTENTE_SUPPRESSION; unknown id: error, nothing changes |
| ProductService.DeletionRequestIdempotent | services/mock-product-service.ts:89-96 | a repeated deletion request finds the same product and changes nothing more |
| ProductService.StockMovement | services/mock-product-service.ts:103-116 | the movement's signed quantity is the adjustment; ENTREE iff the adjustment is positive, otherwise SORTIE (zero included) |
| ProductService.UpdateStock | services/mock-product-service.ts:98-119 | adds the signed quantity to the stock with no lower bound and appends exactly one movement; unknown id: error, nothing changes |
| StockMovementService.FiltersMeanMatches | services/mock-stock-movement-service.ts:17-31 | the chain keeps exactly the movements matching product, type and the inclusive date bounds |
| StockMovementService.FilterMovements | services/mock-stock-movement-service.ts:17-31 | the kept movements are exactly the matching ones in store order |
| StockMovementService.GetAllMouvements | services/mock-stock-movement-service.ts:5-47 | paginated like the product list over the matching movements |
| StockMovementService.GetMouvementById | services/mock-stock-movement-service.ts:49-54 | error iff absent; otherwise the first movement with the id |
| StockMovementService.GetStatistiquesMouvements | services/mock-stock-movement-service.ts:56-83 | counts every movement in the window, sums ENTREE and SORTIE quantities separately, lists no products |
| StockMovementService.StatsBalance | services/mock-stock-movement-service.ts:80 | `solde` is the signed sum of the window's movements, adjustments counting zero |
| StockMovementService.BalanceIsSignedSum | services/mock-stock-movement-service.ts:72-80 | entries minus exits equals the sum of signed quantities |
| StockMovementService.TypesPartitionQuantity | services/mock-stock-movement-service.ts:72-74 | the three movement types partition the total quantity, so AJUSTEMENT is in neither total |
| StockMovementService.StatsAgreeWithListing | services/mock-stock-movement-service.ts:62-77 | the statistics count equals the listing's total for the same date window |
| CategoryService.FiltersMeanMatches | services/mock-category-service.ts:15-22 | search on the lower-cased name, and the status filter whenever it is defined, `false` included |
| CategoryService.FilterCategories | services/mock-category-service.ts:15-22 | the kept categories are exactly the matching ones in store order |
| CategoryService.GetAllCategories | services/mock-category-service.ts:5-38 | paginated with the same defaults and page count as the product list |
| CategoryService.GetCategorieById | services/mock-category-service.ts:40-45 | error iff absent; otherwise the first category with the id |
| CategoryService.NewCategoryRecord | services/mock-category-service.ts:49-57 | active, with the given name and description, created and modified now |
| CategoryService.CreateCategorie | services/mock-category-service.ts:47-59 | appends exactly that category |
| CategoryService.CreatedIsFound | services/mock-category-service.ts:47-59 | when no earlier category has the new "cat-" + stamp id, `getById` with that id returns the created category |
| CategoryService.ApplyPatch | services/mock-category-service.ts:66 | merges the supplied fields and sets the modification date |
| CategoryService.UpdateCategorie | services/mock-category-service.ts:61-68 | patches the first category with the id; unknown id: error, nothing changes |
| CategoryService.UpdatedIsFound | services/mock-category-service.ts:61-68 | after an update the id finds the patched category |
| CategoryService.UpdateCategorieStatut | services/mock-category-service.ts:70-77 | changes only the status, not the modification date; unknown id: error, nothing changes |
| CategoryService.DeleteCategorie | services/mock-category-service.ts:79-86 | removes exactly the first category with the id, the rest keep their order; unknown id: error, nothing changes |
| CategoryService.DeletedIsGone | services/mock-category-service.ts:79-86 | with distinct ids, the deleted id is no longer found, every other lookup is unchanged, the list is one shorter |
| ClientService.FiltersMeanMatches | services/mock-client-service.ts:35-49 | the chain keeps exactly the live clients matching the search (name and email lower-cased, phone raw) and the type |
| ClientService.GetAll | services/mock-client-service.ts:32-65 | the matching live clients in store order, each with `totalAchats` and `nombreAchats` computed from its sales; no deleted client |
| ClientService.GetById | services/mock-client-service.ts:67-78 | error iff no live client has the id; otherwise that client with its purchase totals |
| ClientService.TotalsAfterSale | services/mock-client-service.ts:52-59 | one more sale of the client adds its net total and one purchase; another client's sale changes nothing |
| ClientService.FiguresAfterSale | services/mock-client-service.ts:52-59 | one more sale adds its net total and one purchase to its own client's figures and leaves every other client's figures alone |
| ClientService.NewClientRecord | services/mock-client-service.ts:83-91 | not deleted, with the given name, email, client type, phone, address, city, postal code and country, no totals, created and modified now |
| ClientService.Create | services/mock-client-service.ts:80-93 | appends exactly that client |
| ClientService.ApplyPatch | services/mock-client-service.ts:100 | each supplied field (name, email, client type, phone, address, city, postal code, country) overwrites and each absent one is kept; id, creation date, totals and the deletion flag kept; the modification date set |
| ClientService.Update | services/mock-client-service.ts:95-102 | patches the first client with the id, deleted or not; unknown id: error, nothing changes |
| ClientService.Delete | services/mock-client-service.ts:104-110 | sets `supprime` on the first client with the id and keeps the record; unknown id: error, nothing changes |
| ClientService.DeletedIsHidden | services/mock-client-service.ts:69-70 | with distinct client ids, after a delete `getById` fails for that id and `getAll` never lists it |
| ClientService.UpdateReachesDeleted | services/mock-client-service.ts:97-110 | `update` and `delete` still find a deleted client, and deleting it again changes nothing |
| WarrantyService.FiltersMeanMatches | services/mock-warranty-service.ts:30-45 | the chain keeps exactly the warranties matching status, product and, when both bounds are given, the inclusive start-date range |
| WarrantyService.GetAll | services/mock-warranty-service.ts:24-51 | the matching warranties in store order, unpaged |
| WarrantyService.HalfRangeIgnored | services/mock-warranty-service.ts:40-45 | a date range with one bound missing filters nothing |
| WarrantyService.GetById | services/mock-warranty-service.ts:53-58 | error iff absent; otherwise the first warranty with the id |
| WarrantyService.NewWarrantyRecord | services/mock-warranty-service.ts:63-76 | ACTIVE, start copied, end = start plus the duration in calendar months, description defaulting to "Garantie constructeur" |
| WarrantyService.EndAfterStart | services/mock-warranty-service.ts:63-64 | a positive duration ends strictly after the start; a zero duration ends on it |
| WarrantyService.MonthArithmeticExamples | services/mock-warranty-service.ts:63-64 | 31 January plus 12 months is 31 January next year; plus one month overflows to 2 March in a leap year |
| WarrantyService.Create | services/mock-warranty-service.ts:60-78 | appends exactly that warranty |
| WarrantyService.UpdateStatus | services/mock-warranty-service.ts:80-86 | sets any status with no transition check; unknown id: error, nothing changes |
| WarrantyService.GenerateAttestation | services/mock-warranty-service.ts:88-98 | "attestation-" + id + ".pdf"; error iff the id is absent |
| InvoiceService.FiltersMeanMatches | services/mock-invoice-service.ts:27-33 | the chain keeps exactly the invoices matching status and sale |
| InvoiceService.GetAll | services/mock-invoice-service.ts:22-39 | the matching invoices in store order, unpaged |
| InvoiceService.GetById | services/mock-invoice-service.ts:41-46 | error iff absent; otherwise the first invoice with the id |
| InvoiceService.NewInvoiceRecord | services/mock-invoice-service.ts:51-65 | numbered from the invoice count, unpaid, GENEREE, copying sale, amount and due date |
| InvoiceService.NumberCountsInvoices | services/mock-invoice-service.ts:51 | the number is "F-", the year, "-", then the count of earlier invoices plus one in at least six digits |
| InvoiceService.NumbersDistinct | services/mock-invoice-service.ts:51 | different invoice counts in the same year give different numbers |
| InvoiceService.Create | services/mock-invoice-service.ts:48-67 | appends exactly that invoice |
| InvoiceService.UpdateStatus | services/mock-invoice-service.ts:69-75 | sets any status unguarded; unknown id: error, nothing changes |
| InvoiceService.UpdatedIsFound | services/mock-invoice-service.ts:69-75 | after the change the id finds the updated invoice |
| InvoiceService.GeneratePdf | services/mock-invoice-service.ts:77-86 | "facture-" + number + ".pdf"; error iff the id is absent |
| PaymentService.FiltersMeanMatches | services/mock-payment-service.ts:27-37 | the chain keeps exactly the payments matching mode, status and sale |
| PaymentService.GetAll | services/mock-payment-service.ts:22-43 | the matching payments in store order, unpaged |
| PaymentService.GetById | services/mock-payment-service.ts:45-50 | error iff absent; otherwise the first payment with the id |
| PaymentService.ReferenceFor | services/mock-payment-service.ts:62 | the given reference when non-empty, otherwise "REF-" + timestamp; never empty |
| PaymentService.NewPaymentRecord | services/mock-payment-service.ts:55-66 | VALIDE, copying sale, amount and mode (not validated), paid now |
| PaymentService.Create | services/mock-payment-service.ts:52-68 | appends exactly that payment |
| PaymentService.CreatedIsListed | services/mock-payment-service.ts:27-37 | a new payment is listed under its mode, VALIDE and its sale, after the earlier matches |
| PaymentService.GenerateReceipt | services/mock-payment-service.ts:70-79 | "bordereau-" + reference + ".pdf"; error iff the id is absent |
| AuditService.FiltersMeanMatches | services/mock-audit-service.ts:22-32 | the chain keeps exactly the entries matching user, action and entity |
| AuditService.FilterAudits | services/mock-audit-service.ts:20-32 | the filter chain over a copy of the entries |
| AuditService.GetAll | services/mock-audit-service.ts:17-41 | a permutation of the matching entries, sorted by date newest first, total = count |
| AuditService.UnfilteredHoldsAll | services/mock-audit-service.ts:17-41 | without filters the result holds every entry exactly once |
| AuditService.NewAuditRecord | services/mock-audit-service.ts:46-59 | the given user, action, entity, entity id and values, address "192.168.1.1", dated now, user agent or "Unknown" |
| AuditService.Log | services/mock-audit-service.ts:43-61 | appends exactly that entry and changes nothing else |
| AuditService.LoggedIsListed | services/mock-audit-service.ts:17-61 | a logged entry is listed under its user, action and entity, in addition to the earlier matches |
| ValidationService.GetAll | services/mock-validation-service.ts:16-29 | the validations with the given status in store order, all of them without a status |
| ValidationService.GetById | services/mock-validation-service.ts:31-36 | error iff absent; otherwise the first validation with the id |
| ValidationService.NewValidationRecord | services/mock-validation-service.ts:66-75 | EN_ATTENTE, with no decision date, validator or rejection reason |
| ValidationService.Create | services/mock-validation-service.ts:63-77 | appends exactly that request |
| ValidationService.CreatedIsPending | services/mock-validation-service.ts:21-23 | a created request is listed among the pending ones after the earlier ones |
| ValidationService.Approved | services/mock-validation-service.ts:43-45 | APPROUVEE, dated now, signed by the user; every other field, the old rejection reason included, kept |
| ValidationService.Approve | services/mock-validation-service.ts:38-48 | records the approval on the first request with the id, unguarded; unknown id: error, nothing changes |
| ValidationService.Rejected | services/mock-validation-service.ts:55-58 | REJETEE, dated now, signed by the user, with the given reason; every other field kept |
| ValidationService.Reject | services/mock-validation-service.ts:50-61 | records the rejection on the first request with the id, unguarded; unknown id: error, nothing changes |
| ValidationService.ApproveAfterReject | services/mock-validation-service.ts:38-61 | a rejected request can be approved; it is then found APPROUVEE with the rejection reason still set |
| ClaimService.Claims | services/mock-claim-service.ts:29 | a missing claim list reads as empty |
| ClaimService.FiltersMeanMatches | services/mock-claim-service.ts:31-37 | the chain keeps exactly the claims matching status and warranty |
| ClaimService.GetAll | services/mock-claim-service.ts:26-43 | the matching claims in store order; none when the list is missing |
| ClaimService.GetById | services/mock-claim-service.ts:45-50 | error iff absent; otherwise the first claim with the id |
| ClaimService.NewClaimRecord | services/mock-claim-service.ts:55-66 | EN_ATTENTE, photos defaulting to empty, created and modified now |
| ClaimService.Create | services/mock-claim-service.ts:52-72 | starts the list when missing, then appends exactly that claim |
| ClaimService.CreatedIsListed | services/mock-claim-service.ts:52-72 | a created claim is listed under its warranty and the pending status, whether or not a list existed |
| ClaimService.StatusChanged | services/mock-claim-service.ts:79-81 | the new status and date; the reason is replaced only by a non-empty one; every other field kept |
| ClaimService.UpdateStatus | services/mock-claim-service.ts:74-84 | changes the first claim with the id, unguarded; unknown id: error, nothing changes |
| ClaimService.ReasonSurvivesLaterChanges | services/mock-claim-service.ts:80 | a later change without a reason, or with an empty one, keeps the recorded reason |
| ClaimService.GenerateReport | services/mock-claim-service.ts:86-95 | "rapport-reclamation-" + id + ".pdf"; error iff the id is absent |
| DataService.Clients | services/data-service.ts:27-29 | exactly the clients not deleted |
| DataService.Categories | services/data-service.ts:36-38 | exactly the active categories |
| DataService.Produits | services/data-service.ts:45-47 | exactly the ACTIF products |
| DataService.ProduitsLowStock | services/data-service.ts:53-55 | exactly the ACTIF products with a threshold and stock at or below it |
| DataService.LowStockNarrowsProduits | services/data-service.ts:45-55 | the low-stock list is the active list filtered further, so a subset of it |
| DataService.NoThresholdNeverLow | services/data-service.ts:54 | a product of any dataset without `seuilMin` is never in the low-stock list, since comparing with `undefined` is false, and an active one is still listed |
| DataService.Promotions | services/data-service.ts:72-74 | exactly the promotions not deleted |
| DataService.UserById | services/data-service.ts:22-24 | none iff no user has the id; otherwise the first user with it |
| DataService.ClientById | services/data-service.ts:31-33 | none iff no client has the id, deleted or not; otherwise the first client with it |
| DataService.LookupSeesDeletedClient | services/data-service.ts:27-33 | in any dataset a deleted client is left out of the list and the count is below the number of records, yet lookup by id finds it when it is the first with that id |
| DataService.CategorieById | services/data-service.ts:40-42 | none iff no category has the id, active or not; otherwise the first one |
| DataService.ProduitById | services/data-service.ts:49-51 | none iff no product has the id, whatever its status; otherwise the first one |
| DataService.VenteById | services/data-service.ts:62-64 | none iff no sale has the id; otherwise the first one |
| DataService.TotalClients | services/data-service.ts:110-112 | the length of the client list; together with the deleted clients it makes up all clients |
| DataService.TotalProduitsVendus | services/data-service.ts:106-108 | the number of sales |
| DataService.CountsSalesNotUnits | services/data-service.ts:106-108 | one sale of three units counts as 1 |
| Barcode.Suffix | lib/barcode-generator.ts:3 | the last six digits of the timestamp, or all of them when fewer |
| Barcode.GenerateBarcode | lib/barcode-generator.ts:1-6 | exactly 13 characters: the code, then the clock digits, then '0's |
| Barcode.ShortCodeLayout | lib/barcode-generator.ts:3-4 | a code of at most 7 characters is followed by six clock digits reading back as the timestamp mod 10^6, then '0's |
| Barcode.LongCodeTruncated | lib/barcode-generator.ts:4 | a code of 13 or more characters is cut to its first 13 |
| Barcode.LastDigits | lib/barcode-generator.ts:3 | the last k printed digits of a number read back as the number mod 10^k |
| Barcode.FormatBarcode | lib/barcode-generator.ts:8-11 | the display form keeps the first character and is never shorter |
| Barcode.FormatOnlyInsertsDashes | lib/barcode-generator.ts:10 | removing dashes from the display form gives the input with its dashes removed |
| Barcode.FormatRoundTrip | lib/barcode-generator.ts:10 | for a code without dashes, removing the display form's dashes gives the code back |
| Barcode.DashesSeparateGroups | lib/barcode-generator.ts:10 | every dash comes after three digits and before another digit, so never at either end |
| Barcode.DigitsGainGroupDashes | lib/barcode-generator.ts:10 | n >= 1 digits gain exactly (n - 1) / 3 dashes and keep their last digit last |
| Barcode.TwelveDigits | lib/barcode-generator.ts:9-10 | any twelve digits display as four groups of three joined by dashes, as "123-456-789-012" |
| Barcode.ShortUnchanged | lib/barcode-generator.ts:10 | fewer than four characters are never grouped |
| Barcode.GroupStep | lib/barcode-generator.ts:10 | three digits in front of a digit gain a dash and the rest is formatted on its own |
| Auth.Public | lib/auth.ts:15-21 | the session user has id, username, email, role and avatar, and no password |
| Auth.Login | lib/auth.ts:11-25 | nothing iff no user has the username, the password and is active; otherwise the first such user's public record |
| Auth.LoginGrantsOwnRole | lib/auth.ts:11-25 | over any user list, a successful login holds exactly the role of the first accepting user |
| Auth.SignInWithOwnName | lib/auth.ts:11-25 | an active user first with their username signs in as themselves; an inactive user with a unique username gets no session |
| Auth.IsAuthenticated | lib/auth.ts:54-56 | signed in exactly when some role check passes |
| Auth.HasRole | lib/auth.ts:58-61 | false without a user (`user?.role` is undefined); with one, true for that user's role only |
| Auth.HasAnyRole | lib/auth.ts:63-66 | holds iff some listed role is the current user's, and never without a user |
| Auth.OneRoleAtATime | lib/auth.ts:58-61 | a user holds one role |
| Auth.Logout | lib/auth.ts:50-52 | after logout nobody is authenticated |
| Auth.LogoutRevokesRoles | lib/auth.ts:50-66 | after logout no role check passes |
| MockAuth.DemoAccounts | lib/mock-data.ts:2-33 | the three demo accounts: admin, stock manager and cashier, none required to change password |
| MockAuth.Login | utils/mock-auth-service.ts:9-52 | success iff the first account whose username or email is the identifier has the password; the user omits the password; the token is built from the id and clock |
| MockAuth.FailuresLookAlike | utils/mock-auth-service.ts:16-35 | an unknown identifier and a wrong password give the identical error |
| MockAuth.Token | utils/mock-auth-service.ts:38 | starts with "mock_token_" |
| MockAuth.TokenDecodes | utils/mock-auth-service.ts:38 | the token reads back as prefix, id, '_' and the timestamp's digits |
| MockAuth.DemoAccountsSignIn | utils/mock-auth-service.ts:12-51 | each demo account signs in by username or by email with its own role and id |
| MockAuth.ChangePassword | utils/mock-auth-service.ts:66-69 | always succeeds with the fixed message |
| MockAuth.Signup | utils/mock-auth-service.ts:71-74 | always succeeds with the fixed message |
| Sidebar.Shown | components/layout/app-sidebar.tsx:150 | empty without a user; an entry is shown iff it lists the user's role; no entry twice |
| Sidebar.TableListsEveryEntryOnce | components/layout/app-sidebar.tsx:35-144 | the table holds every entry exactly once |
| Sidebar.BuildHref | components/layout/app-sidebar.tsx:153-156 | a dashboard keeps its own path; any other entry's link is `/`, the role (or `undefined`), then its path |
| Sidebar.RelativeLinksDiffer | components/layout/app-sidebar.tsx:153-156 | two entries under the same role segment get different links |
| Sidebar.DashboardLinkIsNotRelative | components/layout/app-sidebar.tsx:153-156 | a dashboard shown to a user never shares its link with an entry under that user's role |
| Sidebar.MenuHrefs | components/layout/app-sidebar.tsx:153-179 | one link per shown entry, built by `buildHref`, pairwise distinct as list keys must be |
| Sidebar.DashboardPath | components/layout/app-sidebar.tsx:37-57 | each dashboard's written path is its role's segment followed by its own tail |
| Sidebar.LinksDiffer | components/layout/app-sidebar.tsx:153-156 | two different entries shown to the same user get different links |
| Sidebar.OneDashboardPerRole | components/layout/app-sidebar.tsx:36-57 | each role's menu has exactly one dashboard, its own |
| Sidebar.DashboardIsOwn | components/layout/app-sidebar.tsx:37-57 | a dashboard lists only the role it belongs to |
| Sidebar.NewSaleIsCashierOnly | components/layout/app-sidebar.tsx:83-88 | "Nouvelle Vente" is shown iff the user is a cashier |
| Sidebar.AdministrationIsAdminOnly | components/layout/app-sidebar.tsx:59-142 | Utilisateurs, Promotions, Historique, Validations and Paramètres are shown iff the user is an administrator |
| Sidebar.LinkUnderOwnRole | components/layout/app-sidebar.tsx:153-156 | every link a role can see starts with "/" + that role, dashboards included |
| Sidebar.AtMostOneActive | components/layout/app-sidebar.tsx:175-176 | at most one entry's link equals the current path |
| ProtectedLayout.Redirect | components/layout/protected-layout.tsx:21-40 | no redirect iff loading or the user is admitted; /login iff loaded without a user; otherwise the user's role home |
| ProtectedLayout.Render | components/layout/protected-layout.tsx:42-65 | the spinner iff loading; the page iff loaded with an admitted user; nothing otherwise |
| ProtectedLayout.Decide | components/layout/protected-layout.tsx:21-65 | spinner and no redirect while loading; without a user a blank screen and /login; a role outside the list a blank screen and its home; the page iff loaded, signed in and admitted; a redirect iff a blank screen |
| ProtectedLayout.EmptyRoleListAdmitsNobody | components/layout/protected-layout.tsx:25 | an empty role list is still a list, so it turns everyone away |
| ProtectedLayout.NoRoleListAdmitsEveryone | components/layout/protected-layout.tsx:50-54 | without a role list every signed-in user sees the page |
| ProtectedLayout.HomeIsNotTheMenuDashboard | components/layout/protected-layout.tsx:27-37 | the home a turned-away user is sent to is not the dashboard link the side menu gives that role |
| Paging.OrDefault | services/mock-product-service.ts:42-43 | `x || d`: the default when absent or 0, otherwise the value |
| Paging.Paginate | services/mock-product-service.ts:42-55 | the window of the page, `meta.total` the count, `totalPages = ceil(total / limit)` |
| Paging.CeilDivBounds | services/mock-product-service.ts:53 | the page count is the least number of pages holding all items |
| Paging.SliceWindow | services/mock-product-service.ts:44-45 | a page holds at most `limit` items, taken contiguously |
| Paging.PageItems | services/mock-product-service.ts:42-45 | page `k` from 1 holds the items from `(k - 1) * limit` up to `limit` further, clamped to the list |
| Paging.FirstPagesArePrefix | services/mock-product-service.ts:42-45 | pages 1 to `k`, concatenated, are exactly the first `k * limit` items |
| Paging.PagesCoverAll | services/mock-product-service.ts:42-55 | the pages 1 to `totalPages`, concatenated, give back the whole filtered list |
| Paging.SecondPageOfTwentyFive | services/mock-product-service.ts:42-55 | page 2 of 25 items by 10 is items 10 to 19, with 3 pages |
| Dates.ThirtyDaysFromMidJanuary | services/mock-sales-service.ts:113-114 | thirty days after the 15th of January is the 14th of February |
| Dates.AddMonths | services/mock-warranty-service.ts:63-64 | `setMonth(getMonth() + n)`: same day n months on, or its overflow into the next month |
| Dates.AddMonthsLater | services/mock-warranty-service.ts:63-64 | adding a positive number of months moves strictly later |
| Dates.AddDays | services/mock-sales-service.ts:113-114 | `setDate(getDate() + n)` keeps the time of day and lands exactly n calendar days later (`DayNumber` grows by n), rolling over month and year ends |
| Text.NatToStringRoundTrip | services/mock-sales-service.ts:90 | a printed number reads back as itself |
| Text.PadStart | services/mock-invoice-service.ts:51 | `padStart`: the string right-aligned in the width, filled on the left |
| Text.PadEnd | lib/barcode-generator.ts:4 | `padEnd`: the string left-aligned in the width, filled on the right |
| Text.CounterDecodes | services/mock-invoice-service.ts:51 | the counter part of a "P-year-counter" number reads back as the counter |
| Text.SequenceNumberInjective | services/mock-sales-service.ts:90 | two counters with the same prefix and year give the same number only if they are equal |

## Left out

- `getDashboardStats` (services/mock-sales-service.ts:177-205): it groups sales by local calendar day and month and computes a floating-point average.
- `getTotalVentes` (services/data-service.ts:102-104): it parses amounts with `parseFloat`.
- The data-service getters that return a whole collection unchanged (`getUsers`, `getVentes`, `getMouvementsStock`, `getGaranties`, `getPaiements`, `getFactures`, `getAudits`, `getValidations`): each is just the corresponding field of `DataService.Dataset`.
- `sendEmail` (services/mock-invoice-service.ts:88-91): it only waits and returns a message.
- The backup service, the PDF layout library, the HTTP client and interceptors, and the React hooks, contexts, pages and forms are not part of this model.
- `getCurrentUser`, `setCurrentUser` (lib/auth.ts) and `getMe` (utils/mock-auth-service.ts) read and write the browser's local storage. The current user is a parameter instead. `isAuthenticated` and `hasRole` are the functions `Auth.IsAuthenticated` and `Auth.HasRole` on that parameter.
- Delays (`setTimeout`) are dropped. Interleaving of concurrent service calls is not modelled: the check-then-decrement race in sale creation cannot occur in the model.
- CategoryService.NewCategoryRecord: omits the `_count: { produits: 0 }` placeholder of services/mock-category-service.ts:55, because nothing in the core reads or updates it.
- ProductService.NewProductRecord: omits the `_count: { lignesVente: 0, garanties: 0 }` placeholder of services/mock-product-service.ts:74, because nothing in the core reads or updates it.
- `Date.now()`, `new Date()` and `Math.random()` come from `Env`. Generated ids are not claimed to be unique, because the source does not make them so.
- Nested records (`vente.client`, `ligne.produit`, `mouvement.produit`, `user`) are copies taken when the record is created. The model does not capture that the source shares these objects, so a later change to the product is not seen through an old sale.
- Claim `getAll` without filters returns the live claims array itself, and every `getById` and update returns the live record. The model returns values, so a caller's later writes through those references are not captured.
- The source iterates `Object.values` of the ranking dictionaries in insertion order, and `sort` is stable. `SalesRanking.TopProductsRanked` and `SalesRanking.TopClientsRanked` state the descending order, the tallies and that nothing left out outranks what is kept, but not which of several equal amounts comes first.
- `AuditService.GetAll` and `SalesService.GetAll` likewise state the permutation and the descending date order, but not the order among entries with the same instant.
- `toLowerCase` is modelled on ASCII letters only (`Text.LowerChar`); Unicode case folding is out.
- Dates are calendar values in UTC. The local time zone, ISO string parsing and milliseconds since the epoch are not modelled.
- The sidebar's icons and CSS classes and the header's role label are presentation only.
- `lastLogin` of the demo accounts is the load time, passed as a parameter.
- The rendered children of the protected layout, the header and the breadcrumb are not modelled. Only the decision between spinner, blank screen and page, and the redirect, are.
- `MockAuth.ChangePassword`, `MockAuth.Signup`: the source ignores its arguments and always answers with a fixed message. The contract can only state that message.
