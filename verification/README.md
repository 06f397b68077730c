# Export ledger core, modelled in Dafny

This project models the ledger core of an export-trade inventory service. The service is an Express/Mongoose application that keeps:

- master data: companies, debit parties, credit parties, items, brokers and customs house agents (CHAs);
- sales transactions (bills);
- receipt transactions (payments received against bills);
- purchase transactions.

The model is purely functional. A MongoDB collection is a sequence of `Entry(id, doc)` in insertion order (`Store`). A stored document is a map from dotted paths to values (`Schema.Doc`). Every route outcome is a `Result` whose error is one of the statuses the routes answer with (`Errors.Error`: 400 with a message, 404 with a message, a validation failure, or the catch-all 500).

What is modelled:

- **Schemas.** Mongoose schemas are lists of path rules (`Schema`). A rule combines the type cast, the `trim`/`uppercase`/`lowercase` setters, `required`, `default`, `minlength`/`maxlength`, `min`, `enum` and `match`. The schemas cover companies, debit and credit parties, items, brokers, CHAs, receipts and purchases.
  - The fixed-shape patterns are written out character by character: PIN, GST, PAN, contact number and e-mail (`Patterns`, `Codes`).
  - The static finders are modelled too. Some are exact after upper-casing; the others are case-insensitive substring matches, as `$regex` with option `i` does.
- **Registry routes.** Create, read, update, delete and list for the six kinds of master data (`MasterData`, `CompanyRoutes`, `DebitPartyRoutes`).
  - Duplicate checks run in order, and on update only when a field changes.
  - The duplicate-key message is modelled.
  - So is the list pagination: `parseInt`, `skip`, `Math.ceil`, and the `isActive` filter (`Paging`, `Queries`).
- **Sales bill numbers.** Company initials plus a zero-padded sequence, continued from the latest bill of the same company name (`SalesNumbers`).
- **Sales transactions.** Create, update, read, delete and search by bill number (`SalesRoutes`, `SalesModel`). This covers:
  - the required-input checks and the lookup order;
  - line pricing and the total;
  - the fixed-field snapshots of the company and the two parties;
  - the partial-update rules;
  - the covering-note text (`SalesNotes`).
- **Receipt numbers.** `RCP` plus a six-digit sequence after the greatest stored number (`ReceiptNumbers`).
- **Receipt transactions.** Create, update, read, delete and search (`ReceiptRoutes`), including the USD-only rupee conversion and the default exchange rate.
- **Receipt views.** The bill-adjustment view, and the pending-bills list with its grouping and in-memory pagination (`ReceiptViews`).
  - The grouping uses JavaScript's `Object.keys` order, modelled in `ObjectKeys`.
  - The Express route table decides which handler serves a path (`ReceiptRouting`).

Parameters stand in for what the model cannot compute:

- the ObjectId the driver generates for a new document (`newId`);
- the clock behind `Date.now` (`now`);
- JavaScript's number and date formatting in the covering notes (`SalesNotes.Formats`).

Amounts are `real`; dates are integers ordered like instants.

The sales bill-number sequence is scoped by the exact company name (routes/salesTransactions.js:21-23), not by the initials the number carries. `SalesNumbers.SharedInitialsRepeatNumber` shows that two companies whose names share initials are given the same bill number.

The routes use the number allocators and the note template as the code writes them (`SalesNumbers.NextBillNumberAsWritten`, `ReceiptNumbers.NextReceiptNumberAsWritten`, `SalesNotes.NoteItemAsWritten`). The corrected definitions serve only as the corrected half of the Findings rows. The receipt update is modelled both as written (`ReceiptRoutes.UpdateReceiptAsWritten`) and as corrected (`ReceiptRoutes.UpdateReceipt`).

Ids are compared as ObjectIds: two id texts that differ only in the case of their hex letters name the same document (`Store.SameId`).

## Model

| member | source | states |
|---|---|---|
| SalesNumbers.InitialsOfConcat | routes/salesTransactions.js:15-18 | The initials of a list of words are the initials of its parts, one after the other. |
| SalesNumbers.InitialsAround | routes/salesTransactions.js:15-18 | Splitting on a space: the initials of `a + " " + b` are the initials of `a` followed by those of `b`. |
| SalesNumbers.InitialsOfWord | routes/salesTransactions.js:15-18 | A name without spaces contributes exactly its upper-cased first character. |
| SalesNumbers.LeadingSpaceAddsNothing | routes/salesTransactions.js:15-18 | A leading space yields an empty word, which adds no initial. |
| SalesNumbers.RepeatedSpaceAddsNothing | routes/salesTransactions.js:15-18 | A doubled space between words adds nothing to the initials. |
| SalesNumbers.InitialsOfTwoWords | routes/salesTransactions.js:15-18 | For two space-free words, the initials are the two upper-cased first characters. |
| SalesNumbers.BillNumberFor | routes/salesTransactions.js:35 | A bill number starts with the initials and has the sequence's digits padded to at least four, never truncated. |
| SalesNumbers.BillNumberDigits | routes/salesTransactions.js:35 | The part after the initials is all digits, and its value is the sequence. |
| SalesNumbers.BillNumberInjective | routes/salesTransactions.js:35 | Different sequences give different bill numbers under the same initials. |
| SalesNumbers.Latest | routes/salesTransactions.js:21-23 | The latest sale of a company is the last stored one whose company name equals the name exactly. It is absent iff no stored sale has that name. |
| SalesNumbers.FirstBillNumber | routes/salesTransactions.js:25-35 | With no sale under the name, the sequence starts at 1, both as written and as corrected. |
| SalesNumbers.FirstBillText | routes/salesTransactions.js:25-35 | The first bill of a company is its initials followed by `0001`, e.g. `AT0001` for "Acme Traders", for the allocator as written and for the corrected one. |
| SalesNumbers.NextFollowsLatest | routes/salesTransactions.js:25-35 | For the corrected allocator: when the latest bill of the name carries sequence n, the next bill carries n + 1. |
| SalesNumbers.NextFollowsLatestAsWritten | routes/salesTransactions.js:25-35 | For the allocator as written, the same holds whenever the initials do not end in a digit. |
| SalesNumbers.NextBillNumberFresh | routes/salesTransactions.js:21-35 | For the corrected allocator: when every bill of the name is its initials with a sequence no greater than the latest's, the next number differs from all of them. |
| SalesNumbers.NextBillNumberFreshAsWritten | routes/salesTransactions.js:21-35 | For the allocator as written, the next number is fresh under the same conditions, provided the initials do not end in a digit. |
| SalesNumbers.OtherCompaniesNotConsulted | routes/salesTransactions.js:21-23 | Storing a sale of another company name does not change a company's next bill number. |
| SalesNumbers.SharedInitialsRepeatNumber | routes/salesTransactions.js:21-23 | As written, two different names with the same initials both start at sequence 1, so they are given the same bill number. |
| SalesNumbers.AsWrittenAgreesWithoutTrailingDigit | routes/salesTransactions.js:29-31 | When the initials do not end in a digit, the as-written sequence parse agrees with the corrected one. |
| SalesNumbers.AsWrittenSwallowsDigitInitials | routes/salesTransactions.js:29-31 | For initials "A3" after bill "A30001", the as-written code reads 30001 and issues "A330002". |
| SalesNumbers.CorrectedReadsAfterDigitInitials | routes/salesTransactions.js:29-31 | The corrected code reads the sequence after the initials and issues "A30002". |
| SalesNotes.NotesOpenWithSubject | routes/salesTransactions.js:46 | The note begins with the subject line, "Subject: Sales Transaction - <company> to <credit party>", then a blank line. |
| SalesNotes.SubjectIsFirstLine | routes/salesTransactions.js:46 | When the subject line holds no line break, it is exactly the first line of the note. |
| SalesNotes.NotesEndWithSignature | routes/salesTransactions.js:69 | The note ends with "Best regards,\n" and the company's name. |
| SalesNotes.ItemBlockInPlace | routes/salesTransactions.js:56-61 | The note is the header, then the item blocks in order, then the footer. The block of item i sits between those of the items before and after it. |
| SalesNotes.DescriptionLineIff | routes/salesTransactions.js:58-60 | An item's block has a "Description:" line exactly when the description is non-empty, and that line carries it. |
| SalesNotes.BlockStartsWithName | routes/salesTransactions.js:57 | An item's block starts with its number, ". ", the rendered item name and " - Qty: ". |
| SalesNotes.AsWrittenNamesUndefined | routes/salesTransactions.js:57 | As written, every item line of the note reads "<k>. undefined - Qty: ". |
| SalesNotes.AsWrittenNotesNameUndefined | routes/salesTransactions.js:56-61 | As written, the notes contain "k. undefined - Qty: " for the k-th line, whatever the lines are. |
| SalesNotes.CorrectedNamesItem | routes/salesTransactions.js:57 | As corrected, an item line carries the item record's name. |
| SalesModel.ProjectHolds | routes/salesTransactions.js:177-196 | A snapshot holds the id it was given and, on each listed field, exactly what the record holds there: absent where the record lacks the field. |
| SalesRoutes.LookupsFind | routes/salesTransactions.js:410-460 | Resolved records are the documents stored under the given ids, and a record is resolved exactly when its id is supplied. |
| SalesRoutes.LookupsOrder | routes/salesTransactions.js:109-133 | Lookups run company, then debit party, then credit party; the first failure is reported. |
| SalesRoutes.LinesAcceptedIff | routes/salesTransactions.js:139-156 | The lines are accepted iff no line lacks its item id, has a falsy quantity or rate, or names a missing item. |
| SalesRoutes.ProcessedLength | routes/salesTransactions.js:139-168 | Accepted lines yield one stored line and one item record per requested line. |
| SalesRoutes.ProcessedLineAt | routes/salesTransactions.js:158-167 | Stored line i keeps the item id, quantity, rate and description of request i, and its amount is quantity × rate. The item record is the one stored under that id. |
| SalesRoutes.ProcessedLines | routes/salesTransactions.js:139-168 | Every stored line is priced from its request, position by position. |
| SalesRoutes.FirstRefusedLine | routes/salesTransactions.js:139-156 | A refusal is the error of the first refused line; every earlier line was acceptable. |
| SalesRoutes.TotalOfProcessed | routes/salesTransactions.js:136-159 | The total of the stored lines equals the sum of quantity × rate over the request. |
| SalesRoutes.CurrencyOrDefault | routes/salesTransactions.js:199 | The currency is the one sent, or "INR" exactly when none is sent. It is never empty. |
| SalesRoutes.CreateChecksRequestFirst | routes/salesTransactions.js:93-106 | Missing required input is refused with the combined message before anything else. An empty item list is refused next with "At least one item is required". |
| SalesRoutes.CreateLookupOrder | routes/salesTransactions.js:108-156 | After the request checks, a failing party lookup is reported before any line error. A malformed company id ends in the catch-all 500. |
| SalesRoutes.CreateSucceedsIff | routes/salesTransactions.js:93-171 | Create succeeds iff all of these hold: the required inputs are present; the items are non-empty; the three records exist; every line is accepted; the company has a name. |
| SalesRoutes.CreateStoresNewSale | routes/salesTransactions.js:171-215 | A successful create appends, under the new id, the sale built from the found records and the priced lines, numbered by the allocator as written. |
| SalesRoutes.CreateAppendsOne | routes/salesTransactions.js:215 | A successful create keeps every stored sale and adds exactly one, last. |
| SalesRoutes.CreatedSaleLines | routes/salesTransactions.js:136-199 | The created sale's lines are the requested ones, priced as quantity × rate with the description kept. Its total is the sum of the request's prices. Its currency is the one sent, or INR. |
| SalesRoutes.CreatedSaleSnapshots | routes/salesTransactions.js:171-196 | The created sale snapshots company {_id, companyName, firmId, gstNo}, debit party {_id, partyName, gstNo, panNo, iecNo, epcgLicNo} and credit party {_id, partyName, country, port}. Its number is the one the allocator as written gives the company name. |
| SalesRoutes.CreatedSnapshotsHoldRecords | routes/salesTransactions.js:177-196 | Each snapshot of a created sale holds the request's id and, on every field it lists, what the record found holds there. |
| SalesRoutes.CreatedNotesNameUndefined | routes/salesTransactions.js:56-61 | The covering notes of a created sale name the item of every line `undefined`. |
| SalesRoutes.UpdateNeedsStoredSale | routes/salesTransactions.js:390-396 | Updating an absent sale is 404; a malformed id is the 400 "Invalid sales transaction ID". |
| SalesRoutes.UpdateRefusals | routes/salesTransactions.js:399-469 | `items` that is not an array is refused first. A malformed company id is caught as the 400 "Invalid sales transaction ID". An empty item list is refused once the lookups pass. |
| SalesRoutes.LinesUpdateMeans | routes/salesTransactions.js:463-506 | Supplied items are reprocessed as on create and their total recomputed; absent items leave the lines alone. |
| SalesRoutes.UpdatedSaleFields | routes/salesTransactions.js:407-536 | The updated sale keeps its bill number. Lines and total are recomputed only from supplied items. A snapshot is replaced only when its id is supplied. Unsent currency, broker and remarks are kept. The note is regenerated iff items or an id were supplied. |
| SalesRoutes.UpdateStoresUpdatedSale | routes/salesTransactions.js:389-545 | A successful update found the sale, every named record and every line, and writes the rebuilt sale in place; rebuilt notes use the template as written. |
| SalesRoutes.UpdateReplacesOne | routes/salesTransactions.js:541-545 | An update changes only the sale it names and keeps the order of the collection. |
| SalesRoutes.UpdateKeepsNumber | routes/salesTransactions.js:406-506 | Update never renumbers a sale. Without items the stored lines and total stay. With items, the total is the sum of the new prices. |
| SalesRoutes.ReadSale | routes/salesTransactions.js:327-367 | A read succeeds iff the id is well formed and stored, and returns that sale. Otherwise it is 400 for a malformed id or 404 for an absent one. |
| SalesRoutes.DeleteSale | routes/salesTransactions.js:581-613 | A delete removes exactly the sale named. A malformed id is 400 and an absent one 404. |
| SalesRoutes.DeleteUndoesCreate | routes/salesTransactions.js:581-613 | Deleting a freshly created sale restores the collection as it was before the create. |
| SalesRoutes.SearchSale | routes/salesTransactions.js:618-652 | The search fails with 404 iff no bill number contains the text, ignoring case. A hit is a stored sale whose number contains it. |
| SalesRoutes.SearchFindsFirst | routes/salesTransactions.js:620-622 | The search returns the first stored sale that matches. |
| SalesRoutes.SearchFindsStoredNumber | routes/salesTransactions.js:620-622 | Searching for a stored bill number, in any letter case, finds a sale. |
| ReceiptModel.ReceiptValidation | models/receiptTransaction.model.js:3-94 | A receipt is storable iff it has all of the following: a number and a bill number of at most 50 characters; a date; a credit-party snapshot with an id, name, country and port; non-negative bill, receipt and rupee amounts; a currency among INR, USD, EUR and GBP; a non-negative rate; a UTR number of at most 100 characters; remarks of at most 500 characters. |
| ReceiptModel.ReceiptCurrencyByDefault | models/receiptTransaction.model.js:56-60 | A receipt saved without a currency is stored in INR. |
| ReceiptModel.ReceiptRateByDefault | models/receiptTransaction.model.js:61-65 | A receipt saved without an exchange rate is stored with rate 1. |
| ReceiptModel.ReceiptActiveByDefault | models/receiptTransaction.model.js:78-81 | A receipt saved without the flag is active. |
| ReceiptModel.BillNumberQuery | models/receiptTransaction.model.js:35-40 | A query on the bill number is cast through the trim setter, so it matches the trimmed text. |
| ReceiptModel.ReceiptCastsKeep | models/receiptTransaction.model.js:46-65 | The amount, rupee-amount, currency and rate paths store the values they are given unchanged. |
| ReceiptModel.ConsistentInrIsReceived | routes/receiptTransactions.js:502-504 | On a receipt whose rupee amount follows the conversion rule, the rupee amount equals what the views count as received. |
| ReceiptModel.FindByBillNumber | models/receiptTransaction.model.js:111-113 | `findByBillNumber` returns exactly the receipts whose bill number equals the (trimmed) argument. |
| ReceiptModel.FindPendingBills | models/receiptTransaction.model.js:131-140 | `findPendingBills` has one group per bill number that occurs among the receipts. |
| ReceiptModel.PendingBillTotals | models/receiptTransaction.model.js:131-140 | Each group's `totalReceived` is the sum of `inrAmount` over the receipts of that bill. |
| ReceiptModel.PendingTotalsAgree | models/receiptTransaction.model.js:131-140 | On storable receipts that follow the conversion rule, a group's rupee total equals the received total the routes compute. |
| ReceiptNumbers.ReceiptNumberFor | routes/receiptTransactions.js:28 | A receipt number is "RCP" followed by the sequence padded to at least six digits. |
| ReceiptNumbers.SequenceOfReceiptNumber | routes/receiptTransactions.js:22-24 | Reading the trailing digits of a receipt number gives back its sequence. |
| ReceiptNumbers.ReceiptNumberInjective | routes/receiptTransactions.js:28 | Different sequences give different receipt numbers. |
| ReceiptNumbers.Greatest | routes/receiptTransactions.js:17-18 | The latest receipt is the one whose number is greatest in string order. |
| ReceiptNumbers.AsWrittenFreshWhileSixDigits | routes/receiptTransactions.js:15-28 | While every stored number is "RCP" plus six digits below 999999, the next number sorts after all of them and is fresh. |
| ReceiptNumbers.SevenDigitsSortFirst | routes/receiptTransactions.js:18 | In string order "RCP1000000" sorts before "RCP999999". |
| ReceiptNumbers.AfterTheLastSixDigits | routes/receiptTransactions.js:22-28 | After "RCP999999" the next number is "RCP1000000". |
| ReceiptNumbers.AsWrittenRepeatsAfterSixDigits | routes/receiptTransactions.js:15-28 | With "RCP999999" and "RCP1000000" stored, the as-written generator issues "RCP1000000" again. |
| ReceiptNumbers.MaxSequence | routes/receiptTransactions.js:22-24 | The corrected scan takes the greatest trailing sequence over all stored numbers. |
| ReceiptNumbers.NextReceiptNumber | routes/receiptTransactions.js:28 | The corrected number is "RCP" with sequence one above the greatest stored sequence. |
| ReceiptNumbers.NextReceiptNumberFresh | routes/receiptTransactions.js:15-28 | The corrected number is never held by a stored receipt. |
| ReceiptNumbers.CorrectedAgreesWhileSixDigits | routes/receiptTransactions.js:15-28 | While every stored number is "RCP" plus six digits below 999999, the corrected and as-written generators agree. |
| ReceiptRoutes.CreateReceipt | routes/receiptTransactions.js:38-125 | Falsy required input is 400, and a missing party is 400 "Credit party not found". A malformed party id, a failing number allocation, a document the schema rejects and a number the unique index already holds are each 500. Success appends the prepared receipt, numbered by the allocator as written, under the new id. |
| ReceiptRoutes.NewReceiptValues | routes/receiptTransactions.js:82-102 | The receipt is built with the amount and currency as sent, the defaulted rate, the converted rupee amount and the generated number. |
| ReceiptRoutes.StoredNumberFree | routes/receiptTransactions.js:79-104 | While every stored number is "RCP" and six digits below 999999, the allocator as written hands out a number the unique index does not hold. |
| ReceiptRoutes.CreateClashesPastSixDigits | routes/receiptTransactions.js:79-125 | With "RCP999999" and "RCP1000000" stored, a complete create for a found party answers the catch-all 500: the number handed out is already stored. |
| ReceiptRoutes.CreateStoresConsistentInr | routes/receiptTransactions.js:73-96 | A created receipt's rupee amount follows the conversion rule with its stored rate: amount × rate for USD with a truthy rate, the amount otherwise. A falsy rate is stored as 1. |
| ReceiptRoutes.CreateNumbersFreshly | routes/receiptTransactions.js:79-104 | A created receipt carries the number the allocator as written handed out, and no stored receipt has it. |
| ReceiptRoutes.CreatedReceiptDated | routes/receiptTransactions.js:53-84 | A created receipt holds the date the request sent; a request without one never reaches the document, so the schema's default is not used. |
| ReceiptRoutes.CreateSnapshotsParty | routes/receiptTransactions.js:62-90 | A created receipt snapshots the stored credit party it names: id, name, country and port. |
| ReceiptRoutes.SnapshotStored | routes/receiptTransactions.js:82-90 | After the schema's casts and setters, the stored receipt still holds the party id and the party's name, country and port. |
| ReceiptRoutes.UpdateReceiptAsWritten | routes/receiptTransactions.js:244-349 | A malformed id is 400 and an absent receipt 404. A party error is reported as is. Otherwise the snapshot, fields and as-written rupee patch are saved. |
| ReceiptRoutes.UpdateReceipt | routes/receiptTransactions.js:244-349 | The corrected update answers the same errors and saves the snapshot, the fields and the recomputed rupee amount. |
| ReceiptRoutes.MergedAmounts | routes/receiptTransactions.js:316-320 | After the merge, each amount path holds the patch's value or else the stored one. |
| ReceiptRoutes.CorrectedPatchConsistent | routes/receiptTransactions.js:295-308 | The corrected patch keeps a receipt's rupee amount consistent with its amount, currency and rate. |
| ReceiptRoutes.UpdateKeepsInrConsistent | routes/receiptTransactions.js:244-349 | A corrected update of a consistent receipt leaves it consistent. |
| ReceiptRoutes.AsWrittenLeavesInrStale | routes/receiptTransactions.js:295-302 | As written, changing only the amount of a consistent non-USD receipt succeeds but leaves its rupee amount stale. |
| ReceiptRoutes.CorrectedUpdatesInrWithAmount | routes/receiptTransactions.js:295-302 | As corrected, the same change rewrites the rupee amount to the new amount. |
| ReceiptRoutes.ReadReceipt | routes/receiptTransactions.js:204-239 | A read succeeds iff the id is well formed and stored. A malformed id is 400, an absent one 404. |
| ReceiptRoutes.DeleteReceipt | routes/receiptTransactions.js:354-386 | A delete removes exactly the receipt named. A malformed id is 400, an absent one 404. |
| ReceiptRoutes.SearchByBillNumber | routes/receiptTransactions.js:391-412 | The search returns exactly the receipts whose bill number contains the text, ignoring case. |
| ReceiptViews.SortByDate | routes/receiptTransactions.js:473 | Sorting by receipt date permutes the receipts. |
| ReceiptViews.SortByDateSorted | routes/receiptTransactions.js:473 | The sorted receipts are in date order; undated receipts sort first. |
| ReceiptViews.SumOfSort | routes/receiptTransactions.js:502-504 | Sorting does not change any sum over the receipts. |
| ReceiptViews.BillAdjustment | routes/receiptTransactions.js:468-551 | With no receipt for the bill, the status is "No Receipts" with received 0, pending 0, fully paid and an empty breakdown and list. Otherwise the status is "Receipts Only (No Bill Validation)" and the bill figures are unspecified. |
| ReceiptViews.EmptyBillIff | routes/receiptTransactions.js:471-475 | The view finds no receipts iff no receipt's bill number equals the trimmed argument. |
| ReceiptViews.BillMembers | routes/receiptTransactions.js:471-473 | The view lists exactly the stored receipts of the bill. |
| ReceiptViews.AdjustmentTotal | routes/receiptTransactions.js:502-504 | The received total is the sum, over the bill's receipts, of the rupee amount for USD and of the receipt amount otherwise. |
| ReceiptViews.AdjustmentTotalOverCollection | routes/receiptTransactions.js:502-504 | The same total, stated over the whole collection filtered by bill. |
| ReceiptViews.AdjustmentLines | routes/receiptTransactions.js:523-551 | The listed receipts are the bill's receipts, each shown once, oldest first. |
| ReceiptViews.AdjustmentBreakdownKeys | routes/receiptTransactions.js:507-521 | The breakdown has an entry for exactly the currencies the bill's receipts were paid in. |
| ReceiptViews.BreakdownKeys | routes/receiptTransactions.js:507-521 | A currency is a breakdown key iff some listed receipt is in that currency. |
| ReceiptViews.RupeeBillBreakdown | routes/receiptTransactions.js:502-521 | When every receipt of the bill is in INR, the breakdown is the single INR entry and equals the received total. |
| ReceiptViews.RupeeBreakdown | routes/receiptTransactions.js:507-521 | For a non-empty list of INR receipts, the breakdown is the single INR entry holding their received sum. |
| ReceiptViews.PartyReceipts | routes/receiptTransactions.js:572-579 | The pending-bills filter keeps every receipt when no party is given, and otherwise the receipts of that party. A malformed party id is 500. The party id is compared as an ObjectId, so the case of its hex letters does not matter. |
| ReceiptViews.PartyFilterIgnoresHexCase | routes/receiptTransactions.js:575-579 | Two texts of one ObjectId, differing only in the case of their hex letters, select the same receipts. |
| ReceiptViews.LatestDate | routes/receiptTransactions.js:610 | `Math.max` over the receipt dates: when defined, it is the date of one receipt and no receipt is later. |
| ReceiptViews.Paginate | routes/receiptTransactions.js:615-626 | The pagination reports the number of distinct bills, the requested page and limit, and ⌈total / limit⌉ pages. |
| ReceiptViews.PaginateWindow | routes/receiptTransactions.js:616 | A page shows at most `limit` bills, taken in order from position (page − 1) × limit. |
| ReceiptViews.PendingBills | routes/receiptTransactions.js:567-627 | The route pages the grouped bills of the filtered receipts. It answers the catch-all 500 exactly when the party id is malformed or some receipt's bill number names a property every object inherits (`constructor`, `toString`, `__proto__`, ...). |
| ReceiptViews.ConstructorBillFails | routes/receiptTransactions.js:582-588 | One receipt filed under bill number "constructor" makes the list answer 500. |
| ReceiptViews.PendingKeys | routes/receiptTransactions.js:582-591 | One summary per key of the grouping object, in `Object.keys` order. |
| ReceiptViews.PendingBillsDistinct | routes/receiptTransactions.js:582-591 | No bill number is listed twice. |
| ReceiptViews.PendingBillNumbers | routes/receiptTransactions.js:582-591 | A bill number is listed iff some receipt is filed under it. |
| ReceiptViews.PendingBillTotal | routes/receiptTransactions.js:593-595 | A bill's total received is the sum over its receipts of the rupee amount for USD and of the receipt amount otherwise. |
| ReceiptViews.PendingBillDate | routes/receiptTransactions.js:601-610 | When every receipt is dated, a bill's date is its newest receipt's date, and no receipt of the bill is later. |
| ReceiptViews.LatestOfSorted | routes/receiptTransactions.js:578-610 | For dated receipts sorted newest first, `Math.max` of the dates is the first receipt's date. |
| ReceiptViews.PendingBillParty | routes/receiptTransactions.js:604 | A bill's credit party, when shown, is the party name snapshotted on one of its receipts. |
| ReceiptViews.PendingBillsOrder | routes/receiptTransactions.js:591 | Bill numbers that are array indices come first, ascending by value. Every other bill number follows in the order its newest receipt takes among the receipts sorted newest first. |
| ReceiptViews.PendingAgreesWithAdjustment | routes/receiptTransactions.js:593-595 | A listed bill's total equals the received total its bill-adjustment view reports. |
| ObjectKeys.KeysOf | routes/receiptTransactions.js:591 | `Object.keys` lists every key once, and nothing else. |
| ObjectKeys.KeysOfIndicesFirst | routes/receiptTransactions.js:591 | Array-index keys precede all others and ascend by value. |
| ObjectKeys.KeysOfNamedInOrder | routes/receiptTransactions.js:591 | The other keys keep the order of their first insertion. |
| ObjectKeys.NumericKeyComesFirst | routes/receiptTransactions.js:591 | Inserting "INV-7" then "1001" lists "1001" first. |
| ReceiptRouting.DispatchFirstMatch | app.js:40 | A path is served by the first declared route whose pattern matches it, and by none iff no pattern matches. |
| ReceiptRouting.DispatchSkipsNonMatching | app.js:40 | A route whose pattern does not match a path never affects which handler serves it. |
| ReceiptRouting.PendingBillsUnreachable | routes/receiptTransactions.js:204 | With the routes in their declared order, no path reaches the pending-bills handler. |
| ReceiptRouting.PendingBillsShadowed | routes/receiptTransactions.js:204-229 | `/pending-bills` is taken by `/:id` and answered 400 "Invalid receipt transaction ID". |
| ReceiptRouting.CorrectedReachesPendingBills | routes/receiptTransactions.js:567 | With `/pending-bills` declared before `/:id`, the path is served by the pending-bills view. |
| ReceiptRouting.ReorderOnlyAffectsPendingBills | routes/receiptTransactions.js:204 | The reordering changes the handler of no other path. |
| PurchaseModel.HeaderValidation | models/purchaseTransaction.model.js:3-92 | A purchase header is storable iff all of the following hold: its number has at most 50 characters; it is dated; its parties are bare ids; its total is non-negative; currency and status are among their enums; remarks have at most 500 characters; it names its creator. |
| PurchaseModel.LineValidation | models/purchaseTransaction.model.js:26-47 | A line is storable iff it names an item and its quantity, rate and amount are each at least 0. |
| PurchaseModel.TotalNotTiedToLines | models/purchaseTransaction.model.js:48-52 | Any non-negative total keeps a storable purchase storable, whatever its lines sum to; a negative one does not. |
| PurchaseModel.PurchaseCurrencyByDefault | models/purchaseTransaction.model.js:53-57 | A purchase saved without a currency is in INR. |
| PurchaseModel.PurchaseStatusByDefault | models/purchaseTransaction.model.js:66-70 | A purchase saved without a status is a draft. |
| PurchaseModel.PurchaseActiveByDefault | models/purchaseTransaction.model.js:76-79 | A purchase saved without the flag is active. |
| PurchaseModel.PurchaseDated | models/purchaseTransaction.model.js:11-15 | A sent date is kept; without one the purchase is dated now. |
| PurchaseModel.TransactionNumberQuery | models/purchaseTransaction.model.js:4-10 | A query on the transaction number is cast through the trim setter. |
| PurchaseModel.FindByTransactionNumber | models/purchaseTransaction.model.js:103-105 | The finder returns a purchase whose number equals the trimmed argument, and nothing iff none does. |
| PurchaseModel.FindByDateRange | models/purchaseTransaction.model.js:108-115 | The finder returns exactly the purchases dated within [start, end]. |
| PurchaseModel.DateRangeBounds | models/purchaseTransaction.model.js:108-115 | A reversed range finds nothing; a one-day range finds that day's purchases. |
| CompanyModel.CompanyValidation | models/company.model.js:3-86 | A company is storable iff all of the following hold: firmId has 3 to 20 characters; address 1 and the name have at most 100; PIN, GST, PAN, contact number and e-mail match their patterns. |
| CompanyModel.CompanyStoresFirmId | models/company.model.js:4-12 | firmId is stored trimmed and upper-cased. |
| CompanyModel.CompanyStoresGstNo | models/company.model.js:35-41 | gstNo is stored trimmed and upper-cased. |
| CompanyModel.CompanyStoresPanNo | models/company.model.js:42-48 | panNo is stored trimmed and upper-cased. |
| CompanyModel.CompanyStoresEmail | models/company.model.js:55-64 | emailId is stored trimmed and lower-cased. |
| CompanyModel.CompanyActiveByDefault | models/company.model.js:71-74 | A company saved without the flag is active. |
| CompanyModel.FindByFirmIdMeans | models/company.model.js:96-98 | `findByFirmId` finds a company iff one stores the argument trimmed and upper-cased, so the argument's case does not matter. |
| CompanyModel.TaxFindersIgnoreCase | models/company.model.js:101-108 | `findByGstNo` and `findByPanNo` ignore the argument's letter case. |
| CompanyModel.CompanyQueryValues | models/company.model.js:96-108 | The finders' query values are cast through the setters, so they compare with the stored, trimmed form. |
| Patterns.PinShapeMeans | models/company.model.js:33 | `^[1-9][0-9]{5}$` accepts exactly six digits with a non-zero first digit. |
| Patterns.GstShapeMeans | models/company.model.js:40 | The GST pattern accepts exactly 2 digits, 5 letters, 4 digits, a letter, one of [1-9A-Z], "Z" and one of [0-9A-Z]. |
| Patterns.PanShapeMeans | models/company.model.js:47 | The PAN pattern accepts exactly 5 letters, 4 digits and a letter. |
| Patterns.ContactShapeMeans | models/company.model.js:53 | The contact pattern accepts exactly ten digits, the first in 6 to 9. |
| Patterns.GstEmbedsPan | models/company.model.js:40-47 | Characters 3 to 12 of a valid GST number form a valid PAN. |
| Patterns.EmailMeans | models/company.model.js:60-63 | The e-mail pattern accepts a string iff it splits as a dotted word run, "@", a dotted word run, and a final suffix of dot-separated 2- or 3-character word groups. |
| Patterns.EmailSplitIsCanonical | models/company.model.js:61 | Such a split is unique: at the first "@" and the last dot. |
| Codes.PinPath | models/company.model.js:29-34 | The pinCode rule accepts exactly a present text that is a PIN code. |
| Codes.GstPath | models/debitParty.model.js:32-37 | The GST rule, required or optional, accepts exactly a GST number; when optional, also an absent or empty value. |
| Codes.PanPath | models/debitParty.model.js:38-43 | The PAN rule, required or optional, accepts exactly a PAN; when optional, also an absent or empty value. |
| Codes.ContactPath | models/company.model.js:49-54 | The contactNo rule accepts exactly a present text that is a contact number. |
| Codes.EmailPath | models/company.model.js:55-64 | The emailId rule accepts exactly a present text that matches the e-mail pattern. |
| DebitPartyModel.DebitPartyValidation | models/debitParty.model.js:3-89 | A debit party is storable iff all of the following hold: name and address 1 have at most 100 characters; the PIN is valid; GST and PAN are absent or valid; the IEC has at most 20 characters; each EPCG licence has at most 50. |
| DebitPartyModel.DebitPartyStoresGstNo | models/debitParty.model.js:32-37 | gstNo is stored trimmed and upper-cased. |
| DebitPartyModel.DebitPartyStoresPanNo | models/debitParty.model.js:38-43 | panNo is stored trimmed and upper-cased. |
| DebitPartyModel.DebitPartyStoresIecNo | models/debitParty.model.js:44-49 | iecNo is stored trimmed and upper-cased. |
| DebitPartyModel.DebitPartyActiveByDefault | models/debitParty.model.js:73-76 | A debit party saved without the flag is active. |
| DebitPartyModel.DebitPartyQueryValues | models/debitParty.model.js:104-111 | The GST and PAN finders' query values are cast through the setters, so they compare with the stored, trimmed upper-case form. |
| DebitPartyModel.FindByPartyName | models/debitParty.model.js:99-101 | The finder returns a party whose name contains the argument, ignoring case, and nothing iff none does. |
| DebitPartyModel.TaxFindersIgnoreCase | models/debitParty.model.js:104-111 | `findByGstNo` and `findByPanNo` ignore the argument's letter case. |
| CreditPartyModel.CreditPartyValidation | models/creditParty.model.js:3-60 | A credit party is storable iff all of the following hold: name and address lines have at most 100 characters; the PIN is valid; country and port are present with at most 50 characters. |
| CreditPartyModel.CreditPartyActiveByDefault | models/creditParty.model.js:44-47 | A credit party saved without the flag is active. |
| CreditPartyModel.FindByPartyName | models/creditParty.model.js:69-71 | The finder returns a party whose name contains the argument, ignoring case, and nothing iff none does. |
| CreditPartyModel.FindByCountry | models/creditParty.model.js:74-76 | The finder returns exactly the parties whose country contains the argument, ignoring case. |
| CreditPartyModel.FindByPort | models/creditParty.model.js:79-81 | The finder returns exactly the parties whose port contains the argument, ignoring case. |
| ItemModel.ItemValidation | models/item.model.js:3-60 | An item is storable iff all of the following hold: name ≤ 100 and HSN ≤ 20 characters; a non-negative quantity; units among the eleven allowed; a non-negative rupee rate; an optional non-negative dollar rate; remarks ≤ 500 characters. |
| ItemModel.ItemUnitsByDefault | models/item.model.js:21-27 | An item saved without units is counted in "pcs". |
| ItemModel.ItemActiveByDefault | models/item.model.js:44-47 | An item saved without the flag is active. |
| ItemModel.FindByItemName | models/item.model.js:68-70 | The finder returns an item whose name contains the argument, ignoring case, and nothing iff none does. |
| ItemModel.FindByHsnMeans | models/item.model.js:73-75 | `findByHsn` finds an item iff one stores exactly the trimmed HSN. |
| BrokerModel.BrokerValidation | models/broker.model.js:3-26 | A broker is storable iff its name is present with at most 100 characters. |
| BrokerModel.BrokerActiveByDefault | models/broker.model.js:10-13 | A broker saved without the flag is active. |
| BrokerModel.FindByBrokerName | models/broker.model.js:33-35 | The finder returns a broker whose name contains the argument, ignoring case, and nothing iff none does. |
| ChaModel.ChaValidation | models/cha.model.js:3-26 | A CHA is storable iff its name is present with at most 100 characters. |
| ChaModel.ChaActiveByDefault | models/cha.model.js:10-13 | A CHA saved without the flag is active. |
| ChaModel.FindByChaName | models/cha.model.js:33-35 | The finder returns a CHA whose name contains the argument, ignoring case, and nothing iff none does. |
| MasterData.Create | routes/masterData.js:16-73 | Create succeeds iff the name is text, no stored name contains it (ignoring case), and the prepared document is valid. It appends the document; a contained name is the registry's duplicate message. |
| MasterData.CreateRejectsContainedName | routes/masterData.js:29-35 | "Cot" cannot be added while "Cotton" is stored, whatever the case of either. |
| MasterData.CreateAddsOne | routes/masterData.js:16-73 | A successful create keeps every document and adds exactly one valid document under a fresh id. |
| MasterData.Read | routes/masterData.js:127-159 | A read succeeds iff the id is well formed and stored. Otherwise it is 400 for a malformed id and 404 for an absent one. |
| MasterData.Update | routes/masterData.js:162-232 | A malformed id is the catch-all 500 and an absent one 404. The duplicate is reported iff the name changes to one contained in a stored name. Success writes the validated merge in place. |
| MasterData.UpdateKeepsOthers | routes/masterData.js:193-197 | An update changes only the document it names. |
| MasterData.RenameToOwnPartRejected | routes/masterData.js:183-191 | Renaming a document to a different part of its own name is refused as a duplicate, since the finder finds the document itself. |
| MasterData.UnchangedNameSkipsCheck | routes/masterData.js:183-191 | When the name is not sent or unchanged, the update never reports a duplicate. |
| MasterData.Delete | routes/masterData.js:235-267 | A delete removes exactly the document named. A malformed id is 400, an absent one 404. |
| MasterData.DeleteRemovesExactlyOne | routes/masterData.js:235-267 | Deleting a stored document shortens the registry by one and keeps every other document. |
| Paging.ParseIntReadsLeadingDigits | routes/masterData.js:78 | `parseInt` skips leading white space and reads the leading digit run, ignoring what follows. |
| Paging.ParseIntNotANumber | routes/masterData.js:78 | `parseInt` of text that starts with no sign or digit is NaN. |
| Paging.ParseIntOfNatToString | routes/masterData.js:78 | `parseInt` reads back any decimal numeral. |
| Paging.PageOf | routes/masterData.js:78 | `parseInt(page) \|\| 1` is never 0. |
| Paging.LimitOf | routes/masterData.js:79 | `parseInt(limit) \|\| 10` is never 0. |
| Paging.PageAndLimitDefaults | routes/masterData.js:78-79 | A missing, zero or non-numeric page is 1 and limit 10; a positive numeral is taken as is. |
| Paging.TotalPages | routes/masterData.js:111 | `Math.ceil(total / limit)` is the least page count whose pages hold all documents. |
| Paging.TotalPagesZeroIff | routes/masterData.js:111 | There are no pages iff there are no documents. |
| Paging.Window | routes/masterData.js:100-102 | `skip(s).limit(l)` shows at most l documents, taken in order from position s. A negative skip is refused. |
| Paging.WindowIsFull | routes/masterData.js:100-102 | A window holds `limit` documents when that many remain after the skip, the rest when fewer remain, and none past the end. |
| Paging.EveryDocumentOnItsPage | routes/masterData.js:80 | Document i appears on page ⌊i / limit⌋ + 1, and that page is within the page count. |
| Paging.SliceAgreesWithWindow | routes/receiptTransactions.js:616 | For a non-negative skip, `slice(skip, skip + limit)` is the same window as `skip(skip).limit(limit)`. |
| Queries.List | routes/masterData.js:76-124 | A list shows, newest first, the page of documents that pass the search and flag filters. It reports their count and ⌈count / limit⌉ pages; a page below 1 is the catch-all 500. |
| Queries.ActiveFilterMeans | routes/masterData.js:93-95 | Without a search, `isActive=true` lists the active documents, any other value the inactive ones, and no parameter all of them. |
| Queries.ListShowsOnlyMatches | routes/masterData.js:84-95 | Every listed document is stored and passes the filters. |
| Queries.FirstPageIsNewest | routes/masterData.js:78-102 | With no parameters, the first page holds the ten newest documents. |
| Queries.FindContaining | models/item.model.js:68-70 | A `$regex`/`i` `findOne` returns a document whose field contains the text, ignoring case, and nothing iff none does. |
| Queries.AllContaining | routes/debitParties.js:379-381 | A `$regex`/`i` `find` returns exactly the documents whose field contains the text, ignoring case. |
| Queries.FindExact | models/company.model.js:96-98 | An equality `findOne` compares with the query value cast through the path's setters. |
| Queries.FindAllExact | models/receiptTransaction.model.js:111-113 | An equality `find` returns exactly the documents holding the query value cast through the path's setters. |
| Queries.FindContainingFindsSameName | routes/masterData.js:29-35 | A stored name is always found by its own text. |
| Errors.DuplicateKeyMessage | routes/companies.js:99-106 | The duplicate-key message is "<Entity> with this <Field> already exists", where <Field> is the field with its first character upper-cased. |
| CompanyRoutes.LookupMeans | routes/companies.js:26-59 | Each duplicate lookup finds a company iff one stores the sent value in its normalised form: upper-cased for firmId, GST and PAN, lower-cased for e-mail. |
| CompanyRoutes.CheckSent | routes/companies.js:26-59 | One create-time lookup passes iff the value is free, refuses with its message iff the value is taken, and fails with 500 only when the value is missing or not text. |
| CompanyRoutes.CreateChecks | routes/companies.js:26-59 | The checks run firmId, GST, PAN, then e-mail. The first value held by another company is reported with its message, and a missing value is a 500. |
| CompanyRoutes.CreateCompany | routes/companies.js:10-114 | After the checks, the company is prepared and validated, then appended under the new id. A failed check or validation stores nothing. |
| CompanyRoutes.IndexMessageDiffers | routes/companies.js:99-106 | The unique-index message for firmId reads "Company with this FirmId already exists", unlike the route's own check message. |
| CompanyRoutes.NoClashWhenFree | routes/companies.js:26-32 | When the sent firmId is free, the prepared company cannot clash with the unique firmId index. |
| CompanyRoutes.CreateNeverClashesOnIndex | routes/companies.js:99-106 | The explicit firmId check runs first, so create never reports the unique-index message. |
| CompanyRoutes.FreeIdentifiersAccepted | routes/companies.js:10-114 | With every identifier free and a valid document, create succeeds. |
| CompanyRoutes.CheckChanged | routes/companies.js:241-283 | One update-time lookup passes iff the field is unchanged or free, and refuses with its message iff it changed to a taken value. |
| CompanyRoutes.UpdateChecks | routes/companies.js:241-283 | On update, each lookup runs only when the field is sent and differs from the stored value, in the same order as on create. |
| CompanyRoutes.UpdateCompany | routes/companies.js:216-344 | A malformed id is 400 and an absent one 404. A failed check is reported. Success writes the validated merge in place. |
| CompanyRoutes.OwnFirmIdInOtherCaseRejected | routes/companies.js:241-249 | Sending the company's own firmId in other letters differs from the stored value, so the upper-cased lookup finds the company itself and refuses. |
| CompanyRoutes.UnchangedFieldsSkipLookups | routes/companies.js:241-283 | When no identifier changes, the update never reports a duplicate. |
| CompanyRoutes.UpdateKeepsOtherCompanies | routes/companies.js:286-290 | An update changes only the company it names. |
| CompanyRoutes.ReadCompany | routes/companies.js:179-211 | A read succeeds iff the id is well formed and stored. Otherwise it is 400 or 404. |
| CompanyRoutes.DeleteCompany | routes/companies.js:349-381 | A delete removes exactly the company named. A malformed id is 400, an absent one 404. |
| CompanyRoutes.ListCompanies | routes/companies.js:119-174 | Every listed company is stored and matches the search over firmId, name, GST, PAN and e-mail. |
| DebitPartyRoutes.CheckName | routes/debitParties.js:28-34 | The name check refuses iff some stored party's name contains the sent name, ignoring case. |
| DebitPartyRoutes.CheckTax | routes/debitParties.js:37-56 | A GST or PAN check refuses iff a stored party holds the sent value, upper-cased. |
| DebitPartyRoutes.TaxLookupMeans | routes/debitParties.js:37-56 | The GST and PAN lookups find a party iff one stores the sent value trimmed and upper-cased. |
| DebitPartyRoutes.CreateChecks | routes/debitParties.js:28-56 | The checks run name, then GST only if sent, then PAN only if sent. The first conflict is reported. |
| DebitPartyRoutes.CreateDebitParty | routes/debitParties.js:10-113 | After the checks, the party is prepared and validated, then appended under the new id. A failed check or validation stores nothing. |
| DebitPartyRoutes.MissingTaxNumbersNeverConflict | routes/debitParties.js:37-56 | A party sent without GST and PAN never meets a GST or PAN conflict. |
| DebitPartyRoutes.CreateRejectsContainedName | routes/debitParties.js:28-34 | A name contained in a stored party's name, ignoring case, is refused. |
| DebitPartyRoutes.UpdateChecks | routes/debitParties.js:241-272 | On update, name, GST and PAN are each checked only when sent and changed. |
| DebitPartyRoutes.UpdateDebitParty | routes/debitParties.js:214-335 | A malformed id is 400 and an absent one 404. A failed check is reported. Success writes the validated merge in place. |
| DebitPartyRoutes.OwnGstInOtherCaseRejected | routes/debitParties.js:252-259 | Sending the party's own GST number in other letters is refused, since the lookup finds the party itself. |
| DebitPartyRoutes.UpdateKeepsOtherParties | routes/debitParties.js:275-279 | An update changes only the party it names. |
| DebitPartyRoutes.ReadDebitParty | routes/debitParties.js:177-209 | A read succeeds iff the id is well formed and stored. Otherwise it is 400 or 404. |
| DebitPartyRoutes.FoundByGst | models/debitParty.model.js:104-106 | `findByGstNo` finds a party iff one stores the trimmed, upper-cased number, and returns such a party. |
| DebitPartyRoutes.DeleteDebitParty | routes/debitParties.js:340-372 | A delete removes exactly the party named. A malformed id is 400, an absent one 404. |
| DebitPartyRoutes.SearchByName | routes/debitParties.js:377-397 | The name search returns every party whose name contains the text, ignoring case, unpaginated. |
| DebitPartyRoutes.SearchByGst | routes/debitParties.js:402-427 | The GST search finds a party iff one holds the trimmed, upper-cased number; otherwise it is 404. |
| Store.FindIgnoresHexCase | routes/masterData.js:129 | Two texts of one ObjectId, differing only in the case of their hex letters, find the same document. |
| Schema.NestedSetDropsSiblings | routes/masterData.js:193-207 | An update that sends one leaf of a nested object (such as `itemRate`) removes the stored leaves of that object it does not send. |
| Store.InsertKeepsIdsUnique | routes/masterData.js:16-73 | Inserting under an id not yet stored keeps ids unique. |
| Store.RemoveUndoesInsert | routes/masterData.js:235-267 | Removing what was just inserted restores the collection. |

## Left out

- HTTP plumbing is not modelled: the `auth` middleware, `req.user`, response envelopes and status codes beyond the error kinds, `populate()` and `toJSON`. The `createdBy`/`updatedBy` stamps are left out with authentication.
- Persistence is abstracted. Ties in `sort` follow insertion order. The timestamps Mongoose adds are not modelled; "latest" sales are the last inserted.
- Concurrency is out of scope. Bill and receipt numbers are read and then saved without a lock (routes/salesTransactions.js:21-35, routes/receiptTransactions.js:17-28). The freshness lemmas hold for one request at a time.
- ReceiptModel.ReceiptField: the `Date.now` default of `receiptDate` (models/receiptTransaction.model.js:11-15) is not declared. No modelled path reaches it: ReceiptRoutes.CreatedReceiptDated shows every created receipt carries the date the request sent, and an update applies no defaults.
- Schema.KindFits: a value must already have its path's kind. Mongoose's converting casts are not modelled: a JSON number or boolean at a text path (cast to its text), "true", "false", "yes", "no", "1" or "0" at a boolean path, and `true`/`false` at a number path (1 and 0). Such a request is refused by the model, with the error each route gives for a value that fails validation or its cast, where the server accepts it. JSON `null` is not a `Value` either, so the update guards' `!== undefined` tests treat only absent fields as unsent.
- Amounts are exact reals. JavaScript doubles, their rounding, `NaN`, and the coercion of numeric strings in request bodies are not modelled. Dates are integers; `new Date(...)` parsing and invalid dates are left out.
- `toLocaleString`, `String(number)` and `String(date)` are the abstract `Formats` parameter, so the notes' rendering of numbers is not fixed.
- The `...additionalFields` spreads and `strict: false` can overwrite any stored key, including `transactionNumber`, `totalAmount`, `inrAmount` and `coveringNotes` (routes/salesTransactions.js:212 and 516-518; routes/receiptTransactions.js:101 and 312-314). Only the named fields are modelled.
- `$regex` is modelled as case-insensitive substring containment on ASCII letters. Regular-expression metacharacters in user input, and non-ASCII case folding, are not modelled.
- models/salesTransaction.model.js is not part of this model. The save-time validation of sales documents is therefore not modelled, and a built sale is stored as built.
- The list routes for sales (routes/salesTransactions.js:246-322) and for receipts (routes/receiptTransactions.js:130-199) are not modelled. Nor are the sales-by-company route (routes/salesTransactions.js:657-708) and the receipts-by-party route (routes/receiptTransactions.js:417-463). These are filters and pages over the same `Queries`/`Paging` machinery, outside the ledger rules.
- The company search routes (routes/companies.js:386-441) are thin wrappers over `findByFirmId`/`findByGstNo`. Those finders are modelled (`CompanyModel.FindByFirmIdMeans`, `CompanyModel.TaxFindersIgnoreCase`); the routes are not.
- `findByReceiptNumber`, `findByDateRange` and `findByCreditParty` of models/receiptTransaction.model.js are not modelled separately. They are exact-match and range finders of the same kind as `ReceiptModel.FindByBillNumber` and `PurchaseModel.FindByDateRange`.
- SalesNotes.NotesOpenWithSubject: the fixed wording between the filled-in values is the `SourceWording` constant passed as a parameter. Its text is transcribed from the template but not compared against it by a lemma.
- ReceiptViews.PendingBillDate: stated only when every receipt is dated. An undated receipt makes `Math.max` yield `NaN`, which is left out with floating point.
- Paging.TotalPages: for a negative limit (from `?limit=-5`), the page count is stated as the matching ceiling. The server's handling of a negative `limit()` is not modelled.
- SalesRoutes.UpdatedSaleFields: `status` and `isActive` updates are passed through as sent. The sales schema that would validate them is not part of this model.
- Text.Upper: case mapping covers ASCII letters only. The `uppercase` and `lowercase` setters, `toUpperCase()` in `SalesNumbers.Initials` and the hex case of ObjectIds are exact for ASCII text; other letters are left unchanged.
- Schema.PathOk: `minlength` and `maxlength` count characters. JavaScript counts UTF-16 code units, so text outside the Basic Multilingual Plane is measured shorter here than by the server.
- Schema.ApplyUpdate: a request body reaches the model with its nested objects flattened to dotted paths. A body that sends a literal dotted key, which `$set` treats as a single leaf, is read as a nested object.
- ReceiptRoutes.Snapshot: the snapshot's `_id` holds the request's id text. The database stores the ObjectId, whose text is lower-case, so the two can differ in letter case. The same holds for the sale snapshots built by `SalesModel.Project`.

## Findings

| source | as written | input that shows it | evidently intended | confidence | as-written member | corrected member |
|---|---|---|---|---|---|---|
| routes/salesTransactions.js:29-31 | The sequence is the whole trailing digit run of the latest bill number, which swallows initials that end in a digit | Company "Acme 3D" (initials "A3") with latest bill "A30001": the next bill is "A330002" | Read the sequence after the initials: "A30002" | high, not executed | SalesNumbers.AsWrittenSwallowsDigitInitials | SalesNumbers.CorrectedReadsAfterDigitInitials |
| routes/salesTransactions.js:57 | The note reads `item.item.itemName` and `itemUnits` from a processed line whose `item` is only the item id | Any sale: each item line reads "1. undefined - Qty: …" | Name and units taken from the item record found for the line | high, not executed | SalesNotes.AsWrittenNamesUndefined | SalesNotes.CorrectedNamesItem |
| routes/receiptTransactions.js:295-302 | The rupee amount is recomputed only when amount, currency "USD" and a truthy rate all arrive together | An INR receipt of 100 updated with `{receiptAmount: 200}` keeps `inrAmount` 100 | Recompute the rupee amount whenever amount, currency or rate changes | high, not executed | ReceiptRoutes.AsWrittenLeavesInrStale | ReceiptRoutes.CorrectedUpdatesInrWithAmount |
| routes/receiptTransactions.js:17-28 | The latest receipt is the greatest number in string order | With "RCP999999" and "RCP1000000" stored, the greatest is "RCP999999", so "RCP1000000" is issued again and the unique index rejects it | Number after the greatest numeric sequence | high, not executed | ReceiptNumbers.AsWrittenRepeatsAfterSixDigits | ReceiptNumbers.NextReceiptNumberFresh |
| routes/receiptTransactions.js:204 | `GET /:id` is declared before `GET /pending-bills` | `GET /receipt-transactions/pending-bills` answers 400 "Invalid receipt transaction ID" | Declare the fixed path before `/:id` | high, not executed | ReceiptRouting.PendingBillsShadowed | ReceiptRouting.CorrectedReachesPendingBills |
