# Library circulation service

This project models the circulation core of a small library management
system: the `CheckoutService` that lends catalogued assets on library cards.
The service works on one store that holds:

- the assets, each with a status (`Available`, `Checked Out` or `Lost`);
- the active checkouts;
- the checkout history, one record per loan period, open until the asset comes back;
- the holds patrons place on assets.

The operations are:

- check-out, which does nothing if the asset is already on loan;
- check-in, which always ends the loan and closes its history record, and then either frees the asset or, when holds are waiting, removes the earliest hold;
- mark-lost;
- mark-found;
- place-hold;
- the read-only queries over the store.

## Files

- `circulation.dfy`: module `Circulation`. It holds:
  - the records as datatypes;
  - the queries over the collections as recursive functions;
  - the store invariant and the lemmas that each step of an operation keeps it;
  - the class `CheckoutService`. Its fields are the four collections, its operations are methods that change them, and its queries are functions that read them.
- `scenarios.dfy`: module `CirculationScenarios`. It has one operation per method on a small, concrete store, and a check-out/check-in round trip on an arbitrary store. Each one states what a caller can conclude from the contracts alone.
- `sequences.dfy`: module `Sequences`. It holds `RemoveAt`, which deletes one record from a collection kept in insertion order.
- `wrappers.dfy`: module `Wrappers`. It holds `Option`, used wherever the service finds a record or nothing.

## How the model is set up

- The store is kept in memory:
  - `assets` is a map from asset id to asset;
  - checkouts, history records and holds are sequences in insertion order.

  A query without an ordering (`FirstOrDefault`, `Where`) meets records in that order. Where the code orders (`OrderBy(HoldPlaced)`, `OrderByDescending(Since)`), the database leaves the order of ties undefined. The model chooses the record stored first.
- Time is an integer number of days passed in as `now`. The loan period is `LoanPeriodDays = 30`.
- `GetDefaultCheckoutTime` (`LibraryServices/CheckoutService.cs:100-103`) is written inline as `now + LoanPeriodDays` in `CheckoutService.CheckoutItem`. Its contract fixes the due date of the new checkout to that value.
- `UpdateAssetStatus` takes the status name, as the code does. It looks the name up in a model of the status table (`StatusNamed`).
- Patron names come from the patron table. That lookup is the parameter `displayName` of `GetCurrentPatron`.
- The class invariant `Valid()` is `StoreInvariant`. It says:
  - at most one active checkout per asset;
  - at most one open history record per asset;
  - an asset is on loan exactly when it has an open history record;
  - every record refers to a catalogued asset.

  Every operation keeps it.

### Behaviour of the code worth knowing

- `CheckInItem` removes the active checkout and closes the open history record before it looks at the holds (`LibraryServices/CheckoutService.cs:35-36`). These two steps therefore happen on both branches. With holds waiting, the earliest hold is deleted and nothing else happens: no new checkout, no status change. The asset keeps whatever status it had (`Checked Out` for an asset that was on loan), although no checkout remains.
- `GetCurrentHolds` does not order the holds by placement time (`LibraryServices/CheckoutService.cs:147-152`). Its results come in store order.
- `MarkFound` does not look at the holds (`LibraryServices/CheckoutService.cs:197-206`).

## Model

| member | source | states |
|---|---|---|
| Circulation.StatusNamed | LibraryServices/CheckoutService.cs:208-216 | The status-table lookup by name finds the status with exactly that name, and nothing for a name that no status has. |
| Circulation.LoanIndex | LibraryServices/CheckoutService.cs:218-221 | The checkout lookup for an asset finds nothing exactly when the asset has no checkout. Otherwise it finds the first checkout of that asset in the store. |
| Circulation.OpenRecordIndex | LibraryServices/CheckoutService.cs:228-232 | The history lookup finds nothing exactly when the asset has no open record. Otherwise it finds the first record of that asset whose check-in time is unset. |
| Circulation.HoldsOn | LibraryServices/CheckoutService.cs:37-40 | The holds on an asset are exactly the holds in the store that belong to that asset, each as often as it is stored. |
| Circulation.RecordsOf | LibraryServices/CheckoutService.cs:115-121 | The history of an asset is exactly the records in the store that belong to that asset, open or closed. |
| Circulation.HoldsOnAppend | LibraryServices/CheckoutService.cs:147-152 | Filtering the holds commutes with appending: the holds on an asset in `a + b` are those in `a` followed by those in `b`. |
| Circulation.RecordsOfAppend | LibraryServices/CheckoutService.cs:115-121 | Filtering the history commutes with appending, so a new record joins the end of its asset's history. |
| Circulation.EarliestHoldIndex | LibraryServices/CheckoutService.cs:52-56 | The earliest hold exists exactly when the asset has a hold. It belongs to that asset, no hold on that asset was placed earlier, and every hold stored before it with the same time was placed strictly later. |
| Circulation.LatestCheckoutIndex | LibraryServices/CheckoutService.cs:177-183 | The latest checkout exists exactly when the asset has a checkout. No checkout of that asset started later, and every one stored before it started strictly earlier. |
| Circulation.HistoryGrowsTransitive | LibraryServices/CheckoutService.cs:228-239 | Over any series of operations that each only append or close records, no history record is lost and a closed record never changes again. |
| Circulation.RemoveLoan | LibraryServices/CheckoutService.cs:218-226 | Removing an asset's checkout keeps one checkout per asset. It leaves that asset with no checkout and every other asset's loan state unchanged. |
| Circulation.CloseRecord | LibraryServices/CheckoutService.cs:228-239 | Closing an asset's open record keeps one open record per asset. It leaves that asset with none and every other asset's open record as it was. |
| Circulation.AddLoan | LibraryServices/CheckoutService.cs:80-88 | Adding a checkout for an asset without one keeps one checkout per asset. It lends that asset and changes the loan state of no other. |
| Circulation.AddOpenRecord | LibraryServices/CheckoutService.cs:90-97 | Adding an open record for an asset without one keeps one open record per asset. It opens that asset's record and changes no other asset's. |
| Circulation.AppendedLoanIsFound | LibraryServices/CheckoutService.cs:218-221 | After a checkout of a free asset, the check-in lookup finds exactly that new checkout. Removing it gives back the checkouts as they were before. |
| Circulation.AppendedRecordIsFound | LibraryServices/CheckoutService.cs:228-232 | After a checkout of a free asset, the history lookup finds exactly the record the checkout opened. |
| Circulation.LatestCheckoutIsTheLoan | LibraryServices/CheckoutService.cs:169-183 | With one checkout per asset, the latest checkout of an asset and the first one are the same record. |
| Circulation.EndLoanKeepsInvariant | LibraryServices/CheckoutService.cs:35-36 | Removing an asset's checkout and closing its open record keeps the whole store invariant. |
| Circulation.HoldsOnRemoveMatching | LibraryServices/CheckoutService.cs:59 | Deleting a hold on an asset removes exactly that one hold from the asset's holds. |
| Circulation.HoldsOnRemoveOther | LibraryServices/CheckoutService.cs:59 | Deleting a hold on one asset leaves the holds on every other asset, and their order, unchanged. |
| Circulation.RemoveEarliestHold | LibraryServices/CheckoutService.cs:52-61 | Deleting the earliest hold takes exactly one hold off the asset's queue. No other asset's holds change. |
| Circulation.CheckoutService.constructor | LibraryServices/CheckoutService.cs:15-18 | The service is built over a consistent store and holds exactly that store. |
| Circulation.CheckoutService.IsCheckedOut | LibraryServices/CheckoutService.cs:190-195 | An asset is checked out exactly when some active checkout refers to it. |
| Circulation.CheckoutService.GetCurrentHolds | LibraryServices/CheckoutService.cs:147-152 | The holds returned are exactly the stored holds on the asset, with their multiplicity. |
| Circulation.CheckoutService.GetCheckoutHistory | LibraryServices/CheckoutService.cs:115-121 | The records returned are exactly the stored history records of the asset. |
| Circulation.CheckoutService.GetLatestCheckout | LibraryServices/CheckoutService.cs:177-183 | The result is nothing exactly when the asset is not checked out. Otherwise it is a stored checkout of the asset, and no other checkout of that asset started later. |
| Circulation.CheckoutService.GetCheckoutByAssetId | LibraryServices/CheckoutService.cs:169-175 | The result is nothing exactly when the asset is not checked out. Otherwise it is a stored checkout of the asset. In a consistent store it is that asset's only checkout. |
| Circulation.CheckoutService.GetCurrentPatron | LibraryServices/CheckoutService.cs:154-167 | The result is "Not checked out" when the asset has no checkout. Otherwise it is the display name of the card on the asset's checkout, which in a consistent store is the only one. |
| Circulation.CheckoutService.UpdateAssetStatus | LibraryServices/CheckoutService.cs:208-216 | Only the named asset's status changes, and it becomes the status with the given name. |
| Circulation.CheckoutService.RemoveExistingCheckouts | LibraryServices/CheckoutService.cs:218-226 | The first checkout of the asset is removed, or nothing changes if it has none. No checkout is invented. One checkout per asset is kept, the asset ends with none, and other assets' loans stay as they were. |
| Circulation.CheckoutService.CloseExistingCheckoutHistory | LibraryServices/CheckoutService.cs:228-239 | The asset's first open record gets check-in time `now` and nothing else changes; with no open record, the history is untouched. The history only grows, and the asset ends with no open record. |
| Circulation.CheckoutService.CheckoutToEarliestHold | LibraryServices/CheckoutService.cs:52-61 | Exactly the earliest hold on the asset is deleted; nothing else changes. |
| Circulation.CheckoutService.CheckoutItem | LibraryServices/CheckoutService.cs:63-103 | An asset already on loan is left exactly as it was. Otherwise three things happen and nothing else changes: the status becomes Checked Out, one checkout from `now` to `now + 30` is appended, and one open record is appended. Afterwards the asset is checked out, the new checkout is the one found, and the invariant holds. |
| Circulation.CheckoutService.CheckInItem | LibraryServices/CheckoutService.cs:26-61 | The asset's checkout is removed and its open record closed at `now`. Other assets keep their loan state. With no hold on the asset, the holds stay and the status becomes Available. With holds, exactly the earliest one is deleted and no status changes. The history only grows, and the invariant holds. |
| Circulation.CheckoutService.MarkLost | LibraryServices/CheckoutService.cs:241-245 | From any status, the asset becomes Lost; checkouts, history and holds are untouched. |
| Circulation.CheckoutService.MarkFound | LibraryServices/CheckoutService.cs:197-206 | The asset becomes Available, its checkout is removed and its open record closed at `now`. The holds are untouched and the history only grows. |
| Circulation.CheckoutService.PlaceHold | LibraryServices/CheckoutService.cs:247-266 | Exactly one hold for the asset and card, placed at `now`, is appended, with no condition on status or existing holds. It joins the end of that asset's holds, and no other record changes. |
| CirculationScenarios.CheckoutAvailable | LibraryServices/CheckoutService.cs:63-103 | Checking out an available asset leaves it Checked Out, with one checkout lasting 30 days and one open record. |
| CirculationScenarios.CheckoutLent | LibraryServices/CheckoutService.cs:63-68 | A second check-out of a lent asset keeps the first loan, its record and its patron. |
| CirculationScenarios.CheckInLent | LibraryServices/CheckoutService.cs:26-50 | Checking in a lent asset without holds makes it Available, removes the checkout and closes the record. The current patron is then "Not checked out". |
| CirculationScenarios.CheckInWithHolds | LibraryServices/CheckoutService.cs:37-61 | With two holds stored latest first, check-in deletes the one placed earlier and keeps the other. The status stays Checked Out while no checkout remains. |
| CirculationScenarios.CheckInLostWithHold | LibraryServices/CheckoutService.cs:26-46 | Checking in a lent asset marked Lost, with one hold waiting, ends the loan and deletes the hold. The status stays Lost, because the holds branch does not touch the status. |
| CirculationScenarios.MarkLostLent | LibraryServices/CheckoutService.cs:241-245 | Marking a lent asset lost keeps its loan and open record. |
| CirculationScenarios.MarkFoundLost | LibraryServices/CheckoutService.cs:197-206 | Marking a lost asset found frees it, ends the loan, closes the record and keeps a waiting hold. |
| CirculationScenarios.PlaceHoldAvailable | LibraryServices/CheckoutService.cs:247-266 | A hold placed on an asset without holds is the one hold the holds query returns. |
| CirculationScenarios.CheckoutThenCheckIn | LibraryServices/CheckoutService.cs:26-103 | On any consistent store, a check-out followed by a check-in of a free asset with no holds returns the checkouts and holds to what they were. The asset is left Available, and the history gains one record, closed at the check-in time. |

## Left out

- The web controllers, which only forward requests to the service and build view models.
- Persistence through the database context: change tracking, `Include`, `SaveChanges` and when data is flushed. The store is plain in-memory collections.
- The clock: `DateTime.Now` is the parameter `now`, and `AddDays(30)` is integer addition of `LoanPeriodDays`.
- Lookups that find no asset, card or patron and then dereference null. Asset existence is a precondition (`id in assets`). Card ids are stored as given, since there is no card table.
- Circulation.CheckoutService.UpdateAssetStatus: requires that a status with the given name exists. All callers pass one of the three names.
- `GetNumberOfCopies`, which only throws "not implemented".
- `Add`, `Get` and `GetAll`, which are thin wrappers over the store.
- `GetCurrentHoldPatron` and `GetCurrentHoldPlaced`, which are lookups by hold id.
- The patron table. `GetCurrentPatron` takes the card-to-name lookup as the parameter `displayName`.
- Asset attributes other than status, and record ids: records are compared by value.
- Concurrency between requests.
