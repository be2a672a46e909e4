# Bean bag store ledger

A Dafny model of the inventory ledger of the bean bag store
(`src/beanbags/Store.java`) and of the record it keeps (`src/beanbags/BeanBag.java`).

A store holds three lists that its operations change in place:

- the stock list: one record per bean bag id as long as ids stay distinct, holding a quantity, a price (0 until set) and optional free text;
- the reservation list: one record per live reservation, holding a quantity, an id, a price and a nine-digit token;
- the sold list: quantities sold, by id and price.

Operations add stock, set a price, sell by id, reserve (which mints a fresh token), cancel a reservation, complete a reservation as a sale, rename an id, clear the lists, and answer count and price queries. Every operation that takes an id checks that the id is legal before it changes anything: eight lower-case hexadecimal digits, the first of them 0-7. Operations that also take a count (adding, selling by id, reserving) check the count first, so a bad count is reported ahead of a bad id.

Files:

- `wrappers.dfy`: `Option`, `Result` and `Outcome`.
- `beanbag.dfy`, module `BeanBags`: the `Record` value that a `BeanBag` object holds, the four ways of building one, and the `BeanBag` class with its constructors, setters and getters.
- `ids.dfy`, module `Ids`: legal identifiers, and the fact that a legal id spells a non-negative 32-bit number.
- `ledger.dfy`, module `Ledger`: the three lists as a `State` value, and one specification function per store operation. Each function returns the new state or the error that the matching Java exception signals. The file also holds `Valid`, the invariant every operation keeps. Module `LedgerFacts` in the same file collects list lemmas (sums, search, renaming).
- `properties.dfy`, module `Properties`: what the operations promise, proved about the specification functions:
  - every operation keeps the invariant;
  - with distinct stock ids, reserving and cancelling keep the bags in stock constant;
  - with distinct stock ids, reserving and then cancelling restores the store;
  - selling moves units from stock or reservations to the sold list;
  - replace renames live records only;
  - the odd behaviours of the source hold as written.
- `store.dfy`, module `Stores`: the `Store` class. Its three `seq<Record>` fields are reassigned by methods whose loops follow the Java loops. Each method is proved to produce exactly the state and outcome of its specification function, and a failing operation leaves all three lists as they were.

Behaviours of the source that the model keeps as written:

- "Not found" is raised only at the last index of a search loop. So setting a price, selling by id, cancelling, completing a reservation, counting by id and replacing all pass silently when the list they search is empty (`Properties.EmptyStoreIgnoresUnknownIds`). Reserving an unknown id always fails.
- The seven-argument `addBeanBags` keeps its free text only when the stock is empty (`Properties.AddWithInformationTwiceMismatches`).
- A direct sale merges into the first sold entry with the same id, whatever its price (`Properties.SellBooksEarlierPrice`). A reservation sale merges by id and price.
- The two per-id sold queries disagree about an id never sold. When something else has been sold, `getNumberOfSoldBeanBags(id)` reports the id as unknown while `getTotalPriceOfSoldBeanBags(id)` returns 0 (`Properties.SoldQueriesDisagree`). When nothing has been sold, it is the other way round: the count returns 0 and the takings query reports the id as unknown (`Properties.EmptyStoreIgnoresUnknownIds`).
- `replace` renames in the stock and reservation lists but not in the sold list (`Properties.ReplaceRenames`). It does not check whether the new id is in use, so stock ids can stop being distinct (`Properties.ReplaceCanDuplicateIds`). Distinct stock ids are therefore not part of the invariant, and the lemmas that need them require them.
- Cancelling a reservation gives its bags back to every stock record with its id (`Properties.UnreserveRestocksEveryMatch`).

## Model

| member | source | states |
|---|---|---|
| BeanBags.BeanBag.Stock | src/beanbags/BeanBag.java:32-39 | sets quantity, manufacturer, name, id, year and month; price stays 0, the not-set marker; free text and token stay unset |
| BeanBags.BeanBag.StockWithInformation | src/beanbags/BeanBag.java:53-61 | the same record as the six-argument constructor, with the free text set as well |
| BeanBags.BeanBag.Reservation | src/beanbags/BeanBag.java:73-78 | sets only quantity, id, price and token; manufacturer, name and free text stay unset |
| BeanBags.BeanBag.Sold | src/beanbags/BeanBag.java:88-92 | sets only quantity, id and price; the token stays 0 |
| BeanBags.BeanBag.SetQuantity | src/beanbags/BeanBag.java:99-110 | the getter then returns the new quantity, and no other field changes |
| BeanBags.BeanBag.SetPrice | src/beanbags/BeanBag.java:135-146 | the getter then returns the new price, and no other field changes |
| BeanBags.BeanBag.SetId | src/beanbags/BeanBag.java:153-164 | the getter then returns the new id, and no other field changes |
| BeanBags.BeanBag.SetYear | src/beanbags/BeanBag.java:171-173 | only the year changes |
| BeanBags.BeanBag.SetMonth | src/beanbags/BeanBag.java:180-182 | only the month changes |
| Ids.LegalIdIsNonNegativeInt32 | src/beanbags/Store.java:89-94 | among strings of eight lower-case hexadecimal digits, the legal ids are exactly those whose value is below 2^31 |
| Ids.IllegalIdExamples | src/beanbags/Store.java:30-48 | upper-case digits, a leading digit 8 and a seven-character id are refused; "7fffffff" and "00abcdef" are accepted |
| Stores.Store.constructor | src/beanbags/Store.java:18-22 | a new store has three empty lists, which satisfy the invariant |
| Stores.Store.IsIdValid | src/beanbags/Store.java:30-48 | true exactly when the first character is 0-7 and every character is a lower-case hexadecimal digit (length not checked) |
| Stores.Store.CheckId | src/beanbags/Store.java:89-94 | passes exactly the legal ids and fails every other string with IllegalId |
| Stores.Store.CheckAddArguments | src/beanbags/Store.java:66-77 | passes exactly when num >= 1, the id is legal and the month is 1-12; otherwise reports the first failing check in that order |
| Stores.Store.AddBeanBags | src/beanbags/Store.java:352-383 | after the argument checks: an existing id with the same manufacturer and name gains num bags and takes the new year and month; a different manufacturer or name is a mismatch that changes nothing; a new id is appended as an unpriced record |
| Stores.Store.AddBeanBagsWithInformation | src/beanbags/Store.java:410-440 | as the six-argument add, but a merge also requires equal free text; the text is kept only when the stock was empty, and on a non-empty stock the record is appended without it |
| Stores.Store.AddStock | src/beanbags/Store.java:352-383 | the merge-or-append loop that both adds share; the invariant is kept, and a failure leaves all lists unchanged |
| Stores.Store.SetBeanBagPrice | src/beanbags/Store.java:457-470 | checks the id, then that the price is at least 1; the first stock record with the id takes the price; an unknown id is reported only when the stock is non-empty |
| Stores.Store.RecordSale | src/beanbags/Store.java:514-532 | the sold list gains num bags on the first entry matching the key, or the new entry is appended; the other lists are untouched |
| Stores.Store.SellBeanBags | src/beanbags/Store.java:496-541 | checks in order: count, id, price not set, nothing in stock, too little stock; on success the stock record loses num bags and the sale is merged by id; an unknown id is reported only when the stock is non-empty; a failure changes nothing |
| Stores.Store.GenerateReservationNumber | src/beanbags/Store.java:138-157 | the token lies in [100000000, 999999998], no live reservation holds it, and it comes from the first draw that is free |
| Stores.Store.ReserveBeanBags | src/beanbags/Store.java:568-596 | runs the sale checks; on success the stock record loses num bags and one reservation (num, id, stock price, token) is appended under a fresh token in range; an unknown id always fails; a failure changes nothing |
| Stores.Store.UnreserveBeanBags | src/beanbags/Store.java:611-628 | removes the reservation with the token and gives its bags back to every stock record with its id; the sold list is untouched; an unknown token is reported only when reservations exist |
| Stores.Store.RestockAll | src/beanbags/Store.java:615-621 | every stock record with the reservation's id, not only the first, gets the reserved bags back; the other records and both other lists are unchanged |
| Stores.Store.LowerReservedPrice | src/beanbags/Store.java:647-655 | the reservation takes the price of the first stock record with its id and a lower price, or keeps its own; nothing else changes |
| Stores.Store.SellReservedBeanBags | src/beanbags/Store.java:643-685 | the reservation's price is lowered to that of the first stock record with its id and a lower price; the sale is merged by id and price, and the reservation is removed; stock is untouched |
| Stores.Store.ReplaceBeanBagId | src/beanbags/Store.java:305-326 | succeeds exactly when the longer list is empty or either list holds the old id; on success every record with the old id gets the new id in both lists; on failure nothing changes |
| Stores.Store.Replace | src/beanbags/Store.java:984-992 | checks both ids, then renames in stock and reservations but not in the sold list; unknown exactly when at least one of the two lists is non-empty and neither holds the old id |
| Stores.Store.TotalBeanBagsInStock | src/beanbags/Store.java:167-178 | the sum of the quantities of both lists |
| Stores.Store.BeanBagsInStock | src/beanbags/Store.java:694-701 | units in stock plus units reserved |
| Stores.Store.ReservedBeanBagsInStock | src/beanbags/Store.java:710-717 | the sum of the reserved quantities |
| Stores.Store.TotalBeanBagsInStockOf | src/beanbags/Store.java:195-218 | the units with the id in both lists; unknown exactly when the longer list is non-empty and neither list holds the id |
| Stores.Store.BeanBagsInStockOf | src/beanbags/Store.java:734-742 | for a legal id: units with it in stock plus reserved; 0 when both lists are empty; otherwise unknown when neither holds it |
| Stores.Store.NumberOfDifferentBeanBagsInStock | src/beanbags/Store.java:795-797 | the length of the stock list, which is the number of different ids whenever the ids are distinct |
| Stores.Store.NumberOfSoldBeanBags | src/beanbags/Store.java:805-812 | the sum of the sold quantities |
| Stores.Store.NumberOfSoldBeanBagsOf | src/beanbags/Store.java:829-843 | for a legal id: 0 on an empty sold list; otherwise the units sold with the id, reported as unknown when that sum is 0 |
| Stores.Store.TotalPriceOfSoldBeanBags | src/beanbags/Store.java:852-859 | the sum of quantity times price over the sold list |
| Stores.Store.TotalPriceOfSoldBeanBagsOf | src/beanbags/Store.java:878-893 | for a legal id: the sum of quantity times price of its sold entries, 0 when there are none; unknown only when the sold list is empty |
| Stores.Store.TotalPriceOfReservedBeanBags | src/beanbags/Store.java:903-910 | the sum of quantity times price over the reservations |
| Stores.Store.BeanBagDetails | src/beanbags/Store.java:928-937 | the free text of the first stock record with the id, None when it has none; unknown when no stock record has the id |
| Stores.Store.Empty | src/beanbags/Store.java:944-949 | all three lists are empty |
| Stores.Store.ResetSaleAndCostTracking | src/beanbags/Store.java:957-960 | the sold list is empty; stock and reservations are unchanged |
| Stores.Store.EmptyList | src/beanbags/Store.java:283-287 | removing the last element until none is left yields the empty list |
| Properties.AddPreservesValid | src/beanbags/Store.java:352-440 | adding keeps the invariant |
| Properties.SetPricePreservesValid | src/beanbags/Store.java:457-470 | setting a price keeps the invariant |
| Properties.SellPreservesValid | src/beanbags/Store.java:496-541 | selling by id keeps the invariant |
| Properties.ReservePreservesValid | src/beanbags/Store.java:568-596 | reserving under a fresh token in range keeps the invariant, including distinct live tokens |
| Properties.UnreservePreservesValid | src/beanbags/Store.java:611-628 | cancelling keeps the invariant |
| Properties.SellReservedPreservesValid | src/beanbags/Store.java:643-685 | completing a reservation keeps the invariant |
| Properties.ReplacePreservesValid | src/beanbags/Store.java:984-992 | replacing keeps the invariant: each reservation's id still names a stock record |
| Properties.AdjustedPriceBounds | src/beanbags/Store.java:647-655 | the price of a reservation sale is never raised and never negative |
| Properties.AdjustedPriceIsMinimum | src/beanbags/Store.java:647-655 | with distinct stock ids, the sale price is the lower of the reserved price and the current stock price |
| Properties.AdjustedPriceOthers | src/beanbags/Store.java:647-655 | stock records with other ids never change the sale price |
| Properties.AddAddsUnits | src/beanbags/Store.java:352-383 | a successful add puts num more bags in stock under the id and leaves reservations and sales alone |
| Properties.AddKeepsIdsUnique | src/beanbags/Store.java:352-383 | a new id is appended after all others, so adding keeps distinct stock ids distinct |
| Properties.AddTwiceMerges | src/beanbags/Store.java:352-383 | adding the same bags twice merges the second batch: one record, twice the bags |
| Properties.AddWithInformationTwiceMismatches | src/beanbags/Store.java:410-440 | with other stock present, the free text of a new id is dropped, and adding the same bags with the same text again fails as a mismatch |
| Properties.SellMovesUnits | src/beanbags/Store.java:496-541 | a sale moves num bags from stock to the sold list, overall and for its id; reservations are untouched |
| Properties.SellBooksEarlierPrice | src/beanbags/Store.java:514-519 | a direct sale of an id already sold adds to the earlier entry, so it is booked at that entry's price, not the current stock price |
| Properties.ReserveKeepsUnitsInStock | src/beanbags/Store.java:568-596 | reserving moves num bags from stock to reservations, so the bags in stock, reserved or not, stay the same |
| Properties.UnreserveKeepsUnitsInStock | src/beanbags/Store.java:611-628 | with distinct stock ids, cancelling moves the reserved bags back to stock, so the bags in stock stay the same; sales are untouched |
| Properties.UnreserveRestocksEveryMatch | src/beanbags/Store.java:613-620 | cancelling adds the reserved bags to every stock record with the reservation's id |
| Properties.ReserveAppends | src/beanbags/Store.java:568-596 | a successful reservation appends one record with the stock price and the token, takes num bags off the first stock record with the id, leaves sales alone and keeps distinct stock ids distinct |
| Properties.ReserveThenUnreserveRestores | src/beanbags/Store.java:568-628 | with distinct stock ids, a reservation under a fresh token that is then cancelled leaves the store exactly as it was |
| Properties.SellReservedMovesUnits | src/beanbags/Store.java:643-685 | completing a reservation moves its bags to the sold list, adding quantity times the adjusted price to the takings; the adjusted price lies between 0 and the reserved price; stock is untouched |
| Properties.ReserveThenSellReserved | src/beanbags/Store.java:568-685 | with distinct stock ids, a reservation sold at once is booked at the stock price, and the reservations return to what they were |
| Properties.FreshTokenExists | src/beanbags/Store.java:138-157 | while fewer than 899999999 reservations are live, some token in range is free, so the generator's retry can succeed |
| Properties.ReplaceRenames | src/beanbags/Store.java:305-326 | for a new id different from the old one, after a replace no live record carries the old id, units in stock and reserved are unchanged, and the sold list is not rewritten |
| Properties.ReplaceCanDuplicateIds | src/beanbags/Store.java:984-992 | replacing an id with one already in stock succeeds and leaves two stock records with the same id |
| Properties.SoldQueriesDisagree | src/beanbags/Store.java:829-893 | for a legal id never sold while something was, the unit count reports it unknown but the takings are 0 |
| Properties.EmptyStoreIgnoresUnknownIds | src/beanbags/Store.java:107-129 | on an empty store, setting a price, selling, cancelling, completing, replacing and counting a legal unknown id succeed without change, but reserving it and asking for its takings fail |
| Properties.DistinctIdsCount | src/beanbags/Store.java:795-797 | with distinct ids, the number of stock records equals the number of different ids |

## Left out

- Saving and loading (`saveStoreContents`, `loadStoreContents`, `saveStoreList`, `readStoreList`) are Java object serialisation over files. Loading first empties the store, as `Stores.Store.Empty` does, and then appends the stock, reservation and sold blocks in that order; that file format is not modelled.
- Stores.Store.GenerateReservationNumber: `Math.random` becomes the parameter `draws`, each element one value of `(int)(Math.random() * 899999999)`. The method requires one draw to be free, which the source's endless retry loop does not need. `Properties.FreshTokenExists` shows a free value exists while fewer than 899999999 reservations are live.
- Stores.Store.ReserveBeanBags: takes the same `draws` parameter and carries the same requirement.
- 32-bit overflow is not modelled: quantities, their sums and quantity times price are unbounded integers. The `short` year and the `byte` month are plain integers; only the 1-12 month check is modelled.
- Java compares ids, manufacturers, names and free text with `==`, which compares references; the model compares string values.
- `ObjectArrayList`, the `BeanBagStore` interface and the exception classes are not part of this model. Lists are sequences, each exception class is an `Error` case, and the messages are dropped.
- `beanBagIDNotRecognisedException` and `beanBagReservationNumberNotRecognisedException` are inlined into the loops as the check at the last index.
- Null arguments are not modelled. Ids, manufacturers and names are always strings; fields that a constructor leaves null are `None`.
- The store's lists hold `Record` values rather than references to `BeanBag` objects. No record is ever shared between lists, so a setter call on a listed object is modelled as a sequence update. The `BeanBag` class models the object and its setters on their own.
