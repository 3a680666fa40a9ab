# Inventory search service — verified model of the in-memory core

The service has three read-only HTTP endpoints over a container of
inventory documents. Each document holds one supplier's invoice: its id,
the owning user, the supplier name, a timestamp, a batch number, and a list
of line items.

- `search_inventory` (`GET inventory/{user_id}/search?q=`) and `get_inventory`
  (`GET inventory/{user_id}?q=`) fetch the user's documents. When a search term
  is given they keep only the items that match it. A document is kept when at
  least one of its items matches. Each endpoint then reports how many documents
  and items it found.
- `get_inventory_stats` (`GET inventory/{user_id}/stats`) aggregates all of the
  user's documents. It reports the item count, a tally per category, the set of
  supplier names and the summed case price.

This Dafny project models what the handlers do in memory once the store has
answered. That covers five pieces:

- the validation of `user_id`;
- the stripping of `q`;
- the case-insensitive item matcher;
- the two filter-and-project loops;
- the statistics loop.

The project proves what these promise.

Modules, one file each:

- `Wrappers` (`wrappers.dfy`): `Option`, and `GetOr` for Python's `dict.get(key, default)`.
- `Text` (`text.dfy`): ASCII `Upper`, and `Strip` with Python's whitespace set. It also defines substring containment (`Contains`, Python's `in` on strings) and relates it to "occurs at some index".
- `Inventory` (`inventory.dfy`): the `Item` and `Document` records. A missing key is `None`. `Case Price` is `NoPrice`, a numeric value, or something that is not a number.
- `Seqs` (`seqs.dfy`): a generic "map each element to zero or one results and concatenate" (`FilterMap`), and the positions it keeps.
- `Matching` (`matching.dfy`): the item matcher, and the loop that collects a document's matching items.
- `Projection` (`projection.dfy`): the per-document projection and the results loops of both listing endpoints.
- `Stats` (`stats.dfy`): the statistics loop and its specification functions.
- `Handlers` (`handlers.dfy`): the three handlers. The document container is a `DocumentStore` class whose `issued` field records every query it has received, so the 400 path can be shown to issue none.

Each loop of the source is a `method` with a `for` loop. It is proved against
a specification function: `MatchingItems`, `SearchResults`, `InventoryResults`,
`CategoryCounts`, `SupplierSet` or `InventoryValue`. Lemmas about those
functions state what the endpoints promise.

## Model

| member | source | states |
|---|---|---|
| Text.Upper | function_app.py:88 | `.upper()` keeps the length, turns each lower-case ASCII letter into its upper-case partner, leaves every other character alone, and leaves no lower-case ASCII letter |
| Text.Strip | function_app.py:36 | `.strip()` never lengthens the string, and its result is empty or neither starts nor ends with Python whitespace |
| Text.StripSpec | function_app.py:36 | the stripped term is the contiguous slice left after removing a whitespace prefix and a whitespace suffix, and it neither starts nor ends with whitespace |
| Text.StripEmptyIff | function_app.py:164 | the stripped term is empty exactly when `q` consists only of whitespace |
| Text.Contains | function_app.py:91 | Python's `in` on strings: the empty string is in every string, and only the empty string is in the empty string |
| Text.ContainsIff | function_app.py:91 | `needle in hay` holds exactly when `needle` occurs in `hay` at some index |
| Text.ContainsShorter | function_app.py:222 | a string contained in another is no longer than it |
| Inventory.AllItemsLength | function_app.py:320-323 | flattening the documents' item lists yields exactly the number of items the stats loop counts |
| Matching.Matches | function_app.py:91-98 | the eight-way test: an empty term matches every item, and a term found in the upper-cased document `supplier_name` matches every item of that document |
| Matching.MatchesIff | function_app.py:222-229 | an item matches exactly when the term occurs, at some index, in one of its seven text fields or its document's supplier name, each upper-cased and read as "" when absent |
| Matching.MatchingItemsPositions | function_app.py:90-99 | the kept items are exactly the items that satisfy the eight-field matcher, in their original order; an item is kept iff it matches |
| Matching.MatchingItemsSound | function_app.py:217-231 | every kept item matches, and the result is empty exactly when no item of the document matches |
| Matching.SupplierMatchKeepsAll | function_app.py:98 | when the term occurs in the upper-cased document supplier name, every item of the document matches |
| Matching.CollectMatches | function_app.py:87-99 | the loop collecting a document's matching items returns exactly the specified filtered list |
| Matching.CaseInsensitiveExample | function_app.py:88-92 | an item named "Chicken Breast" matches the terms "chicken", "CHICKEN" and "Chicken" alike |
| Projection.SearchEntryShape | function_app.py:101-127 | a document's metadata is carried over; without a term it is reported whole with its item count; with a term it is reported iff some item matches, with only the matching items, the original item count and 1 <= matched count <= original count |
| Projection.FilterSearch | function_app.py:81-127 | the `search_inventory` loop yields exactly the specified results, and its running total equals the sum of the reported item lists |
| Projection.FilterInventory | function_app.py:211-258 | the `get_inventory` loop yields exactly the specified results, and its running total equals the sum of the reported item lists |
| Projection.SearchWithoutTerm | function_app.py:115-127 | without a term every fetched document is reported, in order, with all its items |
| Projection.SearchWithTerm | function_app.py:84-114 | with a term, the reported documents are exactly the fetched documents with at least one matching item, in their original order, each holding exactly its matching items |
| Projection.SupplierMatchReportsAll | function_app.py:98-110 | a nonempty document whose supplier name contains the term is reported with all its items |
| Projection.EntriesAgree | function_app.py:232-258 | for one document, both listing endpoints keep or drop it alike and report the same items and counts |
| Projection.EndpointsAgree | function_app.py:214-258 | both listing endpoints select the same documents in the same order, with the same items and counts, and report the same total |
| Projection.SearchItemsFoundBound | function_app.py:114-127 | the reported item total never exceeds the number of fetched items, and equals it when there is no term |
| Projection.RiceExample | function_app.py:84-114 | searching "rice" in a document holding "White Rice" and "Beans" reports that document with the rice item only, 2 original items and 1 match |
| Stats.CategoryOf | function_app.py:324 | an item is counted under its `Category` when present; it is counted under "Unknown" exactly when the Category is absent or is "Unknown" itself |
| Stats.CategoryCountsAt | function_app.py:324-328 | a category is tallied iff some item has it, and its tally is the number of items with that category |
| Stats.CategoryCountsTotal | function_app.py:323-328 | the category tallies sum to the number of items |
| Stats.CategoryCountsSize | function_app.py:338 | there are never more categories than items |
| Stats.MissingCategoryIsUnknown | function_app.py:324 | an item without a Category is tallied under "Unknown" |
| Stats.SupplierSetMembers | function_app.py:321 | a supplier name (or its absence) is in the supplier set iff some document carries it |
| Stats.SupplierSetSize | function_app.py:339 | there are never more suppliers than documents |
| Stats.StatsConsistent | function_app.py:336-339 | the tallies sum to the item total, and the category and supplier counts are bounded by the item and document counts |
| Stats.PriceOf | function_app.py:330-331 | an item adds its Case Price when that is numeric, and 0 when it is absent (the default 0) or not a number |
| Stats.CasePriceExample | function_app.py:330-332 | appending an item with an absent or non-numeric Case Price leaves the inventory value unchanged, and one with a numeric Case Price adds exactly that amount |
| Stats.TallyItems | function_app.py:322-332 | the inner loop over one document's items adds its item count, the category tally and the value of those items to the running totals |
| Stats.AggregateStats | function_app.py:315-332 | the statistics loop yields the item count, the category tally, the supplier set and the summed case price of all fetched documents |
| Handlers.DocumentStore.QueryItems | function_app.py:74-78 | a store query is recorded and returns the store's documents for it |
| Handlers.UserIdMissing | function_app.py:39 | `not user_id` holds exactly when the route parameter is absent or the empty string |
| Handlers.SearchTermOf | function_app.py:164 | an absent `q` gives the empty term; the term is never longer than `q` and neither starts nor ends with whitespace |
| Handlers.ListingQuery | function_app.py:47-71 | the query is for the given user; it is the plain newest-first listing exactly when there is no term, and otherwise carries the term and whether its filter tests the two unit fields |
| Handlers.BlankQueryIsNoTerm | function_app.py:36 | an all-whitespace `q` is treated exactly like an absent `q` |
| Handlers.SearchInventory | function_app.py:33-135 | a missing or empty user_id yields status 400 with the fixed message and issues no query; otherwise status 200, exactly one query is issued (with a term, a coarse filter that leaves out the two unit fields) and the 200 body holds the user, the term or "all", the document count, the item total and the results |
| Handlers.GetInventory | function_app.py:162-269 | a missing or empty user_id yields status 400 with the fixed message and issues no query; otherwise status 200, exactly one query is issued (with a term, a coarse filter that includes the two unit fields) and the 200 body holds the user, the term or "all inventory", the results summary and the results |
| Handlers.GetInventoryStats | function_app.py:294-343 | a missing or empty user_id yields status 400 with the fixed message and issues no query; otherwise status 200, one unordered query for the user's documents is issued and the 200 body holds the document, item, category and supplier counts, the value, the tally and the suppliers |
| Handlers.ListingTotalsAgree | function_app.py:129-134 | over the same documents both listing endpoints report the same counts, and their item total is at most (and without a term equal to) the statistics item total |

## Left out

- The Cosmos DB client, its connection settings and the SQL text are not modelled. The store is a `DocumentStore` whose `answer` function gives the documents for each query.
- The store-side coarse filter is not modelled beyond which endpoint sent it. Its result is taken as given, so no claim is made that it admits every document the in-memory matcher would keep. As written, the `search_inventory` query does not test `Measured In` or `Inventory Unit of Measure`, while `get_inventory` does, so the two queries are different `StoreQuery` values and the store may answer them differently. The in-memory matcher then tests the same eight strings in both.
- Ordering by timestamp is the store's job; the model keeps the fetched order and proves that the loops preserve it.
- Stats.AggregateStats: `total_inventory_value` is an exact sum of reals. Floating-point accumulation and `round(total_value, 2)` are not modelled.
- Stats.PriceOf: a Python `bool` Case Price counts as numeric in the source (`isinstance(True, int)`). The model only distinguishes numeric, non-numeric and absent prices, so that case falls under numeric.
- Stats.CategoryCounts: the `categories` dict keeps its keys in first-appearance order, and the JSON object follows that order. A `map` has no order, so the model does not capture it.
- Handlers.GetInventoryStats: `list(suppliers)` is modelled as a set, because the order of the list is unspecified in the source.
- Text.Upper: only ASCII letters are upper-cased. Python's full Unicode case mapping, which can change a string's length, is not modelled.
- Stats.CategoryOf: a `Category` that is present but null, or not a string, cannot be represented. The source tallies it under that value itself (a `None` key, apart from "Unknown", or a number), without raising. The model's item fields are either absent or strings.
- A present-but-null text field reaches `.upper()` on the listing endpoints only when there is a search term, and then the handler answers with the catch-all 500, which is not modelled. Without a term such fields pass through unchanged, which the model cannot represent either. Absent fields use the source's defaults.
- JSON serialisation, `default=str`, the HTTP framework, routing, logging and the 500 handler are not modelled.
- Keys of an item other than the seven it is matched on and `Case Price` are not modelled. The source passes items through unchanged, and the model does the same with its `Item` values.
- The two listing endpoints label the same fields differently: `id`/`userId` in one, `document_id`/`user_id` in the other. The model keeps them as two result types with the same fields.
