# Retail search tools over an Orama index — a Dafny model

The repository answers questions about a retail sales data set: a chat model calls tools,
and the tools query an Orama full-text index of invoice lines. This project models the
logic the repository adds on top of the search engine:

- **`Oramaclient`** (`src/lib/Orama.ts`). It keeps one account's index. `initialize`
  restores the stored index or creates and saves a new one. `searchProducts` builds a query
  string from optional parameters, asks the engine for up to 500 hits and narrows them
  through seven filters. The `getProductsBy*` wrappers call `searchProducts` with one
  parameter set. `getTopSellingProducts` groups a 200-hit scan by product and ranks the
  groups. `getProductStatistics` folds a 10000-hit scan into counts, sums and extremes.
- **`ToolExecutor`** (`src/lib/ai-tools.ts`). It keeps an `isInitialized` flag, dispatches
  six tool names to handlers, maps each tool's parameters to the adapter's, and projects
  hits into table rows. Every error becomes an error envelope instead of an exception.
- **`getToolExecutor`** (`src/lib/tool-executor-singleton.ts`). It creates one executor
  lazily. The instance is stored before its `initialize`, so it stays stored when that
  initialisation fails.

The engine's `search` is a function value `Engine = (Index, Query) -> SearchResults`. The
embedding provider is `Embedder`, and `new Date(...)` is a `DateParser`. All three are
parameters of the classes, so they can be any functions. The account table is an
`AccountStore` holding a map.

Prices are integers (cents), and revenue is the product `price * quantity` on them.
JavaScript semantics used by the source are written out:

- truthiness of optional strings and numbers;
- `trim` with the full ECMAScript white-space and line-terminator set;
- `toLowerCase` and `includes`;
- string `<` as lexicographic order on characters;
- `slice(0, n)`, including negative `n`;
- the insertion order of `Set` and `Map`.

Files:

- `wrappers.dfy`: Option, Result and Outcome.
- `js_strings.dfy`: the string operations.
- `seqs.dfy`: filter, slice, distinct values, map and a fold.
- `retail.dfy`: documents, hits, queries and the engine's signature.
- `search_products.dfy`: the query term and the filters.
- `top_selling.dfy`: grouping, sort and cut.
- `statistics.dfy`: the statistics fold.
- `orama_client.dfy`: the `Oramaclient` class.
- `ai_tools.dfy`: tool routing, answers and the `ToolExecutor` class.
- `tool_executor_singleton.dfy`: the lazy instance.

Behaviour of the code as written that the model keeps:

- An empty invoice date in the middle of a statistics scan resets the running minimum
  date. `''` is falsy, so the next date replaces it, and an earlier date seen before is
  lost (`StatisticsScenarios.EmptyDateResetsMinimum`).
- The grouping key is the string `stockCode + "-" + description`, so two different pairs
  can share a group (`TopSelling.KeyCollision`).
- `totalProducts` is the engine's `count`, not the number of scanned hits.

## Model

| member | source | states |
|---|---|---|
| ProductSearch.QueryText | src/lib/Orama.ts:111 | the query text is never empty; it is `*` when the built text is all white space (or when it trims to `*` itself), and its trimmed form otherwise |
| ProductSearch.BuildSearchTerm | src/lib/Orama.ts:91-111 | the successive `+=` build `term` (or `''`) followed by `" " + x` for each truthy field in the order description, stockCode, country, invoice, customerId, then trim or `*` |
| ProductSearch.NoTextMeansWildcard | src/lib/Orama.ts:91-111 | with no truthy text parameter the engine is asked for `*` |
| ProductSearch.SingleFieldIsQuery | src/lib/Orama.ts:100-111 | a single country without surrounding white space is sent as the whole query |
| OramaAdapter.ProductQuery | src/lib/Orama.ts:110-113 | `searchProducts` sends a full-text query with a non-empty term and limit 500 |
| ProductSearch.KeptIsFilter | src/lib/Orama.ts:116-166 | keeping the matching hits is `filter` with the conjunction of all filters |
| ProductSearch.FilterStage | src/lib/Orama.ts:118-166 | each supplied filter is one `filter` pass over the previous stage's hits |
| ProductSearch.SkipStage | src/lib/Orama.ts:118-166 | a filter whose parameter is absent leaves the hits unchanged |
| ProductSearch.AllStagesAreKept | src/lib/Orama.ts:116-166 | the seven stages in source order keep exactly the hits matching every filter |
| ProductSearch.ApplyFilters | src/lib/Orama.ts:116-166 | the sequence of guarded reassignments of `filteredHits` yields exactly the matching hits, in order |
| ProductSearch.KeptIsSubsequence | src/lib/Orama.ts:116-172 | the kept hits are an order-preserving subsequence of the engine's hits |
| ProductSearch.KeptExactly | src/lib/Orama.ts:118-166 | a hit is kept, with every copy, iff it matches every supplied filter; a non-matching hit never is |
| ProductSearch.UnconstrainedKeepsAll | src/lib/Orama.ts:116-166 | with no filter parameter the hits come back unchanged |
| ProductSearch.ZeroBoundIgnored | src/lib/Orama.ts:118-132 | a bound of `0` constrains nothing, like an undefined bound |
| ProductSearch.BoundsInclusive | src/lib/Orama.ts:118-132 | non-zero bounds are inclusive: `min <= v <= max` |
| OramaAdapter.ProductsFoundAreMatches | src/lib/Orama.ts:116-172 | `searchProducts`' hits are an ordered subsequence of the engine's, counted, and a hit is among them iff it is an engine hit that matches |
| OramaAdapter.Oramaclient.SearchProducts | src/lib/Orama.ts:89-173 | on an initialised client the result is the narrowed engine result, its count is its length and every hit matches; otherwise the engine's error |
| OramaAdapter.Oramaclient.GetProductsByCountry | src/lib/Orama.ts:176-178 | `searchProducts({country})`; every hit's country contains the parameter, ignoring case |
| OramaAdapter.Oramaclient.GetProductsByPriceRange | src/lib/Orama.ts:180-182 | `searchProducts({priceRange: {min, max}})`; every hit's price is within the range |
| OramaAdapter.Oramaclient.GetProductsByDateRange | src/lib/Orama.ts:184-186 | `searchProducts({dateRange: {start, end}})`; every hit's parsed date is within the parsed range |
| OramaAdapter.Oramaclient.GetProductsByInvoice | src/lib/Orama.ts:221-223 | `searchProducts({invoice})`; every hit's invoice contains the parameter, ignoring case |
| OramaAdapter.Oramaclient.GetProductsByCustomer | src/lib/Orama.ts:225-227 | `searchProducts({customerId})`; every hit's customer contains the parameter, ignoring case |
| OramaAdapter.Oramaclient.GetProductsByStockCode | src/lib/Orama.ts:229-231 | `searchProducts({stockCode})`; every hit's stock code contains the parameter, ignoring case |
| JsStrings.Trim | src/lib/Orama.ts:111 | the trimmed text starts and ends with non-white space, and is empty iff the text is all white space |
| JsStrings.ToLowerAscii | src/lib/Orama.ts:146 | `toLowerCase` moves `A`..`Z` onto `a`..`z`, fixes every other ASCII character and leaves no ASCII upper-case letter |
| JsStrings.TrimIsFramed | src/lib/Orama.ts:111 | the trimmed text is the text with a white-space prefix and suffix removed |
| JsStrings.ToLowerIdempotent | src/lib/Orama.ts:146 | lower-casing twice is lower-casing once |
| JsStrings.Contains | src/lib/Orama.ts:146 | `includes` holds iff the needle occurs at some position |
| TopSelling.FirstWithKeyIsFirst | src/lib/Orama.ts:203-212 | the document that opens a group is that of the first hit with the key: it has the key and no earlier hit does, so the group's price and country are the first sale's |
| TopSelling.AddToExisting | src/lib/Orama.ts:199-202 | a hit with a known key adds its quantity, one occurrence and its revenue to that group only |
| TopSelling.StartGroup | src/lib/Orama.ts:203-212 | a hit with a new key starts a group from its own fields and appends the key to the map's order |
| TopSelling.GroupByProduct | src/lib/Orama.ts:195-216 | the `Map` built by the loop lists, in first-occurrence order, for each key the summed quantity, count and revenue of its hits and the price and country of its first hit |
| TopSelling.SortByQuantity | src/lib/Orama.ts:217 | the sort is a permutation ordered by non-increasing total quantity |
| TopSelling.SortIsStable | src/lib/Orama.ts:217 | the sort is stable: for every total quantity, the groups with that quantity appear in the same order before and after sorting, so ties at the cut go to the product seen first |
| TopSelling.InsertKeepsOrder | src/lib/Orama.ts:217 | inserting a group into a sorted list keeps it sorted |
| TopSelling.TopSellingProducts | src/lib/Orama.ts:216-218 | the result is the sorted groups cut by `slice(0, limit)`: at most `limit` groups when `limit` is not negative, ordered by non-increasing quantity, drawn from the groups |
| Seqs.SliceToPrefix | src/lib/Orama.ts:218 | `slice(0, end)` keeps a prefix: `end` elements when `0 <= end <= length`, everything beyond that, everything but the last `-end` for a negative `end`, and nothing once `end <= -length` |
| TopSelling.KeyOrderComplete | src/lib/Orama.ts:196-199 | a key has a group iff some hit has that key |
| TopSelling.GroupsCarryTheirKeys | src/lib/Orama.ts:198-206 | the i-th group's stock code and description rebuild the i-th key |
| TopSelling.KeyCollision | src/lib/Orama.ts:198 | two different (stockCode, description) pairs can give the same key |
| OramaAdapter.Oramaclient.GetTopSellingProducts | src/lib/Orama.ts:188-219 | with the default limit 10, the sorted groups of a 200-hit scan cut to the limit, ordered and drawn from the groups |
| Statistics.MinPrice | src/lib/Orama.ts:271 | the lowest price is at most every price and is some hit's price |
| Statistics.MaxPrice | src/lib/Orama.ts:272 | the highest price is at least every price and is some hit's price |
| Statistics.Widen | src/lib/Orama.ts:271-272 | after `Math.min`/`Math.max` the range contains the new price |
| Statistics.EarlierOf | src/lib/Orama.ts:274-276 | the running minimum becomes the date or stays; it stays when set and not larger |
| Statistics.LaterOf | src/lib/Orama.ts:277-279 | the running maximum becomes the date or stays; it stays when set and not smaller |
| Statistics.Gather | src/lib/Orama.ts:253-280 | the `forEach` loop yields every hit absorbed in scan order; after each hit its running fields are the fold of the hits seen so far |
| Statistics.ScanIsSummary | src/lib/Orama.ts:253-287 | the fold equals the field-by-field statistics |
| Statistics.ScanCount | src/lib/Orama.ts:254 | `totalProducts` is the engine's count, whatever the hits |
| Statistics.ScanCountries | src/lib/Orama.ts:264-283 | the countries set, listed, is the distinct countries in order of first appearance |
| Statistics.ScanCustomers | src/lib/Orama.ts:264-284 | the same for customers |
| Statistics.ScanStockCodes | src/lib/Orama.ts:264-285 | the same for stock codes |
| Statistics.ScanSums | src/lib/Orama.ts:268-269 | revenue is the sum of price times quantity and quantity the sum of quantities |
| Statistics.ScanPrices | src/lib/Orama.ts:260-272 | the price range is absent without hits and is the lowest and highest price otherwise |
| Statistics.ScanDates | src/lib/Orama.ts:261-279 | the date range is the running minimum and maximum as the loop updates them |
| Statistics.ComputeStatistics | src/lib/Orama.ts:246-288 | the statistics of a scan are the engine's count, the distinct countries, customers and stock codes, the sums, the price extremes and the date extremes |
| Statistics.UniqueListsExact | src/lib/Orama.ts:264-283 | the unique countries hold each observed country exactly once and nothing else |
| Statistics.PriceRangeOrdered | src/lib/Orama.ts:271-272 | whenever there is a hit, `min <= max` and every price lies between them |
| Statistics.LatestDateIsMaximum | src/lib/Orama.ts:277-279 | no date is later than the latest date, which is some date unless all are empty |
| Statistics.EarliestDateIsMinimum | src/lib/Orama.ts:274-276 | when no date is empty, no date is earlier than the earliest date, which is one of them |
| StatisticsScenarios.TwoCountries | src/lib/Orama.ts:264-283 | countries UK, UK, France give the unique list UK, France |
| StatisticsScenarios.EmptyDateResetsMinimum | src/lib/Orama.ts:274-276 | an empty date between two dates discards the earlier one from the minimum |
| JsStrings.StrLessTransitive | src/lib/Orama.ts:274-279 | string `<` is transitive |
| JsStrings.StrLessTotal | src/lib/Orama.ts:274-279 | of two different strings one is smaller |
| JsStrings.StrLessAsymmetric | src/lib/Orama.ts:274-279 | string `<` is asymmetric |
| OramaAdapter.Oramaclient.GetProductStatistics | src/lib/Orama.ts:246-288 | on an initialised client, the statistics of a 10000-hit scan |
| OramaAdapter.AccountStore.Update | src/lib/Orama.ts:28-35 | an existing row gets the new index; updating a missing row fails and changes nothing |
| OramaAdapter.Oramaclient.SaveIndex | src/lib/Orama.ts:26-36 | the persisted index is written to the account's row |
| OramaAdapter.Oramaclient.Initialize | src/lib/Orama.ts:37-64 | a missing account fails with "Account not found" and changes nothing; a stored index is restored; otherwise a new index with the retail schema is created and saved |
| OramaAdapter.Oramaclient.constructor | src/lib/Orama.ts:23-25 | a new client serves the given account and has no index yet |
| OramaAdapter.Oramaclient.Insert | src/lib/Orama.ts:85-88 | the document is appended to the index, which is then saved |
| OramaAdapter.Oramaclient.Search | src/lib/Orama.ts:82-84 | the engine's answer to the bare term |
| OramaAdapter.Oramaclient.VectorSearch | src/lib/Orama.ts:65-81 | no embedding fails with "Failed to get embeddings"; otherwise a hybrid query on `embeddings` with similarity 0.8 and limit 10 |
| Retail.RestorePersist | src/lib/Orama.ts:26-47 | restoring a persisted index gives the index back |
| AiTools.ToolFor | src/lib/ai-tools.ts:186-206 | a recognised name maps to the tool of that name |
| AiTools.ToolNamesRoute | src/lib/ai-tools.ts:186-203 | each of the six names routes to its own tool |
| AiTools.GateIsHarmless | src/lib/ai-tools.ts:222-240 | the mapped search parameters, with their `(lo \|\| hi) ? … : undefined` gates on the price, date and quantity ranges, keep exactly the hits that the raw bounds keep |
| AiTools.KeptCongruent | src/lib/Orama.ts:116-166 | parameters that match the same hits keep the same hits |
| AiTools.TopLimit | src/lib/ai-tools.ts:318 | `params.limit \|\| 10`: never 0, and 10 when absent |
| AiTools.SearchAnswer | src/lib/ai-tools.ts:256-268 | the id, the adapter's count, and one row per hit: the i-th row is built from the i-th hit's document and score, and the same rows are shown as a table |
| AiTools.CountryAnswer | src/lib/ai-tools.ts:283-291 | the id, the country parameter, and the i-th row built from the i-th hit, for every hit, shown as a table |
| AiTools.PriceAnswer | src/lib/ai-tools.ts:306-314 | the id, both price parameters, and the i-th row built from the i-th hit, for every hit, shown as a table |
| AiTools.TopFoundRanked | src/lib/ai-tools.ts:317-329 | the tool answers with at most `params.limit \|\| 10` groups when that limit is positive, ordered by non-increasing total quantity and drawn without repetition from the groups of the 200-hit scan |
| AiTools.DateAnswer | src/lib/ai-tools.ts:345-353 | the id, both date parameters, and the i-th row built from the i-th hit, for every hit, shown as a table |
| AiTools.VectorAnswer | src/lib/ai-tools.ts:369-377 | the id, the query, and the i-th row built from the i-th hit and its score, for every hit, shown as a table |
| AiTools.Handle | src/lib/ai-tools.ts:186-203 | a handler's result carries the call id and that tool's payload |
| AiTools.Answer | src/lib/ai-tools.ts:186-206 | a result carries the call id and the payload of the named tool; an unknown name throws `Unknown tool: <name>` |
| AiTools.ResponseAnswersCall | src/lib/ai-tools.ts:179-220 | every response carries the call id and is either the named tool's payload or an error envelope naming the tool |
| AiTools.UnknownToolEnvelope | src/lib/ai-tools.ts:205-218 | an unknown name is answered with the envelope of `Unknown tool: <name>` |
| AiTools.SearchCountIsFilteredCount | src/lib/ai-tools.ts:242-266 | the `search_products` count is the adapter's filtered count and equals the number of rows |
| AiTools.ToolExecutor.constructor | src/lib/ai-tools.ts:151-154 | a new executor has a fresh client for `main-retail-index` and a clear flag |
| AiTools.ToolExecutor.Initialize | src/lib/ai-tools.ts:156-170 | with the flag clear, the adapter is initialised once: a missing account leaves the flag clear, the index and the account table unchanged and gives "Account not found"; a stored index is restored; otherwise a new retail index is created and written to the account row; success sets the flag; once initialised nothing changes |
| AiTools.ToolExecutor.EnsureInitialized | src/lib/ai-tools.ts:173-177 | the same outcome as `initialize`, which runs only while the flag is clear |
| AiTools.ToolExecutor.Destroy | src/lib/ai-tools.ts:380-382 | the flag is cleared, so the next call initialises again |
| AiTools.ToolExecutor.ExecuteTool | src/lib/ai-tools.ts:179-220 | never throws: the result carries the call id; with the flag clear the adapter is initialised once, leaving the index and account table as `initialize` does (restored, created and saved, or unchanged); a failed start gives the envelope of "Account not found"; otherwise the routed tool's response on that index |
| AiTools.ToolExecutor.RunTool | src/lib/ai-tools.ts:186-207 | the `switch` runs the handler of the named tool or throws for an unknown name |
| AiTools.ToolExecutor.HandleSearchProducts | src/lib/ai-tools.ts:222-269 | the search answer for the mapped parameters |
| AiTools.ToolExecutor.HandleProductsByCountry | src/lib/ai-tools.ts:271-292 | the country answer for `getProductsByCountry(params.country)` |
| AiTools.ToolExecutor.HandlePriceRangeProducts | src/lib/ai-tools.ts:294-315 | the price answer for `getProductsByPriceRange(minPrice, maxPrice)` |
| AiTools.ToolExecutor.HandleTopSellingProducts | src/lib/ai-tools.ts:317-330 | the top-selling answer for `params.limit \|\| 10` |
| AiTools.ToolExecutor.HandleProductsByDateRange | src/lib/ai-tools.ts:332-354 | the date answer for `getProductsByDateRange(startDate, endDate)` |
| AiTools.ToolExecutor.HandleVectorSearch | src/lib/ai-tools.ts:356-378 | no embedding throws "Failed to get embeddings"; otherwise the answer for the hybrid search |
| ToolExecutorSingleton.ExecutorRegistry.GetToolExecutor | src/lib/tool-executor-singleton.ts:6-12 | the first call constructs one executor, stores it and initialises it once, leaving its index and the account table as `initialize` does; later calls return the same instance and change nothing; a non-null executor is always stored |
| ToolExecutorSingleton.ExecutorRegistry.constructor | src/lib/tool-executor-singleton.ts:4 | no instance is stored at first |
| ToolExecutorSingleton.ExecutorRegistry.FailedStartIsKept | src/lib/tool-executor-singleton.ts:8-11 | after a failed first start the stored instance is returned as is, still uninitialised, without a second `initialize` |
| Seqs.FilterIsSubsequence | src/lib/Orama.ts:119 | `filter` keeps an ordered subsequence |
| Seqs.Distinct | src/lib/Orama.ts:283-285 | `Array.from(new Set(xs))` has no duplicates and the same members as `xs` |
| Seqs.MapSeq | src/lib/ai-tools.ts:245-254 | `map` gives one image per element, the i-th image from the i-th element |
| Seqs.DistinctFirstOccurrence | src/lib/Orama.ts:264-285 | the listed `Set` keeps the order of first appearance: a value first seen at `j` comes right after the distinct values seen before `j`, so every value seen earlier is listed before it |
| Seqs.DistinctSnoc | src/lib/Orama.ts:265-267 | adding values one by one to an insertion-ordered set builds the distinct values |
| JsStrings.NatToStringRoundTrip | src/lib/ai-tools.ts:266 | the decimal rendering of a count reads back as that count |

## Left out

- Engine internals: ranking, tokenisation, the meaning of `*` and the hybrid search with
  its scores are inside the `Engine` parameter. `create` is fixed as an empty index with
  the retail schema.
- The engine cannot fail in this model: `Engine` returns `SearchResults` and has no error
  channel. So a throwing `search` or `insert`, which `executeTool`'s `catch` would turn
  into an envelope, does not arise. The one engine error that is modelled is a call on an
  index that was never created, with the fixed message `index not initialised`, which is
  not the engine's text.
- `persist`/`restore` are modelled as the identity on the index, so their round trip holds
  by construction. It is not a claim about the real plugin's JSON encoding.
- Embeddings (`src/lib/embedding.ts`) are the `Embedder` parameter. `getEmbeddings` catches
  its own network errors and returns `null`, so every failure of it is the `Embedder`'s
  `None`.
- The Prisma database is a map from account id to an optional stored index. Its
  `findUnique` and `update` are read and write on that map. `update` of a missing row
  fails with a fixed message.
- Floating point: prices are integer cents and revenue is the exact product. IEEE rounding,
  `NaN` and the `Infinity`/`-Infinity` initial price range are not modelled; the latter is
  an `Option` that is `None` exactly when there is no hit.
- Date parsing (`new Date`) is the `DateParser` parameter. An invalid date is `None`, and
  every comparison with it is false.
- JsStrings.StrLess: compares characters as Dafny characters (code points), while
  JavaScript compares UTF-16 code units. The two orders differ only for characters outside
  the Basic Multilingual Plane.
- JsStrings.ToLower: covers ASCII and Latin-1 letters only, not the full Unicode
  case-mapping tables.
- `getRecentSales` (src/lib/Orama.ts:233-244) reads the clock and is left out.
- `console.log`/`console.error` output, the chat route, the UI, the seed and playground
  scripts are not part of this model.
- ToolExecutorSingleton.ExecutorRegistry.GetToolExecutor: models sequential calls only. The
  race between two concurrent first calls is not modelled. A failed first initialisation
  is modelled as ending the call with its error, after the instance has been stored.
- The `any`-typed tool parameters are modelled as optional strings and numbers of the types
  each tool declares; values of other JavaScript types are not modelled.
