# Tool-site data layer and catalogue logic in Dafny

This project models the parts of a small tool-download site that carry logic.

**Back end (Node and SQLite).**
- The single SQL entry point, `database.ts`:
  - a process-wide cache of read results, keyed by statement text plus the JSON of the parameters;
  - a five-minute expiry and an opportunistic sweep once the cache holds more than 100 entries;
  - invalidation by table name before every non-read statement;
  - a begin/commit/rollback transaction wrapper.
- The resource repository, `Resource.ts`:
  - the listing query with defaults, an incrementally built `WHERE` clause, an id-window subquery and a join-free count;
  - tags stored as JSON;
  - the dynamic patch update, the soft delete and the download counter.
- The category repository, `Category.ts`:
  - the listing SQL that grows with `includeCount`;
  - creation defaults;
  - the patch update;
  - the delete that refuses while active resources remain;
  - the name check with an optional excluded id;
  - the sort-order update.

**Front end (React).**
- The catalogue page, `UserPage.tsx`:
  - loading and formatting;
  - the category and search filter;
  - the paging window and "load more";
  - search suggestions;
  - the download-count bump;
  - the icon rule chain.
- The category service, `categoryService.ts`:
  - active filter and sort;
  - renumbering;
  - the case-insensitive name check;
  - select options;
  - the listing URL.
- The edit dialog, `EditToolModal.tsx`:
  - form initialisation;
  - change events;
  - validation;
  - tag normalisation;
  - the submit payload and the rebuilt tool.
- The upload dialog, `UploadModal.tsx`: the single-file list, the duplicate-free tag list, the submit guard and payload, and the reset.

**Modules.**
- `Wrappers`: `Option`/`Result`.
- `Text`: the JavaScript string operations used, namely `trim`, ASCII case mapping, `includes`, `startsWith`/`endsWith`, `split` and `join`.
- `Json`: `JSON.stringify`/`JSON.parse` for scalars and flat arrays of scalars, with proved round trips.
- `Sql`: the meaning of `LIKE`, `LIMIT/OFFSET` and `?` placeholders, plus the shared `UPDATE … SET` builder.
- `Schema`: table rows.
- `Database`, `Resources`, `Categories`, `CategoryService`, `UserPage`, `EditToolModal`, `UploadModal`: one module per source file.

**How state is modelled.**
- The storage engine is a `Handle`, a value giving the answer to every call.
- The executor class records each call it makes on the handle in `issued`, so "served from the cache" reads as "`issued` is unchanged".
- Clocks, HTTP answers and `window.open` are parameters.
- The React components with state are classes whose methods are the event handlers.

## Model

| member | source | states |
|---|---|---|
| Database.CacheKeyInjective | backend/src/config/database.ts:53-55 | for one SQL text, two parameter lists share a cache key iff they bind the same values; an absent list keys like `[]` |
| Database.Swept | backend/src/config/database.ts:58-65 | the sweep keeps only entries of the old cache, unchanged, none of them older than the TTL |
| Database.SweptKeeps | backend/src/config/database.ts:58-65 | an entry survives the sweep iff it was present and its age is at most the TTL |
| Database.SweepInvisibleToReads | backend/src/config/database.ts:58-65 | sweeping never changes whether a read would be served, nor the served value |
| Database.BoundaryEntryLingers | backend/src/config/database.ts:61-77 | an entry aged exactly the TTL is neither served (`<`) nor swept (`>`) |
| Database.Executor.CleanExpiredCache | backend/src/config/database.ts:58-65 | the loop leaves exactly the swept cache |
| Database.Evicted | backend/src/config/database.ts:117-123 | eviction keeps only unchanged old entries whose keys do not contain the table name |
| Database.EvictedExactly | backend/src/config/database.ts:117-123 | a key survives eviction iff it was present and does not contain the name (substring, not token) |
| Database.Executor.ClearCacheByTable | backend/src/config/database.ts:117-123 | the loop leaves exactly the evicted cache; no remaining key contains the name |
| Database.Executor.ClearCache | backend/src/config/database.ts:126-128 | the cache is empty |
| Database.KeywordLength | backend/src/config/database.ts:111-114 | a keyword match at a position has length 0, 4 or 6 and fits in the text |
| Database.MatchAt | backend/src/config/database.ts:111-114 | a match is a non-empty run of word characters |
| Database.LeftmostSpec | backend/src/config/database.ts:111-114 | `Leftmost` is None iff no position matches, otherwise the match at the first matching position |
| Database.ExtractTableName | backend/src/config/database.ts:111-114 | null iff `(FROM\|INTO\|UPDATE)\s+(\w+)` matches nowhere (case-insensitively); otherwise the identifier of the leftmost match |
| Database.UpdateNamesTable | backend/src/config/database.ts:73-114 | `UPDATE t …` is not a read and names table `t` |
| Database.InsertNamesTable | backend/src/config/database.ts:73-114 | `INSERT INTO t …` is not a read and names table `t` |
| Database.SelectIsRead | backend/src/config/database.ts:73 | a statement starting with `SELECT` takes the read path |
| Database.NotRead | backend/src/config/database.ts:73 | a statement starting with another capital letter takes the write path |
| Database.Invalidated | backend/src/config/database.ts:96-100 | the write path only removes cache entries, never adds or changes one |
| Database.InvalidatedMisses | backend/src/config/database.ts:96-100 | after a write naming T, no key containing T is served; every other entry is kept unchanged |
| Database.InvalidatedNothing | backend/src/config/database.ts:97-100 | when no table name is found, nothing is evicted |
| Database.NamedStatementEvicted | backend/src/config/database.ts:117-123 | after eviction of T, a statement whose text contains T is never served from the cache |
| Database.StoredIsServed | backend/src/config/database.ts:84-92 | a freshly stored result is served with timestamp `now` until the TTL passes, even after the sweep |
| Database.Fetched | backend/src/config/database.ts:80-87 | the read result is the engine's rows, or its error |
| Database.Written | backend/src/config/database.ts:101-102 | the write result is the engine's run record, or its error |
| Database.CachedRead | backend/src/config/database.ts:74-87 | a read returns the cached rows iff the entry is younger than the TTL, otherwise what the engine answers |
| Database.AllRowsKept | backend/src/config/database.ts:74-102 | reads and writes keep every cache entry a row list |
| Database.Executor.Query | backend/src/config/database.ts:68-108 | read and fresh: the cached data, no call, no change. Read and missed: one `all` call, with the entry overwritten at `now` (then swept) on success and the cache unchanged on failure. Otherwise: eviction first, then one `run` call, with that result |
| Database.Executor.Read | backend/src/config/database.ts:73-94 | the read path of `query` |
| Database.Executor.Write | backend/src/config/database.ts:95-103 | the write path: eviction happens whatever the engine answers, and nothing is cached |
| Database.ReadKeepsOtherKeys | backend/src/config/database.ts:74-92 | a read leaves every other key exactly as servable as before, with the same entry |
| Database.ReadsCommute | backend/src/config/database.ts:74-92 | of two reads under different keys, the second returns and calls the same whether or not the first went before it |
| Database.Executor.ReadRows | backend/src/config/database.ts:73-94 | a read of rows agrees with `CachedRead`, `AfterRead` and `ReadCalls` |
| Database.Executor.WriteRows | backend/src/config/database.ts:95-103 | a write naming a known table evicts that table and makes one `run` call |
| Database.Executor.Transaction | backend/src/config/database.ts:131-142 | begin, work and commit all succeeding returns the work's result and never rolls back. Any failure issues ROLLBACK after the calls made so far, without COMMIT after a failed callback, and returns the first error, except that a failing ROLLBACK masks it. The cache is untouched |
| Database.RepeatedRead | backend/src/config/database.ts:74-87 | two identical reads within the TTL return the same value and touch the engine once |
| Database.ReadAfterWrite | backend/src/config/database.ts:96-102 | after a write to T, the next read whose key contains T goes to the engine again |
| Json.DecimalValue | backend/src/config/database.ts:54 | the decimal digits of a number read back as that number |
| Json.CharsRoundTrip | backend/src/config/database.ts:54 | a JSON string body, escaped as `JSON.stringify` does, parses back to the same text |
| Json.ScalarRoundTrip | backend/src/config/database.ts:54 | every scalar (null, integer, string) parses back from its JSON |
| Json.ItemsRoundTrip | backend/src/config/database.ts:54 | a non-empty comma-separated list of scalars parses back |
| Json.ParseStringify | backend/src/config/database.ts:54 | `JSON.parse(JSON.stringify(xs)) == xs` for scalar arrays |
| Json.StringifyInjective | backend/src/config/database.ts:54 | two scalar arrays have the same JSON iff they are equal |
| Json.ValueStringify | backend/src/models/Resource.ts:116 | `JSON.parse` of a stringified scalar array, read as a value, is that array |
| Json.AtomRoundTrip | backend/src/models/Resource.ts:116 | `JSON.parse` of a stringified scalar (`null`, a number, a string) is that scalar |
| Json.LeadingZeroUnread | backend/src/models/Resource.ts:116 | a numeral with a leading zero followed by a digit (`01`), signed or not, is not a number |
| Json.BareLeadingZero | backend/src/models/Resource.ts:116 | a text that is such a numeral is a syntax error |
| Json.SignedLeadingZero | backend/src/models/Resource.ts:116 | so is a negative one (`-01`) |
| Json.ListLeadingZero | backend/src/models/Resource.ts:116 | so is an array whose first item is one (`[01]`) |
| Json.LeadingZeroExamples | backend/src/models/Resource.ts:116 | `01`, `-01` and `[01]` are syntax errors |
| Json.TagsRoundTrip | backend/src/models/Resource.ts:116-166 | a tag list stringified and parsed back is the same list, as strings |
| Sql.PlaceholdersAppend | backend/src/models/Resource.ts:66-80 | placeholders of a concatenation add up |
| Sql.LikeContains | backend/src/models/Resource.ts:76-79 | `x LIKE '%q%'` holds iff `x` contains `q` ignoring ASCII case (for `q` free of `%` and `_`) |
| Sql.LikeLeadingPercent | backend/src/models/Resource.ts:76-79 | a leading `%` matches iff the rest matches some suffix |
| Sql.LikePrefix | backend/src/models/Resource.ts:76-79 | `q%` matches iff `q` is a case-insensitive prefix |
| Sql.Window | backend/src/models/Resource.ts:89-94 | `LIMIT ? OFFSET ?` keeps the rows from the clamped offset on, at most `limit` of them (all for a negative limit) |
| Sql.PagesTile | backend/src/models/Resource.ts:65-94 | page k+1 continues exactly where the first k pages end |
| Sql.ReplaceAbsent | backend/src/models/Resource.ts:104 | `replace` of a text that does not occur leaves the string unchanged |
| Sql.KeptEntriesMembers | backend/src/models/Resource.ts:195-205 | the patch keeps exactly the entries other than `id`, `created_at` and undefined values |
| Sql.BuildAssignments | backend/src/models/Resource.ts:191-205 | the loop pushes one `key = ?` and one value per kept entry, in order, with JSON for list fields |
| Sql.UpdateStatement | backend/src/models/Resource.ts:207-210 | none iff nothing is kept; otherwise `UPDATE t SET … WHERE id = ?` with the values and then the id |
| Sql.UpdatePlaceholders | backend/src/models/Resource.ts:207-210 | the UPDATE has exactly one placeholder per bound value |
| Resources.EmptyQueryDefaults | backend/src/models/Resource.ts:55-65 | an empty query means page 1, limit 20, `created_at DESC`, status active, offset 0 |
| Resources.OffsetFollowsPages | backend/src/models/Resource.ts:65 | `(page-1)*limit` makes consecutive pages tile the sorted rows |
| Resources.BuildWhere | backend/src/models/Resource.ts:66-80 | the `+=`/`push` sequence yields the clause and parameters of the condition list |
| Resources.WhereShape | backend/src/models/Resource.ts:66-80 | the status comes first; the category is added only when its id is truthy; search adds `%s%` twice; placeholders equal parameters |
| Resources.WherePlaceholders | backend/src/models/Resource.ts:66-80 | placeholders and parameters stay in lock-step for any condition list |
| Resources.ListPlaceholders | backend/src/models/Resource.ts:83-109 | the list statement binds `params ++ [limit, offset]`, one per placeholder |
| Resources.CountMatchesListing | backend/src/models/Resource.ts:101-110 | the `.replace` changes nothing; the count uses the listing's WHERE and its parameters without limit and offset |
| Resources.MatchesMeaning | backend/src/models/Resource.ts:66-80 | a row matches iff its status is the one asked, its category equals a truthy id, and a truthy search term occurs in its title or description ignoring case (for a search term free of `%` and `_`) |
| Resources.Select | backend/src/models/Resource.ts:89-103 | the selected rows are exactly the matching rows of the table |
| Resources.Insert | backend/src/models/Resource.ts:92-97 | insertion adds one row to the multiset |
| Resources.InsertSorted | backend/src/models/Resource.ts:92-97 | insertion into a sorted list keeps it sorted |
| Resources.SortRows | backend/src/models/Resource.ts:92-97 | `ORDER BY` is a permutation |
| Resources.SortRowsSorted | backend/src/models/Resource.ts:92-97 | `ORDER BY` output is sorted by the column and direction |
| Resources.SortSortedIsIdentity | backend/src/models/Resource.ts:92-97 | re-sorting sorted rows (the outer `ORDER BY`) changes nothing |
| Resources.CompareTextAntisymmetric | backend/src/models/Resource.ts:92-97 | text comparison is antisymmetric |
| Resources.PrecedesTotal | backend/src/models/Resource.ts:92-97 | the order compares every two rows |
| Resources.Decorate | backend/src/models/Resource.ts:114-117 | one row fails iff its non-empty `tags` text does not parse; otherwise it carries that row, its decoded tags (`[]` for NULL or empty text) and the name and icon of its joined category, none without one |
| Resources.DecorateAll | backend/src/models/Resource.ts:114-117 | decoding keeps each row in place; it fails iff some row's non-empty `tags` text does not parse (as a scalar or a flat array of scalars); otherwise each entry carries its row's decoded tags and joined category name and icon |
| Resources.CategoryOf | backend/src/models/Resource.ts:96 | the left join finds the category with the row's id, or none |
| Resources.ListingIsWindow | backend/src/models/Resource.ts:54-127 | the total is the number of matching rows; the page is the window `(limit, (page-1)*limit)` of the sorted matches, and sorted; each entry carries its row's decoded tags and joined category name and icon |
| Resources.ThirdPageOfTwentyFive | backend/src/models/Resource.ts:65-122 | 25 matches, limit 10, page 3: 5 rows and total 25 |
| Resources.FirstActiveWithId | backend/src/models/Resource.ts:139-146 | the first active row with the id, or none iff there is none |
| Resources.GetResourceById | backend/src/models/Resource.ts:130-155 | only an active row with that id is returned, with its decoded tags and joined category name and icon; `null` iff there is none |
| Resources.ActiveSorted | backend/src/models/Resource.ts:257-258 | the rows ordered for the popular read are a permutation of exactly the active rows, sorted by the popular order |
| Resources.PopularCountsFall | backend/src/models/Resource.ts:258 | along rows sorted by the popular order, the download count never rises |
| Resources.TopOfPopular | backend/src/models/Resource.ts:258-259 | a head of rows in the popular order leaves out no row downloaded more often than its last |
| Resources.PopularAreMostDownloaded | backend/src/models/Resource.ts:248-273 | the result is the first `min(limit, #active)` active rows in the popular order; counts never rise down the list; no active row left out has more downloads than the last one listed |
| Resources.CreatedTagsReadBack | backend/src/models/Resource.ts:116-166 | tags written by `createResource` are read back as the same list of strings (absent as `[]`) |
| Resources.PatchedTagsReadBack | backend/src/models/Resource.ts:197-199 | a `tags` value written by `updateResource` reads back as what was written: a list as that list, a single scalar as that scalar |
| Resources.CreateResource | backend/src/models/Resource.ts:158-188 | one INSERT with the `\|\|` defaults, the cache evicted for `resources`, and `lastID` or the error returned |
| Resources.UpdateResource | backend/src/models/Resource.ts:190-220 | an empty patch returns false without a call; otherwise one UPDATE with the id last, and `changes > 0` returned |
| Resources.DeleteResource | backend/src/models/Resource.ts:222-233 | one UPDATE setting the status to inactive; `changes > 0` returned |
| Resources.IncrementDownloadCount | backend/src/models/Resource.ts:235-246 | one UPDATE adding 1 to the counter; `changes > 0` returned |
| Resources.SoftDeleted | backend/src/models/Resource.ts:222-223 | the table keeps its rows; only rows with the id become inactive |
| Resources.IncrementedTotals | backend/src/models/Resource.ts:236 | the counter update adds to the table's total downloads exactly the number of rows with the id, and changes nothing in any row but its counter |
| Resources.DeletedIsGone | backend/src/models/Resource.ts:139-223 | after the soft delete, the row is still there but `getResourceById` returns null |
| Resources.ListingReads | backend/src/models/Resource.ts:83-105 | the listing and the count statement are both reads and never share a cache key |
| Resources.ReadPair | backend/src/models/Resource.ts:108-111 | two reads started together under different keys each return what they would alone; either error rejects the pair, the first's first |
| Resources.FetchResources | backend/src/models/Resource.ts:107-124 | both reads of `Promise.all` go through the cache, each returning what it would alone; either error rejects the call, the listing's first |
| Resources.FirstRow | backend/src/models/Resource.ts:143-144 | no row gives null, otherwise the first row; an error is passed on |
| Resources.FetchResourceById | backend/src/models/Resource.ts:130-147 | the read by id goes through the cache with the id bound, and yields its first row or null |
| Resources.FetchPopularResources | backend/src/models/Resource.ts:248-265 | the popular read goes through the cache with `limit` bound, 10 by default |
| Resources.WritesEvictListings | backend/src/models/Resource.ts:83-105 | any write to `resources` evicts every listing and count statement |
| Categories.CategoryPiecesShape | backend/src/models/Category.ts:18-47 | the COUNT column, the join on active resources and GROUP BY appear iff `includeCount`; the active filter and ORDER BY always appear |
| Categories.BuildCategoriesSql | backend/src/models/Category.ts:19-47 | the `+=` sequence builds the listing statement of `includeCount` |
| Categories.GetCategories | backend/src/models/Category.ts:18-56 | the listing goes through the cached read path |
| Categories.CountedListingNamesResources | backend/src/models/Category.ts:33-37 | a write to `resources` evicts the counted category listing |
| Categories.InsertParams | backend/src/models/Category.ts:87-93 | name as given; description and icon null when absent or empty, and otherwise the given text; sort order 0 by default; status `active` unless inactive |
| Categories.InsertPlaceholders | backend/src/models/Category.ts:82-93 | the INSERT has one placeholder per value |
| Categories.CreateCategory | backend/src/models/Category.ts:81-102 | one INSERT, the table evicted, `lastID` or the error returned |
| Categories.ChangedOr | backend/src/models/Category.ts:123-128 | an engine error becomes the fixed message; otherwise the result is whether a row changed |
| Categories.UpdateCategory | backend/src/models/Category.ts:105-129 | an empty patch returns false without a call; otherwise one UPDATE with the id last |
| Categories.FirstCount | backend/src/models/Category.ts:135-137 | reading the count fails iff the check returned no row |
| Categories.DeleteRefusal | backend/src/models/Category.ts:135-139 | the delete goes ahead iff the check succeeded with a non-positive count; a positive count gives the "still has resources" error |
| Categories.DeleteCategory | backend/src/models/Category.ts:132-150 | a refused delete issues no UPDATE and changes nothing beyond the check's read; otherwise a soft delete that returns whether a row changed |
| Categories.RefusedDeleteWritesNothing | backend/src/models/Category.ts:134-139 | the check makes only read calls |
| Categories.NameCheckShape | backend/src/models/Category.ts:153-160 | `AND id != ?` and its parameter are added iff `excludeId` is truthy; placeholders equal parameters |
| Categories.NameTaken | backend/src/models/Category.ts:163-167 | true iff the count is positive; a failure gives the fixed error |
| Categories.CheckNameExists | backend/src/models/Category.ts:153-169 | the name check goes through the cached read path and returns `NameTaken` |
| Categories.SortCallsShape | backend/src/models/Category.ts:175-177 | one UPDATE per item, binding its sort order and its id |
| Categories.AnyFailsMeans | backend/src/models/Category.ts:179-183 | the result fails iff some update fails |
| Categories.UpdateSortOrder | backend/src/models/Category.ts:172-185 | all updates are issued in order; true unless one fails |
| Categories.EvictedTwice | backend/src/models/Category.ts:175-177 | evicting a table twice is the same as once |
| CategoryService.CategoriesUrlShape | frontend/src/services/categoryService.ts:48 | the URL has a query string iff `includeCount` |
| CategoryService.ActivesCount | frontend/src/services/categoryService.ts:87-88 | the filter keeps every active category as often as it occurs and no other |
| CategoryService.SortByOrderSpec | frontend/src/services/categoryService.ts:89 | the sort is a permutation sorted by `sort_order` |
| CategoryService.SortStable | frontend/src/services/categoryService.ts:89 | categories with equal `sort_order` keep their order (stable sort) |
| CategoryService.SortedIsFixed | frontend/src/services/categoryService.ts:89 | sorting a sorted list changes nothing |
| CategoryService.ActiveCategoriesSpec | frontend/src/services/categoryService.ts:87-89 | only active categories, all of them, sorted and stable |
| CategoryService.GetActiveCategories | frontend/src/services/categoryService.ts:83-97 | an unsuccessful or empty response is returned as is; otherwise the same response with the active categories sorted |
| CategoryService.SortUpdates | frontend/src/services/categoryService.ts:100-106 | same length and ids, in order |
| CategoryService.SortUpdatesNumbering | frontend/src/services/categoryService.ts:101-104 | the i-th category gets sort order i+1, strictly increasing |
| CategoryService.RenumberedKeepsOrder | frontend/src/services/categoryService.ts:89-104 | renumbered active categories come back from the active listing in the same order |
| CategoryService.FindClash | frontend/src/services/categoryService.ts:114-117 | finds a category with the name ignoring case and an id other than the excluded one, or none iff there is none |
| CategoryService.CheckNameAvailable | frontend/src/services/categoryService.ts:110-125 | false on error, true on an unsuccessful response, otherwise true iff no category clashes |
| CategoryService.NameCaseIgnored | frontend/src/services/categoryService.ts:115 | the answer does not depend on the case of the name |
| CategoryService.OptionsOf | frontend/src/services/categoryService.ts:132-136 | one option per category with its id and name, disabled iff not active |
| CategoryService.CategoryOptions | frontend/src/services/categoryService.ts:128-143 | none on error or without data; otherwise one enabled option per active category in sort order |
| UserPage.FirstIcon | frontend/src/pages/UserPage.tsx:193-288 | no icon iff no rule fires on the text |
| UserPage.FirstFiringAgainst | frontend/src/pages/UserPage.tsx:193-288 | checking one rule table is first-firing over that table |
| UserPage.FirstFiringAppend | frontend/src/pages/UserPage.tsx:193-288 | first-firing over a concatenation tries the first part, then the second |
| UserPage.ChainIsFirstFiring | frontend/src/pages/UserPage.tsx:193-288 | three tables tried in turn give the first rule firing in the whole chain |
| UserPage.GetToolIconIsFirstFiring | frontend/src/pages/UserPage.tsx:185-292 | a string gets 🔧; a tool gets the first firing rule of name, then category, then file-type rules, or 🔧 |
| UserPage.NormalizeTags | frontend/src/pages/UserPage.tsx:161 | an array stays, a non-empty scalar becomes one tag, anything else no tags |
| UserPage.LoadedShape | frontend/src/pages/UserPage.tsx:127-182 | the list starts with `全部` (id 0) and counts the loaded resources, plus one entry per category; a thrown error leaves no tools and only `全部` with count 0 |
| UserPage.LoadedTags | frontend/src/pages/UserPage.tsx:155-171 | each card gets the normalised tags of its resource |
| UserPage.Page.LoadData | frontend/src/pages/UserPage.tsx:127-182 | the state becomes the loaded tools and categories |
| UserPage.FindCategory | frontend/src/pages/UserPage.tsx:339 | `find` gives a category with the id, or none iff there is none |
| UserPage.FilteredMembers | frontend/src/pages/UserPage.tsx:337-346 | a tool is shown iff it is in the list, its category matches and the search matches; never more tools than loaded |
| UserPage.FilteredAppend | frontend/src/pages/UserPage.tsx:337-346 | the filter preserves order (it distributes over concatenation) |
| UserPage.UnfilteredShowsAll | frontend/src/pages/UserPage.tsx:339-343 | category 0 and an empty term show every tool |
| UserPage.Visible | frontend/src/pages/UserPage.tsx:348-350 | the visible tools are the first `min(count, n)` filtered tools |
| UserPage.LoadMoreShape | frontend/src/pages/UserPage.tsx:352-354 | the button shows iff some filtered tools are hidden; it counts the hidden ones; "load more" reveals the next twelve |
| UserPage.Page.LoadMoreTools | frontend/src/pages/UserPage.tsx:352-354 | the count grows by exactly 12 and stays a positive multiple of 12 |
| UserPage.DedupSpec | frontend/src/pages/UserPage.tsx:305-315 | the `Set` holds each offered value once, and only those |
| UserPage.DedupPrefix | frontend/src/pages/UserPage.tsx:305-317 | values seen later never reorder earlier ones (first-seen order) |
| UserPage.MatchingTagsSpec | frontend/src/pages/UserPage.tsx:310-314 | the inner loop offers exactly the tags containing the term |
| UserPage.CandidatesMember | frontend/src/pages/UserPage.tsx:306-315 | a value is offered iff it is some tool's name or tag and contains the term ignoring case |
| UserPage.SuggestionsShape | frontend/src/pages/UserPage.tsx:299-318 | none for a blank term; at most five, no duplicates, a prefix of the distinct candidates; all of them when there are at most five |
| UserPage.SuggestionsSound | frontend/src/pages/UserPage.tsx:299-318 | every suggestion is a tool's name or tag containing the term |
| UserPage.AddMatchingTags | frontend/src/pages/UserPage.tsx:310-314 | the inner loop adds the matching tags to the set |
| UserPage.AddToolCandidates | frontend/src/pages/UserPage.tsx:306-315 | one tool's iteration adds its name, then its tags, to the set |
| UserPage.Page.UpdateSearchSuggestions | frontend/src/pages/UserPage.tsx:299-318 | the loops leave exactly the suggestions of the term |
| UserPage.Bumped | frontend/src/pages/UserPage.tsx:366-372 | each tool is mapped by the bump, in place |
| UserPage.BumpedTotals | frontend/src/pages/UserPage.tsx:366-372 | total downloads grow by the number of tools with the id; only the count of those tools changes |
| UserPage.Page.HandleToolDownload | frontend/src/pages/UserPage.tsx:361-377 | with a download URL and a counted download, the tools become the bumped list; otherwise they are unchanged |
| EditToolModal.CategoryIdOf | frontend/src/components/EditToolModal.tsx:57 | a non-zero id is the id of a category with the tool's category name; 0 when no category has that name |
| EditToolModal.EditForm.Open | frontend/src/components/EditToolModal.tsx:55-68 | with a tool and a visible dialog, the form is filled from the tool (tags joined by `, `) and the errors cleared |
| EditToolModal.Cleared | frontend/src/components/EditToolModal.tsx:77-83 | only the changed field's error is blanked; other errors stay |
| EditToolModal.ChangeIsLocal | frontend/src/components/EditToolModal.tsx:71-76 | a change replaces the named field and no other |
| EditToolModal.EditForm.HandleInputChange | frontend/src/components/EditToolModal.tsx:71-84 | the form and errors after one change event; a `<select>` change stores the chosen id as a number, the corrected behaviour (the source stores the option's string, lines 72-84; see "## Findings") |
| EditToolModal.FormErrors | frontend/src/components/EditToolModal.tsx:87-106 | an error for each of the following, with its message: a blank title, a blank description, category 0, and a blank URL or one not matching `^https?://.+` |
| EditToolModal.NoErrorsIffValid | frontend/src/components/EditToolModal.tsx:108-109 | no error iff the form is valid |
| EditToolModal.EditForm.ValidateForm | frontend/src/components/EditToolModal.tsx:87-110 | sets the errors and returns true iff the form is valid |
| EditToolModal.KeptAreTags | frontend/src/components/EditToolModal.tsx:131 | normalisation keeps only non-empty, trimmed, comma-free tags |
| EditToolModal.NormalizedSegments | frontend/src/components/EditToolModal.tsx:131-153 | the normalised text is empty iff no tag is kept; otherwise it splits back into exactly the kept tags |
| EditToolModal.NormalizeIdempotent | frontend/src/components/EditToolModal.tsx:131 | normalising twice is normalising once |
| EditToolModal.SplitCommaSpace | frontend/src/components/EditToolModal.tsx:64-131 | splitting a `, `-joined list on `,` gives the tags with a leading space on all but the first |
| EditToolModal.TagsRoundTrip | frontend/src/components/EditToolModal.tsx:64-153 | trimmed, non-empty, comma-free tags survive the join with `, `, the normalisation and the split |
| EditToolModal.PayloadOf | frontend/src/components/EditToolModal.tsx:125-132 | title, description and URL are trimmed; a blank password becomes null; the tags are normalised |
| EditToolModal.UpdatedToolSpec | frontend/src/components/EditToolModal.tsx:146-154 | the rebuilt tool keeps its id, carries the kept tags, and takes the name of the one category with the chosen id |
| EditToolModal.EditForm.HandleSubmit | frontend/src/components/EditToolModal.tsx:113-166 | sends iff the form is valid and there is a tool, and then sends the payload; the tool is rebuilt iff the answer is a success |
| EditToolModal.ChosenPlaceholderAcceptedAsWritten | frontend/src/components/EditToolModal.tsx:72-99 | as written, a chosen option (even the "0" placeholder) passes the category check |
| EditToolModal.ChosenCategoryLostAsWritten | frontend/src/components/EditToolModal.tsx:72-150 | as written, after a select the category lookup by id never succeeds |
| UploadModal.AcceptedShape | frontend/src/components/UploadModal.tsx:61-74 | at most one file stays: the last one chosen, and only if it is not refused |
| UploadModal.UploadForm.HandleFileChange | frontend/src/components/UploadModal.tsx:61-86 | the list becomes the accepted files; a kept file sets type `html` and its size in the form |
| UploadModal.WithoutSpec | frontend/src/components/UploadModal.tsx:99-103 | removal drops every occurrence and keeps the others; the length falls by the occurrences; no duplicates stay none |
| UploadModal.RemoveUndoesAdd | frontend/src/components/UploadModal.tsx:89-103 | removing a tag just added gives the old list back |
| UploadModal.UploadForm.HandleAddTag | frontend/src/components/UploadModal.tsx:89-96 | a non-empty new text is appended and cleared; otherwise nothing changes; the list stays duplicate-free |
| UploadModal.UploadForm.HandleRemoveTag | frontend/src/components/UploadModal.tsx:99-103 | the list loses the tag, and the form store mirrors it |
| UploadModal.UploadForm.HandleSubmit | frontend/src/components/UploadModal.tsx:106-154 | nothing sent without a file; otherwise the form values with type `html`, the file size and the current tags; a success resets the dialog and the form store to its initial values, anything else leaves all of it as it was |
| UploadModal.UploadForm.HandleReset | frontend/src/components/UploadModal.tsx:157-186 | no file, no tag, no input text; the form store back at its initial values: type `html`, no tags, no size |
| Text.Trim | backend/src/config/database.ts:73 | `trim` gives a slice of the text whose cut-off prefix and suffix are all white space, which neither starts nor ends with white space; it is empty iff the text is all white space |
| Text.BetweenBlanks | backend/src/config/database.ts:73 | cutting white space off the front and then the back of a text leaves a slice of it between two all-white-space ends |
| Text.SplitJoin | frontend/src/components/EditToolModal.tsx:131-153 | splitting a join of separator-free pieces on that separator gives the pieces back |

## Left out

- SQLite and the connection setup are not modelled. This covers the PRAGMAs, the lazily opened handle and the text of each SQL statement's execution. The engine is a `Handle` value giving the answer to each call. Only the listing's filter, sort and window have a meaning, stated in `Resources` and `Sql`.
- SQL texts are written on one line with single spaces, where the source has indentation and line breaks. Cache keys then differ from the source's by white space only.
- `Promise.all` in `getResources` (Resources.FetchResources) and in `updateSortOrder` is modelled as calls issued one after the other. For `getResources`, Database.ReadsCommute shows that the order makes no difference to what either read returns or calls. Other interleavings of asynchronous calls on the shared cache are not modelled.
- Rows read through the cache are maps from column names to scalars. Turning them into `Resource` records is not modelled, nor is `countResult[0].total`. Over a table, the functions `GetResources`, `GetResourceById` and `GetPopularResources` state what those reads mean.
- `Date.now()` is the parameter `now`. One reading serves the whole of one `query` call, where the source reads the clock up to three times.
- `toLowerCase`/`toUpperCase` map ASCII letters only.
- JSON is modelled for null, integer and string values and flat arrays of them (cache-key parameters and tags). Floating-point numbers, booleans, objects and nested arrays are not modelled, nor is escaping of characters outside the basic plane.
- Resources.DecodeRowTags: a `tags` text holding an object, a nested array, a boolean or a non-integer number is reported as a parse error, so the read fails in the model where `JSON.parse` accepts it. Scalars and flat arrays of scalars, including `null` and `[1]`, are decoded as `JSON.parse` does, and a numeral with a leading zero (`01`, `-01`, `[01]`) is a syntax error, as it is for `JSON.parse`.
- Sorting ties in `ORDER BY` are resolved in table order (a stable sort). SQLite leaves the order of ties unspecified.
- `sort_by` and `sort_order` are enumerations, where the source interpolates any string into the statement.
- `getCategoryById` and `getCategoryStats` in backend/src/models/Category.ts are not part of this model. They are plain single queries outside the named core.
- HTTP calls are parameters: `counted` (the download counter call returned), `answer` (the edit request's result) and `succeeded` (the create request's result). So are `fetch`, `window.open`, `message`/`alert` and `console` output.
- The debounce timer and rendering are not modelled: JSX, loading flags and the suggestion dropdown's visibility.
- The UI library's form store in UploadModal.tsx is modelled by the three fields the handlers write (`tags`, `file_type`, `file_size`). `form.resetFields` puts them back at the form's `initialValues`: `file_type` `html`, no tags and no size. The other fields of the form store are not modelled.
- `Database.Executor.Transaction` takes the callback as a `Work` value: the calls it makes and its outcome. The callback's own use of the cache is not modelled.
- Tools always carry a tag list (possibly empty), so the `tool.tags?.` optional chaining in UserPage.tsx has no absent case.
- UserPage.LoadedShape: follows the code rather than the stated intent. The `全部` count is `resourcesResponse.data?.length || 0` whether or not that response reports success, so an unsuccessful resource response that still carries data is counted.
- EditToolModal.CategoryIdOf: states that a non-zero id belongs to some category with the tool's category name. It does not state that this is the first such category, which is what `find` returns.
- UserPage.LoadMoreShape: states the button and the window. The rendered text of the button is not modelled.

## Findings

| source | as written | input that shows it | evidently intended | confidence | as-written member | corrected member |
|---|---|---|---|---|---|---|
| frontend/src/components/EditToolModal.tsx:72-99 | the `<select>` change stores the option's value, a string, in `category_id`; validation then tests `category_id === 0` | choose the "请选择分类" option (value "0"): `category_id` becomes `"0"`, `"0" === 0` is false, and the form passes without a category | store the selected id as a number, so that the placeholder (0) is rejected | high (not executed) | EditToolModal.ChosenPlaceholderAcceptedAsWritten | EditToolModal.FormErrors |
| frontend/src/components/EditToolModal.tsx:72-150 | after a select, `categories.find(cat => cat.id === updateData.category_id)` compares a number with a string | choose any category, for example value "3": no category has `id === "3"`, so the rebuilt tool keeps its old category name | compare numeric ids, so that the rebuilt tool shows the chosen category | high (not executed) | EditToolModal.ChosenCategoryLostAsWritten | EditToolModal.UpdatedToolSpec |
