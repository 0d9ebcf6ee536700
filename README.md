# Blitz cache engine: dependency recording and invalidation

This project models the core of the Blitz static-page cache for Craft CMS in Dafny. The core has two halves.

**The generate side.** While a page renders, the `GenerateCache` service buffers three things:
- the elements the page displayed, each with the fields it tracks;
- the element queries the page ran;
- the page's tags.

`Save` commits the page in one step:
- it stores the page's output, decorated with a "Cached by Blitz on" comment when the output-comment setting and the URI ask for one;
- it writes one cache record per site URI;
- it replaces the page's earlier dependency rows (element, field, query-link and tag rows) with the buffered ones.

**Element queries.** A query is recorded by its canonical signature, which the `SignatureCodec` module computes:
- values are canonicalised: `1`, `'1'`, `[1]` and `['1']` agree, and `'1, 2'` agrees with `[1, 2]`;
- parameters set to an empty value are dropped;
- a query pinned to element ids or a slug, ordered randomly or by an opaque expression, or joined to the relations table, is not tracked;
- each new signature stores its source rows: the section, product type, campaign type or mailing-list type it filters on. An unfiltered query stores the sentinel `0`; a negated or comparison filter stores none.

**The refresh side.** `RefreshCache` collects changed elements per element type:
- a change enters the batch only when it can alter cached output: a deletion, a status transition, or changed values of a live element;
- a `RefreshCacheJob` resolves the batch to the pages that depend on it. These are pages that rendered a changed element, pages that ran a query of that type whose sources admit the change, and pages tagged with the source tag `sectionId:<n>`;
- those pages are purged: the stored output is removed, along with the cache record and its dependency rows;
- pages can also be refreshed by URL (exactly, or by a prefix ending in `*`) and by tag;
- each element keeps one expiry row, holding its earliest future post or expiry date.

## Layout

Each module sits in its own file.

| module | file | contents |
|---|---|---|
| `Wrappers` | `wrappers.dfy` | Option, distinctness, dedup |
| `Strings` | `strings.dfy` | digits, comma-split lists, trimming, substring search |
| `Elements` | `elements.dfy` | element types and source attributes, elements, status at an instant, the change gate, next expiry date |
| `Queries` | `queries.dfy` | element queries and their builders |
| `SignatureCodec` | `signature_codec.dfy` | canonical values, signatures, trackability, source ids |
| `Tables` | `tables.dfy` | the tables as a value, lookups, purge, URL matching |
| `Recorder` | `recorder.dfy` | decoration, element tracking, the rows a save writes (`SaveT`), query recording (`RecordQueryT`) |
| `Store` | `database.dfy` | class `Database`; each method is one read or write on the tables |
| `Generate` | `generate_cache.dfy` | class `GenerateCache` |
| `Invalidation` | `invalidation.dfy` | pending batches, resolution of a batch to cache ids, expiry rows |
| `Refresh` | `refresh_cache.dfy` | classes `RefreshCacheJob` and `RefreshCache` |
| `GenerateScenarios` | `generate_cache_scenarios.dfy` | the generate-side behaviours, each run on fresh tables |
| `RefreshScenarios` | `refresh_cache_scenarios.dfy` | the refresh-side behaviours, each run on fresh tables |

**Classes and the functions that specify them.** The classes change state in place.
- Each method's contract ties the new state to a pure function of the old state: `SaveT`, `RecordQueryT`, `AddChange`, `ResolveJob`, `Purge` and `ScheduleExpiry`.
- The lemmas about those functions state what the services promise.
- Each scenario method runs the services the way one test of the suites does, and states that test's assertions as its `ensures`.
- Where a test uses fixed values (section 1, tag `abc`, entry 1), the scenario takes them as parameters and proves the outcome for each value the test's setup allows.

## Model

| member | source | states |
|---|---|---|
| Generate.GenerateCache.Save | tests/unit/services/GenerateCacheTest.php:77-136 | With caching disabled, it returns nothing and changes nothing. Otherwise it returns and stores the decorated output, sets the tables to the save of the buffered elements, queries and tags, and empties the buffer; the options persist. |
| Generate.GenerateCache.AddElement | tests/unit/services/GenerateCacheTest.php:138-194 | The element joins the buffer once, tracked for all fields, no fields, or the listed fields, according to the trackCustomFields option; options and buffered queries are unchanged. |
| Generate.GenerateCache.AddElementQuery | tests/unit/services/GenerateCacheTest.php:196-269 | An untrackable query changes nothing. A trackable one is looked up by signature, or inserted with its source rows, and the record's id is buffered once. |
| Generate.GenerateCache.SetTags | tests/unit/services/RefreshCacheTest.php:330-333 | The tags option becomes the comma-separated list, each tag trimmed and empty ones dropped; the buffer is unchanged. |
| Recorder.Decorate | tests/unit/services/GenerateCacheTest.php:77-125 | The stored bytes begin with the output. They contain the marker when the setting puts comments in the cached copy and the URI is HTML, and otherwise equal the output. |
| Recorder.MarkerExactlyWhenDecorated | tests/unit/services/GenerateCacheTest.php:109-125 | For any output that does not itself contain the marker text, the stored bytes contain it exactly when the setting puts comments in the cached copy and the URI is HTML. |
| Recorder.ExtensionOf | tests/unit/services/GenerateCacheTest.php:109-125 | The extension of `base.ext` is `ext`, which decides whether a `.html` or `.json` URI gets the marker. |
| Recorder.TrackingFor | tests/unit/services/GenerateCacheTest.php:138-194 | All fields are tracked exactly under the default option. A field list tracks each listed handle once. `false` tracks no fields. |
| Recorder.Track | tests/unit/services/GenerateCacheTest.php:138-194 | The buffer's element ids gain the element's id once and stay distinct. |
| Recorder.TrackTracking | tests/unit/services/GenerateCacheTest.php:138-194 | Adding an element merges its tracking into any earlier one and leaves other elements' tracking alone. |
| Recorder.AllFieldsNotNarrowed | tests/unit/services/GenerateCacheTest.php:138-154 | Once an element tracks all fields, adding it again with a narrower tracking keeps all fields. |
| Recorder.FieldRowsCount | tests/unit/services/GenerateCacheTest.php:173-194 | A buffered element gets no field rows when it tracks all fields, and otherwise one row per tracked handle. |
| Recorder.SaveValid | tests/unit/services/GenerateCacheTest.php:127-136 | A save keeps the record invariants, and the page's record is found under the id the save used. |
| Recorder.SaveOneRecord | tests/unit/services/GenerateCacheTest.php:127-136 | After a save, the site URI has exactly one cache record. |
| Recorder.SaveFirstPage | tests/unit/services/GenerateCacheTest.php:127-136 | The first page saved into tables with no pages gets the next cache id, exactly the buffered rows and its stored bytes. |
| Recorder.SaveIntoEmpty | tests/unit/services/GenerateCacheTest.php:127-136 | A save into empty tables writes record 1, the buffered rows and the stored bytes, and nothing else. |
| Recorder.SaveStores | tests/unit/services/GenerateCacheTest.php:77-88 | After a save, the site URI holds the stored bytes and every other URI keeps its bytes. |
| Recorder.SaveTagsFound | tests/unit/services/GenerateCacheTest.php:322-338 | A tag lookup finds the saved page exactly when one of its tags is among those looked up. |
| Recorder.SaveElementsFound | tests/unit/services/RefreshCacheTest.php:121-130 | An element lookup finds the saved page exactly when it rendered one of the elements. |
| Recorder.SaveLinksFound | tests/unit/services/GenerateCacheTest.php:271-288 | After a save, the page has a link row to a query record exactly when the page ran that query, so its earlier link rows are replaced. Each query it ran is found by the link lookup. |
| Recorder.SaveKeepsOthers | tests/unit/services/GenerateCacheTest.php:271-288 | A save keeps the tag, element, field and query-link rows of every other page, and every cache record. It leaves the query records and their sources unchanged. |
| Recorder.OnePageTags | tests/unit/services/GenerateCacheTest.php:322-338 | The tag rows of one page answer a lookup with that page's id when one of its tags is wanted, and with nothing otherwise. |
| Recorder.RecordQuerySigs | tests/unit/services/GenerateCacheTest.php:215-243 | A known signature leaves the tables unchanged. A new one is appended once, with its source rows. Distinct signatures stay distinct. |
| Recorder.RecordQueryValid | tests/unit/services/GenerateCacheTest.php:215-243 | Recording keeps the record invariants, and the returned id names the signature's record. |
| Recorder.RecordQueryIdempotent | tests/unit/services/GenerateCacheTest.php:215-243 | Recording the same signature twice is recording it once. |
| Recorder.RecordQuerySources | tests/unit/services/GenerateCacheTest.php:290-320 | A newly recorded signature has exactly its source ids as source rows. |
| Recorder.SourceColumnAppend | tests/unit/services/GenerateCacheTest.php:315-319 | The source-id column after inserting a record's rows is the earlier column followed by that record's source ids. |
| SignatureCodec.ScalarFormsAgree | tests/unit/services/GenerateCacheTest.php:228-231 | `n`, `'n'`, `[n]` and `['n']` have the same canonical value, for every n. |
| SignatureCodec.CommaListAgrees | tests/unit/services/GenerateCacheTest.php:234-235 | A comma-joined list of decimals has the canonical value of the integer array. |
| SignatureCodec.PaddedListAgrees | tests/unit/services/GenerateCacheTest.php:234-235 | A list written `'1, 2'`, with a blank after each comma, has the canonical value of `[1, 2]`. |
| SignatureCodec.PlainStringValue | tests/unit/services/GenerateCacheTest.php:221 | A trimmed non-numeric string without commas, such as `'not 1'`, stays one string. |
| SignatureCodec.NormalizeIdempotent | tests/unit/services/GenerateCacheTest.php:215-243 | Canonicalising a canonical value changes nothing. |
| SignatureCodec.OneParamSignature | tests/unit/services/GenerateCacheTest.php:215-243 | A query with one non-empty parameter has that parameter's canonical value as its only parameter. |
| SignatureCodec.EmptyParamIgnored | tests/unit/services/GenerateCacheTest.php:217-219 | Setting a parameter to an empty value (`limit('')`, `offset(0)`) changes neither the signature nor trackability. |
| SignatureCodec.EquivalentValuesOneSignature | tests/unit/services/GenerateCacheTest.php:227-236 | Values with the same canonical form give the same signature and the same trackability. |
| SignatureCodec.NumericIdsUntracked | tests/unit/services/GenerateCacheTest.php:199-203 | An id filter made only of integers makes any query untracked. |
| SignatureCodec.OperatorIdsTracked | tests/unit/services/GenerateCacheTest.php:221-225 | An id filter that is not all integers (`'not 1'`, `['not', 1]`) keeps the query tracked. |
| SignatureCodec.SlugUntracked | tests/unit/services/GenerateCacheTest.php:204 | A slug filter makes a query untracked. |
| SignatureCodec.RandomOrderUntracked | tests/unit/services/GenerateCacheTest.php:205-206 | An order column beginning with `rand(`, in any case, makes a query untracked. |
| SignatureCodec.ExpressionOrderUntracked | tests/unit/services/GenerateCacheTest.php:262-269 | Ordering by an opaque expression makes a query untracked. |
| SignatureCodec.RelationsJoinUntracked | tests/unit/services/GenerateCacheTest.php:254-260 | A join on the relations table makes a query untracked. |
| SignatureCodec.OtherJoinTracked | tests/unit/services/GenerateCacheTest.php:246-260 | An unfiltered query with one join stays tracked exactly when the joined table does not name the relations table. |
| SignatureCodec.SourceIds | tests/unit/services/GenerateCacheTest.php:290-320 | Each signature's source ids are distinct. They are `[0]` for types without a source attribute or queries not filtering on it, none for a filter that is not all naturals, and otherwise exactly the filtered ids. |
| SignatureCodec.UnfilteredQueryAnySource | tests/unit/services/GenerateCacheTest.php:307 | `find()` stores the sentinel source 0. |
| SignatureCodec.ListedSources | tests/unit/services/GenerateCacheTest.php:309 | A listed source filter stores exactly the listed ids; its comma-string form has the same signature. |
| SignatureCodec.OperatorFilterNoSources | tests/unit/services/GenerateCacheTest.php:292-304 | A negated or comparison source filter stores no source rows. |
| SignatureCodec.SourceFilterTracked | tests/unit/services/GenerateCacheTest.php:292-313 | A query of a type filtering only on its source attribute is tracked. |
| SignatureCodec.ExactSources | tests/unit/services/GenerateCacheTest.php:309 | A filter on distinct positive ids stores those ids, in order. |
| SignatureCodec.SingleSource | tests/unit/services/GenerateCacheTest.php:308-312 | A filter on one positive id is tracked and stores exactly that id, for every type with a source attribute. |
| Elements.UnchangedIgnored | tests/unit/services/RefreshCacheTest.php:175-180 | A save that changes nothing and keeps the status is ignored. |
| Elements.ChangedLiveRefreshed | tests/unit/services/RefreshCacheTest.php:182-193 | A changed live element is refreshed. |
| Elements.StillDisabledIgnored | tests/unit/services/RefreshCacheTest.php:198-207 | A disabled element that was disabled before is ignored, however it changed. |
| Elements.DisabledFromLiveRefreshed | tests/unit/services/RefreshCacheTest.php:209-220 | An element disabled from live is refreshed. |
| Elements.ExpiredRefreshed | tests/unit/services/RefreshCacheTest.php:223-237 | A live element whose expiry date has passed is refreshed. |
| Elements.DeletedRefreshed | tests/unit/services/RefreshCacheTest.php:239-252 | A deleted element is refreshed. |
| Elements.NextExpiryDate | tests/unit/services/RefreshCacheTest.php:254-285 | The next date is present exactly when the post or expiry date lies in the future. It is then one of them, later than now, and no later than either future date. |
| Tables.Purge | tests/unit/services/RefreshCacheTest.php:299-328 | After a purge, no cache record or dependency row names a purged id and the purged pages have no stored output. Every record and row of another id survives, every other page keeps its stored bytes, and nothing new appears. Query records, sources, expiry rows and counters stay. |
| Tables.PurgeIdempotent | tests/unit/services/RefreshCacheTest.php:299-328 | Purging the same ids twice is purging them once. |
| Tables.PurgeNothing | tests/unit/services/RefreshCacheTest.php:287-297 | Purging no ids changes nothing. |
| Tables.PurgedPageBlank | tests/unit/services/RefreshCacheTest.php:324-327 | A page whose id is purged reads back as the empty string. |
| Tables.PurgeValid | tests/unit/services/RefreshCacheTest.php:299-328 | A purge keeps the record invariants. |
| Tables.InsertCacheValid | tests/unit/services/GenerateCacheTest.php:127-136 | Inserting the record of a site URI that has none keeps the record invariants. |
| Tables.QueryIdOf | tests/unit/services/GenerateCacheTest.php:215-243 | A signature is found exactly when some record has it; the id found names such a record. |
| Tables.QueryIdOfAppend | tests/unit/services/GenerateCacheTest.php:215-243 | A signature inserted after a miss is found under its new id. |
| Tables.ElementCacheIds | tests/unit/services/RefreshCacheTest.php:121-130 | The pages found for element ids are distinct, and are exactly those with an element row for one of them. |
| Tables.OneElementRow | tests/unit/services/RefreshCacheTest.php:121-130 | With one element row, the lookup gives that row's page exactly when its element is asked for. |
| Tables.TagCacheIds | tests/unit/services/GenerateCacheTest.php:329-337 | The pages found for tags are distinct, and are exactly those with a tag row for one of them. |
| Tables.SourcesOf | tests/unit/services/RefreshCacheTest.php:132-173 | A query record's sources are exactly the source ids of its source rows. |
| Tables.AffectedQueries | tests/unit/services/RefreshCacheTest.php:132-173 | The rows kept are exactly those of the type that some page still depends on and whose sources admit the change. |
| Tables.ElementTypeQueries | tests/unit/services/RefreshCacheTest.php:160-172 | The query records returned are exactly those of the type that some page not being ignored depends on and whose sources admit the change. |
| Tables.WildcardQueryAffected | tests/unit/services/RefreshCacheTest.php:164-172 | A linked query of the type with the sentinel source is returned for a change in any source. |
| Tables.QueryCacheIds | tests/unit/services/RefreshCacheTest.php:299-328 | The pages found for query records are distinct, and are exactly those linked to one of them. |
| Tables.UrlCacheIds | tests/unit/services/RefreshCacheTest.php:356-386 | The pages found for URLs are distinct, and are exactly those whose site URL matches one of the patterns. |
| Tables.UrlPatterns | tests/unit/services/RefreshCacheTest.php:356-386 | A URL not ending in `*` matches itself, and so does any prefix of it followed by `*`. |
| Store.Database.FindCacheId | tests/unit/services/GenerateCacheTest.php:127-136 | Returns the id of the site URI's cache record, if any. |
| Store.Database.InsertQuery | tests/unit/services/RefreshCacheTest.php:141-150 | Inserts a query record under the next id and returns that id. |
| Store.Database.InsertSources | tests/unit/services/RefreshCacheTest.php:152-158 | Appends the given source rows and changes nothing else. |
| Store.Database.Get | tests/unit/services/GenerateCacheTest.php:81 | Returns the stored bytes of a site URI, or the empty string when it has none. |
| Store.Database.Purge | tests/unit/services/RefreshCacheTest.php:319-327 | The tables become their purge by the given ids. |
| Store.Database.SetExpiryDate | tests/unit/services/RefreshCacheTest.php:254-285 | Overwrites the element's one expiry row and changes nothing else. |
| Invalidation.AddChange | tests/unit/services/RefreshCacheTest.php:175-252 | The changed element's type gets a slot. A change that cannot alter output leaves the slot as it was. Otherwise the slot gains the element and its source, keeps its earlier ids and gains nothing else. Other types are unchanged. |
| Invalidation.AddChangeIdempotent | tests/unit/services/RefreshCacheTest.php:175-252 | Adding the same change twice is adding it once. |
| Invalidation.SourceTagsExact | tests/unit/services/RefreshCacheTest.php:330-354 | A source's tag is among a batch's source tags exactly when the source is in the batch. |
| Invalidation.QueriesSkippingFoundFewer | tests/unit/services/RefreshCacheTest.php:160-162 | Skipping the pages already found never yields a page that the full query lookup would not. |
| Invalidation.QueriesSkippingFoundEnough | tests/unit/services/RefreshCacheTest.php:160-162 | Skipping found pages still yields every page not already found. |
| Invalidation.ResolveTypeExact | tests/unit/services/RefreshCacheTest.php:299-354 | After resolving one type, a page is among the found ones exactly when it was found before or that type's changes affect it. |
| Invalidation.ResolveTypesExact | tests/unit/services/RefreshCacheTest.php:299-354 | Resolving types in turn finds exactly the pages found before and those some resolved type affects. |
| Invalidation.ResolveJobExact | tests/unit/services/RefreshCacheTest.php:299-354 | A job's cache ids are distinct. A page is among them exactly when the job named it or some type in the batch affects it: by a rendered element, a source tag, or a linked query whose sources admit the change. |
| Invalidation.ResolveJobSingle | tests/unit/services/RefreshCacheTest.php:321-325 | A job naming no pages, whose batch affects exactly one page, resolves to exactly that page. |
| Invalidation.EmptyJobResolvesNothing | tests/unit/services/RefreshCacheTest.php:287-297 | An empty job resolves to no pages. |
| Invalidation.ScheduleExpiry | tests/unit/services/RefreshCacheTest.php:254-285 | The element's row becomes its next expiry date when it has one; otherwise the rows are unchanged. |
| Invalidation.ScheduleExpiryEarliest | tests/unit/services/RefreshCacheTest.php:254-285 | With a future post or expiry date, the element's row holds the earliest future one of them, and other elements' rows are unchanged. |
| Refresh.RefreshCacheJob.Execute | tests/unit/services/RefreshCacheTest.php:310-327 | The job's cache ids become the resolution of its ids and batch against the tables, and the tables are purged by them. |
| Refresh.RefreshCache.Reset | tests/unit/services/RefreshCacheTest.php:117 | Pending ids and changes are emptied; batch mode is kept. |
| Refresh.RefreshCache.GetElementCacheIds | tests/unit/services/RefreshCacheTest.php:126 | Returns the pages that rendered one of the elements. |
| Refresh.RefreshCache.GetElementTypeQueries | tests/unit/services/RefreshCacheTest.php:160-169 | Returns the linked query records of the type whose sources admit the change. |
| Refresh.RefreshCache.Refresh | tests/unit/services/RefreshCacheTest.php:287-297 | The tables are purged by the resolution of the pending ids and changes, and the pending state is emptied. |
| Refresh.RefreshCache.AddElement | tests/unit/services/RefreshCacheTest.php:175-252 | In batch mode, the pending changes become their `AddChange` and the tables are unchanged. Otherwise the new batch is resolved and purged at once, and the pending state is emptied. |
| Refresh.RefreshCache.AddElementExpiryDates | tests/unit/services/RefreshCacheTest.php:254-285 | The expiry rows become their `ScheduleExpiry` for the element and nothing else changes. |
| Refresh.RefreshCache.RefreshCachedUrls | tests/unit/services/RefreshCacheTest.php:356-386 | The tables are purged by the resolution of the pending ids plus the pages whose URLs match, with the pending changes; the pending state is emptied. |
| Refresh.RefreshCache.RefreshCacheTags | tests/unit/services/RefreshCacheTest.php:388-403 | The tables are purged by the resolution of the pending ids plus the pages tagged with one of the tags, with the pending changes; the pending state is emptied. |
| Generate.GenerateCache.constructor | tests/unit/services/GenerateCacheTest.php:66-74 | A fresh service has the default options and an empty buffer over the given database. |
| Refresh.RefreshCacheJob.constructor | tests/unit/services/RefreshCacheTest.php:310-316 | A job holds the cache ids and the batch it was created with. |
| Refresh.RefreshCache.constructor | tests/unit/services/RefreshCacheTest.php:76-119 | A fresh service has no pending ids or changes and is not in batch mode. |
| Store.Database.constructor | tests/unit/services/GenerateCacheTest.php:66-74 | A fresh database holds the empty tables. |
| Store.Database.InsertCache | tests/unit/services/GenerateCacheTest.php:127-136 | Inserts the site URI's cache record under the next id and returns that id. |
| Store.Database.DeleteDependencies | tests/unit/services/GenerateCacheTest.php:271-288 | Removes the element, field, query-link and tag rows of the given pages, and nothing else. |
| Store.Database.InsertElementCaches | tests/unit/services/GenerateCacheTest.php:138-154 | Appends the element rows and changes nothing else. |
| Store.Database.InsertFieldCaches | tests/unit/services/GenerateCacheTest.php:173-194 | Appends the field rows and changes nothing else. |
| Store.Database.InsertQueryCaches | tests/unit/services/GenerateCacheTest.php:271-288 | Appends the query-link rows and changes nothing else. |
| Store.Database.InsertTags | tests/unit/services/GenerateCacheTest.php:322-338 | Appends the tag rows and changes nothing else. |
| Store.Database.SetStored | tests/unit/services/GenerateCacheTest.php:77-88 | Stores the bytes under the site URI and changes nothing else. |
| Store.Database.FindQueryId | tests/unit/services/GenerateCacheTest.php:215-243 | Returns the id of the record with the signature, if any. |
| Invalidation.ResolveJob | tests/unit/services/RefreshCacheTest.php:299-354 | A job resolves to distinct cache ids. |
| SignatureCodec.NormalizeScalar | tests/unit/services/GenerateCacheTest.php:227-231 | A scalar's canonical form is canonical, a canonical scalar is its own form, and only integers and digit strings become integers. |
| SignatureCodec.Normalize | tests/unit/services/GenerateCacheTest.php:227-236 | A value's canonical form is canonical, and an array keeps its length. |
| Strings.ParseNatToString | tests/unit/services/GenerateCacheTest.php:199-200 | Parsing a natural's decimal text gives the natural back. |
| Strings.NatToStringInjective | tests/unit/services/GenerateCacheTest.php:199-200 | Different naturals have different decimal texts. |
| Strings.TrimIsSlice | tests/unit/services/GenerateCacheTest.php:234 | Trimming keeps the slice of the input after its leading white space, with only white space after it. |
| Strings.SplitList | tests/unit/services/RefreshCacheTest.php:333 | Each piece of a comma-separated list is non-empty, comma-free and trimmed. |
| Strings.SplitListJoin | tests/unit/services/RefreshCacheTest.php:388-403 | Splitting the comma-join of such pieces gives the pieces back. |
| Strings.Lower | tests/unit/services/GenerateCacheTest.php:205-206 | Lower-casing keeps the length and maps each character. |
| Recorder.Merge | tests/unit/services/GenerateCacheTest.php:138-194 | A merged tracking tracks all fields when either does, and its fields are exactly those of either, each once. |
| Recorder.FieldRows | tests/unit/services/GenerateCacheTest.php:173-194 | Every field row belongs to the page and to a buffered element. |
| Recorder.SaveT | tests/unit/services/GenerateCacheTest.php:127-338 | Definition of the tables after a save. Its properties are stated by `SaveValid`, `SaveOneRecord`, `SaveStores`, `SaveTagsFound`, `SaveElementsFound`, `SaveLinksFound` and `SaveKeepsOthers`. |
| Recorder.RecordQueryT | tests/unit/services/GenerateCacheTest.php:196-320 | Definition of recording a query signature: look it up, or insert it with its source rows. Its properties are stated by `RecordQuerySigs`, `RecordQueryValid`, `RecordQueryIdempotent` and `RecordQuerySources`. |
| Recorder.IsHtmlUri | tests/unit/services/GenerateCacheTest.php:109-125 | Definition of an HTML URI: no extension, or an empty, `html` or `htm` one. `ExtensionOf` and `SaveCacheWithFileExtension` apply it to the `.html` and `.json` URIs. |
| SignatureCodec.CanonicalParams | tests/unit/services/GenerateCacheTest.php:215-243 | Definition of a query's canonical parameters: each non-empty parameter by its canonical value. `CanonicalParamsUpdate` and `EmptyParamIgnored` state how setting one parameter changes them. |
| SignatureCodec.SignatureOf | tests/unit/services/GenerateCacheTest.php:215-243 | Definition of a query's signature: its type, canonical parameters, order columns and joins. `OneParamSignature`, `EmptyParamIgnored` and `EquivalentValuesOneSignature` state which queries share one. |
| SignatureCodec.IsTrackable | tests/unit/services/GenerateCacheTest.php:196-269 | Definition of a tracked query. `NumericIdsUntracked`, `SlugUntracked`, `RandomOrderUntracked`, `ExpressionOrderUntracked`, `RelationsJoinUntracked`, `OtherJoinTracked`, `OperatorIdsTracked` and `SourceFilterTracked` state each case. |
| Elements.StatusAt | tests/unit/services/RefreshCacheTest.php:196-237 | Definition of an element's status at an instant: disabled, pending before its post date, expired from its expiry date, otherwise live. `DisabledFromLiveRefreshed` and `ExpiredRefreshed` use it. |
| Elements.IsRefreshable | tests/unit/services/RefreshCacheTest.php:175-252 | Definition of the change gate. `UnchangedIgnored`, `ChangedLiveRefreshed`, `StillDisabledIgnored`, `DisabledFromLiveRefreshed`, `ExpiredRefreshed` and `DeletedRefreshed` state each test's case. |
| Tables.SourcesMatch | tests/unit/services/RefreshCacheTest.php:141-173 | Definition of a query's sources admitting a change: no source rows, the sentinel 0, or a shared source id. `WildcardQueryAffected`, `AffectedQueries` and `ElementTypeQueries` state its use. |
| Tables.UrlMatches | tests/unit/services/RefreshCacheTest.php:356-386 | Definition of a URL pattern match: a prefix match for a pattern ending in `*`, otherwise equality. `UrlPatterns` and `UrlCacheIds` state its properties. |
| Invalidation.Affects | tests/unit/services/RefreshCacheTest.php:299-354 | Definition of a change of one type affecting a page: by a rendered element, a source tag, or a linked query whose sources admit the change. `ResolveTypeExact`, `ResolveTypesExact` and `ResolveJobExact` tie resolution to it. |
| Tables.CacheIdOf | tests/unit/services/GenerateCacheTest.php:127-136 | A site URI's record is found exactly when one exists, and the id found is that record's. |
| Tables.CountSitePresent | tests/unit/services/GenerateCacheTest.php:127-136 | With unique site URIs, a present URI has exactly one record. |
| Tables.FilterCachesUnique | tests/unit/services/RefreshCacheTest.php:299-328 | Removing records keeps the site URIs unique. |
| GenerateScenarios.SaveCache | tests/unit/services/GenerateCacheTest.php:77-88 | The stored value contains the output and the marker. |
| GenerateScenarios.SaveCacheWithOutputComments | tests/unit/services/GenerateCacheTest.php:90-107 | Under each comment setting, the returned value is the output plus the marker when the setting puts comments in the cached copy, and the bare output otherwise. |
| GenerateScenarios.SaveCacheWithFileExtension | tests/unit/services/GenerateCacheTest.php:109-125 | For any page name, the `.html` URI gets the marker and the `.json` URI gets the bare output, without the marker. |
| GenerateScenarios.SaveCacheRecord | tests/unit/services/GenerateCacheTest.php:127-136 | After a save, the site URI has one cache record. |
| GenerateScenarios.SaveElementCacheRecord | tests/unit/services/GenerateCacheTest.php:138-154 | The element's row tracks all fields, and there are no field rows. |
| GenerateScenarios.SaveElementCacheRecordWithoutCustomFields | tests/unit/services/GenerateCacheTest.php:156-171 | With custom fields off, the element has one row that does not track all fields, and there are no field rows. |
| GenerateScenarios.CustomFieldRows | tests/unit/services/GenerateCacheTest.php:173-194 | Tracking the two field handles `text` and `moreText` gives exactly one field row per handle, in order. |
| GenerateScenarios.SaveElementCacheRecordWithCustomFields | tests/unit/services/GenerateCacheTest.php:173-194 | With two field handles, the element has one row that does not track all fields, and there are exactly two field rows. |
| GenerateScenarios.NumberOne | tests/unit/services/GenerateCacheTest.php:199-200 | `1`, `'1'`, `[1]` and `['1']` canonicalise to the integer 1. |
| GenerateScenarios.OneTwoThree | tests/unit/services/GenerateCacheTest.php:201 | `'1, 2, 3'` canonicalises to the integers 1, 2, 3. |
| GenerateScenarios.OneTwoThreeDecimals | tests/unit/services/GenerateCacheTest.php:201 | `'1, 2, 3'` is the padded comma list of 1, 2, 3. |
| GenerateScenarios.OneTwo | tests/unit/services/GenerateCacheTest.php:234 | `'1, 2'` canonicalises to the integers 1 and 2. |
| GenerateScenarios.OneTwoDecimals | tests/unit/services/GenerateCacheTest.php:234 | `'1, 2'` is the padded comma list of 1 and 2. |
| GenerateScenarios.NotOne | tests/unit/services/GenerateCacheTest.php:221 | `'not 1'` stays one string. |
| GenerateScenarios.NotAndOne | tests/unit/services/GenerateCacheTest.php:224-225 | `['not', 1]` and `['not', '1']` canonicalise to the same pair. |
| GenerateScenarios.IdIntegerUntracked | tests/unit/services/GenerateCacheTest.php:199 | `id(1)` is not tracked. |
| GenerateScenarios.IdStringUntracked | tests/unit/services/GenerateCacheTest.php:200 | `id('1')` is not tracked. |
| GenerateScenarios.IdListUntracked | tests/unit/services/GenerateCacheTest.php:201 | `id('1, 2, 3')` is not tracked. |
| GenerateScenarios.IdArrayUntracked | tests/unit/services/GenerateCacheTest.php:202 | `id([1, 2, 3])` is not tracked. |
| GenerateScenarios.IdStringArrayUntracked | tests/unit/services/GenerateCacheTest.php:203 | `id(['1', '2', '3'])` is not tracked. |
| GenerateScenarios.SlugStringUntracked | tests/unit/services/GenerateCacheTest.php:204 | `slug('slug')` is not tracked. |
| GenerateScenarios.RandUntracked | tests/unit/services/GenerateCacheTest.php:205 | `orderBy('RAND()')` is not tracked. |
| GenerateScenarios.RandSeedUntracked | tests/unit/services/GenerateCacheTest.php:206 | `orderBy('Rand(123)')` is not tracked. |
| GenerateScenarios.FindSignature | tests/unit/services/GenerateCacheTest.php:217 | `find()` is tracked, with the unfiltered signature. |
| GenerateScenarios.LimitSignature | tests/unit/services/GenerateCacheTest.php:218 | `limit('')` has the signature of `find()`. |
| GenerateScenarios.OffsetSignature | tests/unit/services/GenerateCacheTest.php:219 | `offset(0)` has the signature of `find()`. |
| GenerateScenarios.NotOneSignature | tests/unit/services/GenerateCacheTest.php:221-223 | `id('not 1')` is tracked, with its own signature. |
| GenerateScenarios.NotAndOneSignature | tests/unit/services/GenerateCacheTest.php:224 | `id(['not', 1])` is tracked, with its own signature. |
| GenerateScenarios.NotAndOneStringSignature | tests/unit/services/GenerateCacheTest.php:225 | `id(['not', '1'])` has the signature of `id(['not', 1])`. |
| GenerateScenarios.SectionOneSignatures | tests/unit/services/GenerateCacheTest.php:227-232 | The four spellings of `sectionId(1)` are tracked, with one signature. |
| GenerateScenarios.SectionListSignature | tests/unit/services/GenerateCacheTest.php:234 | `sectionId('1, 2')` is tracked, with the signature of sections 1 and 2. |
| GenerateScenarios.SectionArraySignature | tests/unit/services/GenerateCacheTest.php:235 | `sectionId([1, 2])` has the same signature. |
| GenerateScenarios.GroupsDistinct | tests/unit/services/GenerateCacheTest.php:215-243 | The five groups' signatures are pairwise different. |
| GenerateScenarios.RunQuery | tests/unit/services/GenerateCacheTest.php:209 | Running a tracked query appends its signature to the records exactly when it is new. |
| GenerateScenarios.RunEntryGroup | tests/unit/services/GenerateCacheTest.php:216-220 | The `find()` group adds one record. |
| GenerateScenarios.RunNotOneGroup | tests/unit/services/GenerateCacheTest.php:221 | The `id('not 1')` entry adds one record. |
| GenerateScenarios.RunNotAndOneGroup | tests/unit/services/GenerateCacheTest.php:222-226 | The negation group adds one record. It holds `id('not 1')` again, which is already recorded. |
| GenerateScenarios.RunSectionOneGroup | tests/unit/services/GenerateCacheTest.php:227-232 | The section-1 group adds one record. |
| GenerateScenarios.RunSectionListGroup | tests/unit/services/GenerateCacheTest.php:233-236 | The sections-1-and-2 group adds one record. |
| GenerateScenarios.RunUntrackedQueries | tests/unit/services/GenerateCacheTest.php:198-209 | The untracked queries change no table. |
| GenerateScenarios.RunTrackedQueries | tests/unit/services/GenerateCacheTest.php:215-239 | The tracked queries leave exactly the five group signatures, in order. |
| GenerateScenarios.SaveElementQueryRecords | tests/unit/services/GenerateCacheTest.php:196-244 | There are no query records after the first batch, and exactly five after the second. |
| GenerateScenarios.SaveElementQueryWithJoin | tests/unit/services/GenerateCacheTest.php:246-252 | A users-table join gives one query record. |
| GenerateScenarios.SaveElementQueryWithRelations | tests/unit/services/GenerateCacheTest.php:254-260 | A relations join gives none. |
| GenerateScenarios.SaveElementQueryWithExpression | tests/unit/services/GenerateCacheTest.php:262-269 | An expression order gives none. |
| GenerateScenarios.SecondPageLinks | tests/unit/services/GenerateCacheTest.php:278-282 | Saving a second page with the same query adds a second link to the same record. |
| GenerateScenarios.SaveElementQueryCacheRecords | tests/unit/services/GenerateCacheTest.php:271-288 | Two pages running one query give two query links. |
| GenerateScenarios.GreaterOne | tests/unit/services/GenerateCacheTest.php:294 | `'> 1'` stays one string. |
| GenerateScenarios.GreaterAndOne | tests/unit/services/GenerateCacheTest.php:297 | `['>', '1']` canonicalises to `'>'` and the integer 1. |
| GenerateScenarios.NotOneNoSources | tests/unit/services/GenerateCacheTest.php:293 | `sectionId('not 1')` is tracked and stores no sources. |
| GenerateScenarios.GreaterOneNoSources | tests/unit/services/GenerateCacheTest.php:294 | `sectionId('> 1')` is tracked and stores no sources. |
| GenerateScenarios.NotAndOneNoSources | tests/unit/services/GenerateCacheTest.php:295 | `sectionId(['not', 1])` is tracked and stores no sources. |
| GenerateScenarios.NotAndOneStringNoSources | tests/unit/services/GenerateCacheTest.php:296 | `sectionId(['not', '1'])` is tracked and stores no sources. |
| GenerateScenarios.GreaterAndOneNoSources | tests/unit/services/GenerateCacheTest.php:297 | `sectionId(['>', '1'])` is tracked and stores no sources. |
| GenerateScenarios.RunSourcedQuery | tests/unit/services/GenerateCacheTest.php:300-316 | Running a trackable query extends the source column by its source ids, or by nothing when its signature was already recorded. |
| GenerateScenarios.RunOperatorFilters | tests/unit/services/GenerateCacheTest.php:292-304 | The operator filters leave the source column empty. |
| GenerateScenarios.SectionListSources | tests/unit/services/GenerateCacheTest.php:309 | `sectionId([1, 2, 3])` is tracked and stores 1, 2, 3. |
| GenerateScenarios.RunUnfiltered | tests/unit/services/GenerateCacheTest.php:307 | `find()` adds 0 to the source column. |
| GenerateScenarios.RunSingleSource | tests/unit/services/GenerateCacheTest.php:308-312 | A single-id source filter of any sourced type adds that id. |
| GenerateScenarios.RunSectionList | tests/unit/services/GenerateCacheTest.php:309 | `sectionId([1, 2, 3])` adds 1, 2, 3. |
| GenerateScenarios.RunSourceFilters | tests/unit/services/GenerateCacheTest.php:306-315 | The second batch adds `[0, 1, 1, 2, 3, 4, 5, 6]`. |
| GenerateScenarios.SaveElementQuerySourceRecords | tests/unit/services/GenerateCacheTest.php:290-320 | The source column is empty after the operator filters, and `[0, 1, 1, 2, 3, 4, 5, 6]` after the second batch. |
| GenerateScenarios.SaveCacheTags | tests/unit/services/GenerateCacheTest.php:322-338 | For any non-empty tag list, a tag the page was not saved with finds no page, and the page's tags find exactly that page. |
| RefreshScenarios.BatchRefresh | tests/unit/services/RefreshCacheTest.php:117-118 | A fresh refresh service in batch mode has no pending state. |
| RefreshScenarios.SavePage | tests/unit/services/RefreshCacheTest.php:124 | Saving the first page stores the decorated output under record 1 and writes the buffered rows. |
| RefreshScenarios.GetElementCacheIds | tests/unit/services/RefreshCacheTest.php:121-130 | The page that rendered an element is the one page found for it. |
| RefreshScenarios.SectionSig | tests/unit/services/RefreshCacheTest.php:136 | The signature of `sectionId(n)` on entries. |
| RefreshScenarios.EntryFindFacts | tests/unit/services/RefreshCacheTest.php:135 | `Entry::find()` is tracked, with the unfiltered signature and the sentinel source. |
| RefreshScenarios.SectionFacts | tests/unit/services/RefreshCacheTest.php:136 | `sectionId(n)` is tracked, with its signature and source n. |
| RefreshScenarios.RecordNew | tests/unit/services/RefreshCacheTest.php:137-138 | A new trackable query is inserted under the next id with its source rows, and its id is buffered. |
| RefreshScenarios.RunFindFirst | tests/unit/services/RefreshCacheTest.php:137 | The first query becomes record 1 with source 0. |
| RefreshScenarios.RunSectionSecond | tests/unit/services/RefreshCacheTest.php:138 | The section query becomes record 2 with source n. |
| RefreshScenarios.SaveTwoQueries | tests/unit/services/RefreshCacheTest.php:134-139 | The page links to both records, which hold sources 0 and n. |
| RefreshScenarios.TypeQueriesWithRogue | tests/unit/services/RefreshCacheTest.php:141-173 | With an unlinked duplicate record on section n, a change in section n finds the two linked records, and a change in another section finds only the unfiltered one. |
| RefreshScenarios.GetElementTypeQueries | tests/unit/services/RefreshCacheTest.php:132-173 | The lookups return two records, then one: the linked ones, never the rogue record. |
| RefreshScenarios.AddElementWhenChanged | tests/unit/services/RefreshCacheTest.php:175-194 | An unchanged save leaves an empty slot. A title change then puts exactly the entry and its section in it. |
| RefreshScenarios.AddElementWhenStatusChanged | tests/unit/services/RefreshCacheTest.php:196-221 | A still-disabled entry leaves an empty slot. Disabled from live, it puts exactly the entry and its section in it. |
| RefreshScenarios.AddElementWhenExpired | tests/unit/services/RefreshCacheTest.php:223-237 | An entry given a past expiry date is added with its section. |
| RefreshScenarios.AddElementWhenDeleted | tests/unit/services/RefreshCacheTest.php:239-252 | A deleted entry is added with its section. |
| RefreshScenarios.AddElementExpiryDates | tests/unit/services/RefreshCacheTest.php:254-285 | The expiry row holds the expiry date two days ahead, then the post date one day ahead. |
| RefreshScenarios.RefreshReset | tests/unit/services/RefreshCacheTest.php:287-297 | A refresh empties the pending ids and changes. |
| RefreshScenarios.RunSectionFirst | tests/unit/services/RefreshCacheTest.php:302-303 | `sectionId(n)` as the first query becomes record 1 with source n. |
| RefreshScenarios.SectionQueryResolves | tests/unit/services/RefreshCacheTest.php:308-324 | A batch with section n resolves to exactly the page that ran `sectionId(n)`. |
| RefreshScenarios.RefreshElementQuery | tests/unit/services/RefreshCacheTest.php:299-328 | The saved value contains the output; the job's cache ids are `[1]`; afterwards the page reads back blank. |
| RefreshScenarios.SectionTagIsOneTag | tests/unit/services/RefreshCacheTest.php:333 | `sectionId:<n>` is a list of one tag. |
| RefreshScenarios.SourceTagResolves | tests/unit/services/RefreshCacheTest.php:337-349 | A batch with source n resolves to exactly the page tagged `sectionId:<n>`. |
| RefreshScenarios.RefreshSourceTag | tests/unit/services/RefreshCacheTest.php:330-354 | The saved value contains the output; the job's cache ids are `[1]`; afterwards the page reads back blank. |
| RefreshScenarios.RefreshPageUrl | tests/unit/services/RefreshCacheTest.php:356-386 | Refreshing a pattern that matches the page's URL blanks the page. |
| RefreshScenarios.RefreshCachedUrls | tests/unit/services/RefreshCacheTest.php:356-369 | Refreshing the page's exact URL blanks the page, whatever the site's base URL. |
| RefreshScenarios.RefreshCachedUrlsWithWildcard | tests/unit/services/RefreshCacheTest.php:371-386 | Refreshing the URL with its last character replaced by `*` blanks the page. |
| RefreshScenarios.RefreshCacheTags | tests/unit/services/RefreshCacheTest.php:388-403 | For any tag written without commas or surrounding blanks, refreshing it blanks the page saved with it. |

## Left out

- `src/drivers/generators/local-generator-script.php`, `src/helpers/BaseDriverHelper.php` and `src/controllers/IncludeController.php` are not part of this model. They are process, queue and HTTP plumbing around calls into Craft.
- The ActiveRecord layer and transactions are not modelled. The tables are sequences of rows in the `Database` class, with auto-increment counters. Storage backends are a map from site URI to stored bytes.
- Queued jobs run synchronously. `RefreshCachedUrls`, `RefreshCacheTags` and a non-batch `AddElement` resolve and purge at once, where the source queues a job that `queue/run` later executes.
- Real time is not modelled. Instants are integers, "now" is a parameter, a day is 86400, and the marker's timestamp text is a parameter.
- Craft's element saving, deletion and change-tracking behaviour are not modelled. A change is an `ElementChange` value: the element, its original, its previous status and a deleted flag. A deletion reaches `AddElement` directly rather than through an event. Any difference between element and original counts as changed values.
- Include and SSI include records (tests/unit/services/GenerateCacheTest.php:340-360) are not modelled.
- The served-only comment setting is not modelled beyond leaving the cached copy undecorated. The comment added when a page is served belongs to the request pipeline.
- Queries are not executed. Resolution matches stored signatures by their source rows only.
- Field-level invalidation is left out: field rows are recorded but not consulted, because a change carries no list of changed fields.
- The `forceClear` flag of a refresh job is not modelled; a job always clears.
- Re-generating purged pages is not modelled.
- The periodic sweep that consumes due expiry rows is not modelled.
- Integer parsing is simplified: a string counts as an integer only when it is a plain run of decimal digits, with no sign or inner blanks.
- The rogue query record's `index` column is not modelled. The record is inserted through `Database.InsertQuery` with the signature of `Entry::find()` (`params` `[]`).
- RefreshScenarios.GetElementCacheIds states the found ids as `[1]`. The test asserts only that one id is found, so this is stronger.
- A negated or comparison source filter stores no source rows (tests/unit/services/GenerateCacheTest.php:290-304). `Tables.SourcesMatch` makes a tracked query with no source rows match a change in any source, so pages that ran such a query are refreshed on every change of that type.
- An element's slot is created the first time the refresh service sees its type, before the change is gated. This follows tests/unit/services/RefreshCacheTest.php:175-180, where an ignored save leaves an empty slot.
