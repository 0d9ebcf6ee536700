/**
 * The refresh-side behaviours, each as a method that runs the services on
 * fresh tables (with the refresh service in batch mode where the behaviour
 * is about the pending batch) and states the outcome.
 */
module RefreshScenarios {
  import opened Wrappers
  import opened Strings
  import opened Elements
  import opened Queries
  import opened SignatureCodec
  import opened T = Tables
  import opened Recorder
  import opened Store
  import opened Generate
  import opened Invalidation
  import opened Refresh

  const Page: SiteUri := SiteUri(1, "page")
  const Output: string := "xyz"

  /** The cache record of the first page saved into empty tables. */
  const PageRow: CacheRow := CacheRow(1, Page)

  /** Seconds in a day; dates are instants in seconds. */
  const Day: int := 86400

  /** The signature of `Entry::find()`, which filters on nothing. */
  const AllEntries: Signature := Signature(Entry, map[], [], [])

  /** A refresh service that only collects changes, as during a batch of element saves. */
  method BatchRefresh(db: Database) returns (refresh: RefreshCache)
    ensures fresh(refresh)
    ensures refresh.db == db && refresh.batchMode && refresh.Valid()
    ensures refresh.elements == map[] && refresh.cacheIds == []
  {
    refresh := new RefreshCache(db, map[]);
    refresh.batchMode := true;
  }

  /** Saves `Output` as `Page`, the first page, with the generate service's current buffer and options. */
  method SavePage(generate: GenerateCache, timestamp: string) returns (stored: string)
    requires generate.Valid() && generate.options.cachingEnabled
    requires generate.db.caches == [] && generate.db.nextCacheId == 1
    requires generate.db.elementCaches == [] && generate.db.fieldCaches == [] && generate.db.queryCaches == [] && generate.db.tags == []
    modifies generate, generate.db
    ensures generate.Valid()
    ensures stored == Decorate(Output, Page.uri, old(generate.options.outputComments), timestamp)
    ensures generate.db.State() == old(generate.db.State()).(caches := [PageRow], nextCacheId := 2,
      elementCaches := ElementRows(1, old(generate.elements)), fieldCaches := FieldRows(1, old(generate.elements)),
      queryCaches := LinkRows(1, old(generate.queryIds)), tags := TagRows(1, old(generate.options.tags)),
      storage := old(generate.db.storage)[Page := stored])
  {
    SaveFirstPage(generate.db.State(), Page, generate.elements, generate.queryIds, generate.options.tags,
                  Decorate(Output, Page.uri, generate.options.outputComments, timestamp));
    var r := generate.Save(Output, Page, timestamp);
    stored := r.value;
  }

  // ---------------------------------------------------------------------------
  // Dependency lookups

  /** The page that rendered an element is found by the element's id. */
  method GetElementCacheIds(entry: Element, timestamp: string) returns (ids: seq<nat>)
    ensures ids == [1]
  {
    var db := new Database();
    var generate := new GenerateCache(db);
    var refresh := new RefreshCache(db, map[]);
    generate.AddElement(entry);
    assert generate.elements == [TrackedElement(entry.id, Tracking(true, []))];
    var _ := SavePage(generate, timestamp);
    assert db.elementCaches == [ElementCacheRow(1, entry.id, true)];
    OneElementRow(ElementCacheRow(1, entry.id, true), [entry.id]);
    ids := refresh.GetElementCacheIds([entry.id]);
  }

  /** The signature of `sectionId(n)` on entries. */
  function SectionSig(n: nat): Signature {
    Signature(Entry, map["sectionId" := [IntVal(n)]], [], [])
  }

  lemma EntryFindFacts()
    ensures IsTrackable(Find(Entry)) && SignatureOf(Find(Entry)) == AllEntries
    ensures SourceIds(AllEntries) == [0]
  {
    assert CanonicalParams(Find(Entry).params) == map[];
    UnfilteredQueryAnySource(Entry);
  }

  lemma SectionFacts(n: nat)
    requires n > 0
    ensures IsTrackable(Where(Find(Entry), "sectionId", One(IntVal(n))))
    ensures SignatureOf(Where(Find(Entry), "sectionId", One(IntVal(n)))) == SectionSig(n)
    ensures SourceIds(SectionSig(n)) == [n]
  {
    SingleSource(Entry, n);
    OneParamSignature(Entry, "sectionId", One(IntVal(n)));
  }

  /** Runs a trackable query whose signature has no record yet: the record is inserted under the next id with its source rows. */
  method RecordNew(generate: GenerateCache, q: Query, sig: Signature)
    requires generate.Valid() && IsTrackable(q) && SignatureOf(q) == sig
    requires QueryIdOf(generate.db.queries, sig).None? && generate.db.nextQueryId !in generate.queryIds
    modifies generate, generate.db
    ensures generate.Valid()
    ensures generate.options == old(generate.options) && generate.elements == old(generate.elements)
    ensures generate.queryIds == old(generate.queryIds) + [old(generate.db.nextQueryId)]
    ensures generate.db.State() == old(generate.db.State()).(
      queries := old(generate.db.queries) + [QueryRow(old(generate.db.nextQueryId), sig)],
      nextQueryId := old(generate.db.nextQueryId) + 1,
      querySources := old(generate.db.querySources) + SourceRows(old(generate.db.nextQueryId), SourceIds(sig)))
  {
    generate.AddElementQuery(q);
  }

  /** Runs `Entry::find()` as the first query: it becomes record 1 with the sentinel source 0. */
  method RunFindFirst(generate: GenerateCache)
    requires generate.Valid() && generate.queryIds == []
    requires generate.db.queries == [] && generate.db.nextQueryId == 1 && generate.db.querySources == []
    modifies generate, generate.db
    ensures generate.Valid() && generate.queryIds == [1]
    ensures generate.options == old(generate.options) && generate.elements == old(generate.elements)
    ensures generate.db.State() == old(generate.db.State()).(
      queries := [QueryRow(1, AllEntries)], nextQueryId := 2, querySources := [SourceRow(1, 0)])
  {
    EntryFindFacts();
    RecordNew(generate, Find(Entry), AllEntries);
    assert SourceRows(1, [0]) == [SourceRow(1, 0)];
  }

  /** Runs `sectionId(n)` after `Entry::find()`: it becomes record 2 with source n. */
  method RunSectionSecond(generate: GenerateCache, n: nat)
    requires n > 0
    requires generate.Valid() && generate.queryIds == [1]
    requires generate.db.queries == [QueryRow(1, AllEntries)] && generate.db.nextQueryId == 2
    modifies generate, generate.db
    ensures generate.Valid() && generate.queryIds == [1, 2]
    ensures generate.options == old(generate.options) && generate.elements == old(generate.elements)
    ensures generate.db.State() == old(generate.db.State()).(
      queries := [QueryRow(1, AllEntries), QueryRow(2, SectionSig(n))], nextQueryId := 3,
      querySources := old(generate.db.querySources) + [SourceRow(2, n)])
  {
    SectionFacts(n);
    assert "sectionId" in SectionSig(n).params && "sectionId" !in AllEntries.params;
    RecordNew(generate, Where(Find(Entry), "sectionId", One(IntVal(n))), SectionSig(n));
    assert SourceRows(2, [n]) == [SourceRow(2, n)];
  }

  /** Runs `Entry::find()` and `sectionId(n)` and saves the page that used them. */
  method SaveTwoQueries(generate: GenerateCache, n: nat, timestamp: string)
    requires n > 0
    requires generate.Valid() && generate.db.State() == Empty && generate.queryIds == []
    requires generate.options.cachingEnabled
    modifies generate, generate.db
    ensures generate.db.queries == [QueryRow(1, AllEntries), QueryRow(2, SectionSig(n))]
    ensures generate.db.nextQueryId == 3
    ensures generate.db.querySources == [SourceRow(1, 0), SourceRow(2, n)]
    ensures generate.db.queryCaches == [QueryCacheRow(1, 1), QueryCacheRow(1, 2)]
  {
    RunFindFirst(generate);
    RunSectionSecond(generate, n);
    var _ := SavePage(generate, timestamp);
    assert LinkRows(1, [1, 2]) == [QueryCacheRow(1, 1), QueryCacheRow(1, 2)];
  }

  /**
   * The query records that the tables hold after the two queries and a
   * record inserted directly, with the same signature as the first query and
   * the section as its source but no page depending on it.
   */
  lemma TypeQueriesWithRogue(t: T.Tables, n1: nat, n2: nat)
    requires n1 > 0 && n2 != n1
    requires t.queries == [QueryRow(1, AllEntries), QueryRow(2, SectionSig(n1)), QueryRow(3, AllEntries)]
    requires t.querySources == [SourceRow(1, 0), SourceRow(2, n1), SourceRow(3, n1)]
    requires t.queryCaches == [QueryCacheRow(1, 1), QueryCacheRow(1, 2)]
    ensures ElementTypeQueries(t, Entry, [n1], []) == [t.queries[0], t.queries[1]]
    ensures ElementTypeQueries(t, Entry, [n2], []) == [t.queries[0]]
  {
    var a, b, c := QueryRow(1, AllEntries), QueryRow(2, SectionSig(n1)), QueryRow(3, AllEntries);
    RogueAffected(t, n1, n2);
    ThreeQueryRows(t, a, b, c, Entry, [n1]);
    assert [a] + [b] + [] == [t.queries[0], t.queries[1]];
    ThreeQueryRows(t, a, b, c, Entry, [n2]);
    assert [a] + [] + [] == [t.queries[0]];
  }

  /**
   * The unfiltered record some page uses is affected by a change in any
   * section, the section's record only by a change there, and the record no
   * page uses by none.
   */
  lemma RogueAffected(t: T.Tables, n1: nat, n2: nat)
    requires n1 > 0 && n2 != n1
    requires t.querySources == [SourceRow(1, 0), SourceRow(2, n1), SourceRow(3, n1)]
    requires t.queryCaches == [QueryCacheRow(1, 1), QueryCacheRow(1, 2)]
    ensures QueryAffected(t, QueryRow(1, AllEntries), Entry, [n1], []) && QueryAffected(t, QueryRow(1, AllEntries), Entry, [n2], [])
    ensures QueryAffected(t, QueryRow(2, SectionSig(n1)), Entry, [n1], []) && !QueryAffected(t, QueryRow(2, SectionSig(n1)), Entry, [n2], [])
    ensures !QueryAffected(t, QueryRow(3, AllEntries), Entry, [n1], []) && !QueryAffected(t, QueryRow(3, AllEntries), Entry, [n2], [])
  {
    RogueSources(t.querySources, n1);
    RogueLinks(t.queryCaches);
    assert [n1][0] in [n1];
  }

  /** The sources of the three records: the sentinel, then the section twice. */
  lemma RogueSources(rows: seq<SourceRow>, n: nat)
    requires rows == [SourceRow(1, 0), SourceRow(2, n), SourceRow(3, n)]
    ensures SourcesOf(rows, 1) == [0] && SourcesOf(rows, 2) == [n] && SourcesOf(rows, 3) == [n]
  {
    SourcesOfThree(rows[0], rows[1], rows[2], 1);
    SourcesOfThree(rows[0], rows[1], rows[2], 2);
    SourcesOfThree(rows[0], rows[1], rows[2], 3);
  }

  /** The sources of one record among three source rows, row by row. */
  lemma SourcesOfThree(a: SourceRow, b: SourceRow, c: SourceRow, id: nat)
    ensures SourcesOf([a, b, c], id) ==
      (if a.queryId == id then [a.sourceId] else []) + (if b.queryId == id then [b.sourceId] else []) + (if c.queryId == id then [c.sourceId] else [])
  {
    assert [a, b, c][1..] == [b, c] && [b, c][1..] == [c] && [c][1..] == [];
    assert SourcesOf([c], id) == (if c.queryId == id then [c.sourceId] else []);
  }

  /** The page links the first two records and not the third. */
  lemma RogueLinks(links: seq<QueryCacheRow>)
    requires links == [QueryCacheRow(1, 1), QueryCacheRow(1, 2)]
    ensures HasCacheLink(links, 1, []) && HasCacheLink(links, 2, []) && !HasCacheLink(links, 3, [])
  {
    assert links[0].queryId == 1 && links[1].queryId == 2;
  }

  /** The affected records among three, in order. */
  lemma ThreeQueryRows(t: T.Tables, a: QueryRow, b: QueryRow, c: QueryRow, ty: ElementType, sourceIds: seq<nat>)
    requires t.queries == [a, b, c]
    ensures ElementTypeQueries(t, ty, sourceIds, []) ==
      (if QueryAffected(t, a, ty, sourceIds, []) then [a] else []) +
      (if QueryAffected(t, b, ty, sourceIds, []) then [b] else []) +
      (if QueryAffected(t, c, ty, sourceIds, []) then [c] else [])
  {
    assert [a, b, c] == [a] + [b] + [c];
    AffectedQueriesAppend(t, [a] + [b], [c], ty, sourceIds, []);
    AffectedQueriesAppend(t, [a], [b], ty, sourceIds, []);
    AffectedQueriesOne(t, a, ty, sourceIds, []);
    AffectedQueriesOne(t, b, ty, sourceIds, []);
    AffectedQueriesOne(t, c, ty, sourceIds, []);
  }

  /**
   * Of the query records of a type, only those some page depends on count:
   * a section change finds the unfiltered query and the query on that
   * section; a change in another section only the unfiltered one.
   */
  method GetElementTypeQueries(n1: nat, n2: nat, timestamp: string) returns (first: seq<QueryRow>, second: seq<QueryRow>)
    requires n1 > 0 && n2 != n1
    ensures |first| == 2 && |second| == 1
    ensures first == [QueryRow(1, AllEntries), QueryRow(2, SectionSig(n1))]
    ensures second == [QueryRow(1, AllEntries)]
  {
    var db := new Database();
    var generate := new GenerateCache(db);
    var refresh := new RefreshCache(db, map[]);
    SaveTwoQueries(generate, n1, timestamp);
    var rogue := db.InsertQuery(AllEntries);
    db.InsertSources([SourceRow(rogue, n1)]);
    TypeQueriesWithRogue(db.State(), n1, n2);
    first := refresh.GetElementTypeQueries(Entry, [n1], []);
    second := refresh.GetElementTypeQueries(Entry, [n2], []);
  }

  // ---------------------------------------------------------------------------
  // Collecting changes

  /**
   * Saving an unchanged live entry gives its type an empty slot; changing
   * its title then adds the entry and its section.
   */
  method AddElementWhenChanged(entry: Element, now: int) returns (before: ChangedElements, after: ChangedElements)
    requires entry.elementType == Entry && StatusAt(entry, now) == Live
    ensures before == NoChanges
    ensures after == ChangedElements([entry.id], [entry.sourceId])
  {
    var db := new Database();
    var refresh := BatchRefresh(db);
    var resaved := ElementChange(entry, entry, Live, false);
    UnchangedIgnored(resaved, now);
    refresh.AddElement(resaved, now);
    before := refresh.elements[Entry];
    var edited := entry.(title := entry.title + " X");
    assert |edited.title| != |entry.title|;
    var change := ElementChange(edited, entry, Live, false);
    ChangedLiveRefreshed(change, now);
    refresh.AddElement(change, now);
    after := refresh.elements[Entry];
  }

  /**
   * A disabled entry that was disabled before is ignored however it changed;
   * the same entry disabled from live is added with its section.
   */
  method AddElementWhenStatusChanged(entry: Element, now: int) returns (before: ChangedElements, after: ChangedElements)
    requires entry.elementType == Entry
    ensures before == NoChanges
    ensures after == ChangedElements([entry.id], [entry.sourceId])
  {
    var db := new Database();
    var refresh := BatchRefresh(db);
    var disabled := entry.(title := entry.title + " X", enabled := false);
    var stillDisabled := ElementChange(disabled, entry, Disabled, false);
    StillDisabledIgnored(stillDisabled, now);
    refresh.AddElement(stillDisabled, now);
    before := refresh.elements[Entry];
    var fromLive := ElementChange(disabled, entry, Live, false);
    DisabledFromLiveRefreshed(fromLive, now);
    refresh.AddElement(fromLive, now);
    after := refresh.elements[Entry];
  }

  /** A live entry whose expiry date is set in the past is added with its section. */
  method AddElementWhenExpired(entry: Element, now: int, past: int) returns (after: ChangedElements)
    requires entry.elementType == Entry && StatusAt(entry, now) == Live && past <= now
    ensures after == ChangedElements([entry.id], [entry.sourceId])
  {
    var db := new Database();
    var refresh := BatchRefresh(db);
    var expired := ElementChange(entry.(expiryDate := Some(past)), entry, Live, false);
    ExpiredRefreshed(expired, now);
    refresh.AddElement(expired, now);
    after := refresh.elements[Entry];
  }

  /** A deleted entry is added with its section. */
  method AddElementWhenDeleted(entry: Element, now: int) returns (after: ChangedElements)
    requires entry.elementType == Entry
    ensures after == ChangedElements([entry.id], [entry.sourceId])
  {
    var db := new Database();
    var refresh := BatchRefresh(db);
    var deleted := ElementChange(entry, entry, StatusAt(entry, now), true);
    DeletedRefreshed(deleted, now);
    refresh.AddElement(deleted, now);
    after := refresh.elements[Entry];
  }

  /**
   * A published entry expiring in two days gets that expiry row; once its
   * post date is moved to tomorrow, the row holds the post date instead.
   */
  method AddElementExpiryDates(entry: Element, now: int) returns (first: int, second: int)
    requires entry.postDate.None? || entry.postDate.value <= now
    ensures first == now + 2 * Day
    ensures second == now + Day
  {
    var db := new Database();
    var refresh := new RefreshCache(db, map[]);
    var expiring := entry.(expiryDate := Some(now + 2 * Day));
    refresh.AddElementExpiryDates(expiring, now);
    first := db.expiryDates[entry.id];
    var posted := expiring.(postDate := Some(now + Day));
    refresh.AddElementExpiryDates(posted, now);
    second := db.expiryDates[entry.id];
  }

  /** Refreshing clears the pending cache ids and changes. */
  method RefreshReset() returns (cacheIds: seq<nat>, elements: Pending)
    ensures cacheIds == [] && elements == map[]
  {
    var db := new Database();
    var refresh := BatchRefresh(db);
    refresh.cacheIds := [1];
    refresh.elements := map[Entry := NoChanges];
    refresh.Refresh();
    cacheIds, elements := refresh.cacheIds, refresh.elements;
  }

  // ---------------------------------------------------------------------------
  // Refreshing

  /** Runs `sectionId(n)` as the first query: it becomes record 1 with source n. */
  method RunSectionFirst(generate: GenerateCache, n: nat)
    requires n > 0
    requires generate.Valid() && generate.queryIds == []
    requires generate.db.queries == [] && generate.db.nextQueryId == 1
    modifies generate, generate.db
    ensures generate.Valid() && generate.queryIds == [1]
    ensures generate.options == old(generate.options) && generate.elements == old(generate.elements)
    ensures generate.db.State() == old(generate.db.State()).(
      queries := [QueryRow(1, SectionSig(n))], nextQueryId := 2,
      querySources := old(generate.db.querySources) + [SourceRow(1, n)])
  {
    SectionFacts(n);
    assert SourceRows(1, [n]) == [SourceRow(1, n)];
    RecordNew(generate, Where(Find(Entry), "sectionId", One(IntVal(n))), SectionSig(n));
    assert generate.db.queries == [] + [QueryRow(1, SectionSig(n))];
  }

  /**
   * A change in section n, of an element no page rendered, resolves to the
   * one page whose only query filters on section n.
   */
  lemma SectionQueryResolves(t: T.Tables, n: nat, elementId: nat)
    requires t.elementCaches == [] && t.tags == []
    requires t.queries == [QueryRow(1, SectionSig(n))] && t.querySources == [SourceRow(1, n)]
    requires t.queryCaches == [QueryCacheRow(1, 1)]
    ensures ResolveJob(t, [], map[Entry := ChangedElements([elementId], [n])]) == [1]
  {
    var elements := map[Entry := ChangedElements([elementId], [n])];
    var row := QueryRow(1, SectionSig(n));
    assert t.querySources[1..] == [];
    assert SourcesOf(t.querySources, 1) == [n];
    assert HasCacheLink(t.queryCaches, 1, []) by { assert t.queryCaches[0].queryId == 1; }
    assert QueryAffected(t, row, Entry, [n], []) by { assert [n][0] in [n]; }
    assert t.queries[1..] == [];
    assert AffectedQueries(t, t.queries[1..], Entry, [n], []) == [];
    assert ElementTypeQueries(t, Entry, [n], []) == [row];
    assert LinksTo(t.queryCaches[0], [row]);
    forall d ensures BatchAffects(t, elements, d) <==> d == 1 {
      assert BatchAffects(t, elements, d) <==> Affects(t, Entry, elements[Entry], d);
    }
    ResolveJobSingle(t, elements, 1);
  }

  /**
   * A page that ran `sectionId(n)` is found by a refresh job for a change in
   * section n, and its cached value is blank afterwards.
   */
  method RefreshElementQuery(n: nat, elementId: nat, timestamp: string) returns (before: string, cacheIds: seq<nat>, after: string)
    requires n > 0
    ensures Contains(before, Output)
    ensures cacheIds == [1]
    ensures after == ""
  {
    var db := new Database();
    var generate := new GenerateCache(db);
    RunSectionFirst(generate, n);
    assert db.querySources == [] + [SourceRow(1, n)];
    var _ := SavePage(generate, timestamp);
    assert LinkRows(1, [1]) == [QueryCacheRow(1, 1)];
    before := db.Get(Page);
    assert StartsWith(before, Output);
    ghost var saved := db.State();
    SectionQueryResolves(saved, n, elementId);
    var job := new RefreshCacheJob([], map[Entry := ChangedElements([elementId], [n])]);
    job.Execute(db);
    cacheIds := job.cacheIds;
    PurgedPageBlank(saved, cacheIds, PageRow);
    after := db.Get(Page);
  }

  /** The source tag of section n is a list of one tag. */
  lemma SectionTagIsOneTag(n: nat)
    ensures SplitList(SourceTag("sectionId", n)) == [SourceTag("sectionId", n)]
  {
    var digits := NatToString(n);
    DigitsArePlain(digits);
    var s := SourceTag("sectionId", n);
    assert s == "sectionId:" + digits;
    forall i | 0 <= i < |s| ensures s[i] != ',' {
      if i >= 10 {
        assert s[i] == digits[i - 10];
      }
    }
    assert s[|s| - 1] == digits[|digits| - 1];
    SplitListOne(s);
  }

  /** A change in section n resolves to the one page tagged with the section's source tag. */
  lemma SourceTagResolves(t: T.Tables, n: nat)
    requires t.elementCaches == [] && t.queryCaches == []
    requires t.tags == [TagRow(1, SourceTag("sectionId", n))]
    ensures ResolveJob(t, [], map[Entry := ChangedElements([], [n])]) == [1]
  {
    var elements := map[Entry := ChangedElements([], [n])];
    forall d ensures BatchAffects(t, elements, d) <==> d == 1 {
      SourceTagAffects(t, n, d);
      assert BatchAffects(t, elements, d) <==> Affects(t, Entry, elements[Entry], d);
    }
    ResolveJobSingle(t, elements, 1);
  }

  /** A change in section n affects exactly the page tagged with that section. */
  lemma SourceTagAffects(t: T.Tables, n: nat, d: nat)
    requires t.elementCaches == [] && t.queryCaches == []
    requires t.tags == [TagRow(1, SourceTag("sectionId", n))]
    ensures Affects(t, Entry, ChangedElements([], [n]), d) <==> d == 1
  {
    var tag := SourceTag("sectionId", n);
    var wanted := SourceTags(Entry, [n]);
    assert wanted == [tag];
    assert t.tags == TagRows(1, [tag]);
    OnePageTags(1, [tag], wanted);
    assert [tag][0] in wanted;
    OnlyTagsAffect(t, Entry, ChangedElements([], [n]), d);
  }

  /** Without element rows and query links, only the tags can make a change affect a page. */
  lemma OnlyTagsAffect(t: T.Tables, ty: ElementType, changed: ChangedElements, d: nat)
    requires t.elementCaches == [] && t.queryCaches == []
    ensures Affects(t, ty, changed, d) <==> d in TagCacheIds(t.tags, SourceTags(ty, changed.sourceIds))
  {
  }

  /**
   * A page tagged with the source tag of section n is found by a refresh job
   * for a change in section n, and its cached value is blank afterwards.
   */
  method RefreshSourceTag(n: nat, timestamp: string) returns (before: string, cacheIds: seq<nat>, after: string)
    ensures Contains(before, Output)
    ensures cacheIds == [1]
    ensures after == ""
  {
    var db := new Database();
    var generate := new GenerateCache(db);
    SectionTagIsOneTag(n);
    generate.SetTags(SourceTag("sectionId", n));
    var _ := SavePage(generate, timestamp);
    before := db.Get(Page);
    assert StartsWith(before, Output);
    cacheIds, after := RunSourceJob(db, n);
  }

  /** A job for a change in section n purges the only page, tagged with that section. */
  method RunSourceJob(db: Database, n: nat) returns (cacheIds: seq<nat>, after: string)
    requires db.caches == [PageRow] && db.elementCaches == [] && db.queryCaches == []
    requires db.tags == [TagRow(1, SourceTag("sectionId", n))]
    modifies db
    ensures cacheIds == [1]
    ensures after == ""
  {
    ghost var saved := db.State();
    SourceTagResolves(saved, n);
    var job := new RefreshCacheJob([], map[Entry := ChangedElements([], [n])]);
    job.Execute(db);
    cacheIds := job.cacheIds;
    PurgedPageBlank(saved, cacheIds, PageRow);
    after := db.Get(Page);
  }

  /** Refreshing a pattern that matches the only page's URL blanks that page. */
  method RefreshPageUrl(generate: GenerateCache, refresh: RefreshCache, pattern: string, timestamp: string) returns (before: string, after: string)
    requires generate.db == refresh.db && generate.Valid() && refresh.Valid()
    requires generate.options.cachingEnabled && generate.db.State() == Empty
    requires refresh.cacheIds == [] && refresh.elements == map[]
    requires Page.siteId in refresh.siteUrls && UrlMatches(pattern, refresh.siteUrls[Page.siteId] + Page.uri)
    modifies generate, refresh, generate.db
    ensures Contains(before, Output)
    ensures after == ""
  {
    var db := generate.db;
    var _ := SavePage(generate, timestamp);
    before := db.Get(Page);
    assert StartsWith(before, Output);
    ghost var saved := db.State();
    var ids := UrlCacheIds(saved.caches, refresh.siteUrls, [pattern]);
    assert CacheRowMatches(refresh.siteUrls, saved.caches[0], [pattern]) by { assert [pattern][0] == pattern; }
    assert [] + ids == ids;
    ResolveJobExact(saved, ids, map[], 1);
    refresh.RefreshCachedUrls([pattern]);
    PurgedPageBlank(saved, ResolveJob(saved, ids, map[]), PageRow);
    after := db.Get(Page);
  }

  /** Refreshing a page's own URL blanks its cached value. */
  method RefreshCachedUrls(base: string, timestamp: string) returns (before: string, after: string)
    ensures Contains(before, Output)
    ensures after == ""
  {
    var db := new Database();
    var generate := new GenerateCache(db);
    var refresh := new RefreshCache(db, map[Page.siteId := base]);
    var url := base + Page.uri;
    UrlPatterns(url, 0);
    assert url[|url| - 1] == 'e';
    before, after := RefreshPageUrl(generate, refresh, url, timestamp);
  }

  /** Refreshing the page's URL with its last character replaced by '*' blanks its cached value. */
  method RefreshCachedUrlsWithWildcard(base: string, timestamp: string) returns (before: string, after: string)
    ensures Contains(before, Output)
    ensures after == ""
  {
    var db := new Database();
    var generate := new GenerateCache(db);
    var refresh := new RefreshCache(db, map[Page.siteId := base]);
    var url := base + Page.uri;
    UrlPatterns(url, |url| - 1);
    before, after := RefreshPageUrl(generate, refresh, url[..|url| - 1] + "*", timestamp);
  }

  /** Refreshing a tag blanks the cached value of the page saved with it. */
  method RefreshCacheTags(tag: string, timestamp: string) returns (before: string, after: string)
    requires tag != "" && ',' !in tag && IsTrimmed(tag)
    ensures Contains(before, Output)
    ensures after == ""
  {
    var db := new Database();
    var generate := new GenerateCache(db);
    var refresh := new RefreshCache(db, map[]);
    SplitListOne(tag);
    generate.SetTags(tag);
    var _ := SavePage(generate, timestamp);
    before := db.Get(Page);
    assert StartsWith(before, Output);
    after := RefreshPageTag(refresh, tag);
  }

  /** Refreshing the tag of the only page, saved with that one tag, blanks the page. */
  method RefreshPageTag(refresh: RefreshCache, tag: string) returns (after: string)
    requires refresh.Valid() && refresh.cacheIds == [] && refresh.elements == map[]
    requires refresh.db.caches == [PageRow] && refresh.db.tags == TagRows(1, [tag])
    modifies refresh, refresh.db
    ensures after == ""
  {
    TagJobBlanksPage(refresh.db.State(), tag);
    refresh.RefreshCacheTags([tag]);
    after := refresh.db.Get(Page);
  }

  /** A job for the page's tag purges the page. */
  lemma TagJobBlanksPage(t: T.Tables, tag: string)
    requires t.caches == [PageRow] && t.tags == TagRows(1, [tag])
    ensures StoredOutput(Purge(t, ResolveJob(t, [] + TagCacheIds(t.tags, [tag]), map[])).storage, Page) == ""
  {
    OnePageTags(1, [tag], [tag]);
    assert [tag][0] in [tag];
    var ids := TagCacheIds(t.tags, [tag]);
    assert [] + ids == ids;
    ResolveJobExact(t, ids, map[], 1);
    PurgedPageBlank(t, ResolveJob(t, ids, map[]), PageRow);
  }
}
