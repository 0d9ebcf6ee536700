/**
 * The engine's persistent state as values: the cache records keyed by site
 * URI, the dependency tables that point at them (elements, element fields,
 * element queries with their sources, tags), the element expiry dates, and
 * the cache storage that holds the output bytes. The functions here are the
 * reads and writes the generate and refresh sides perform on that state.
 */
module Tables {
  import opened Wrappers
  import opened Strings
  import opened Elements
  import opened SignatureCodec

  datatype SiteUri = SiteUri(siteId: int, uri: string)

  datatype CacheRow = CacheRow(id: nat, site: SiteUri)
  datatype ElementCacheRow = ElementCacheRow(cacheId: nat, elementId: nat, trackAllFields: bool)
  datatype FieldCacheRow = FieldCacheRow(cacheId: nat, elementId: nat, field: string)
  datatype QueryRow = QueryRow(id: nat, sig: Signature)
  datatype SourceRow = SourceRow(queryId: nat, sourceId: nat)
  datatype QueryCacheRow = QueryCacheRow(cacheId: nat, queryId: nat)
  datatype TagRow = TagRow(cacheId: nat, tag: string)

  /** Every table, in insertion order, with the next auto-increment id of the two keyed ones. */
  datatype Tables = Tables(
    caches: seq<CacheRow>,
    nextCacheId: nat,
    elementCaches: seq<ElementCacheRow>,
    fieldCaches: seq<FieldCacheRow>,
    queries: seq<QueryRow>,
    nextQueryId: nat,
    querySources: seq<SourceRow>,
    queryCaches: seq<QueryCacheRow>,
    tags: seq<TagRow>,
    expiryDates: map<nat, int>,
    storage: map<SiteUri, string>)

  /** Freshly installed: no rows, ids counting from 1, nothing stored. */
  const Empty: Tables := Tables([], 1, [], [], [], 1, [], [], [], map[], map[])

  /** No two cache records share an id or a site URI. */
  predicate UniqueCaches(caches: seq<CacheRow>) {
    forall i, j :: 0 <= i < j < |caches| ==> caches[i].id != caches[j].id && caches[i].site != caches[j].site
  }

  /**
   * Record invariants: cache ids and query ids are below their counters and
   * unique, no two cache records share a site URI, and source rows belong to
   * query ids already handed out.
   */
  predicate Valid(t: Tables) {
    && (forall i :: 0 <= i < |t.caches| ==> t.caches[i].id < t.nextCacheId)
    && UniqueCaches(t.caches)
    && (forall i :: 0 <= i < |t.queries| ==> t.queries[i].id < t.nextQueryId)
    && (forall i, j :: 0 <= i < j < |t.queries| ==> t.queries[i].id != t.queries[j].id)
    && (forall i :: 0 <= i < |t.querySources| ==> t.querySources[i].queryId < t.nextQueryId)
  }

  /** The record invariants depend only on the cache and query records and their counters. */
  lemma ValidRecords(a: Tables, b: Tables)
    requires Valid(a)
    requires a.caches == b.caches && a.nextCacheId == b.nextCacheId && a.queries == b.queries
    requires a.nextQueryId == b.nextQueryId && a.querySources == b.querySources
    ensures Valid(b)
  {
  }

  /** Appending a query record under the next query id, with source rows of that id, keeps the record invariants. */
  lemma InsertQueryValid(t: Tables, sig: Signature, rows: seq<SourceRow>)
    requires Valid(t)
    requires forall i :: 0 <= i < |rows| ==> rows[i].queryId == t.nextQueryId
    ensures Valid(t.(queries := t.queries + [QueryRow(t.nextQueryId, sig)], nextQueryId := t.nextQueryId + 1,
                     querySources := t.querySources + rows))
  {
  }

  lemma EmptyValid()
    ensures Valid(Empty)
  {
  }

  /** What the cache storage returns for a site URI: the stored output, or '' when there is none. */
  function StoredOutput(storage: map<SiteUri, string>, site: SiteUri): string {
    if site in storage then storage[site] else ""
  }

  /** The rows for which `keep` holds, in order. */
  function Filter<T(==)>(s: seq<T>, keep: T -> bool): (r: seq<T>)
    ensures |r| <= |s|
    ensures forall i :: 0 <= i < |r| ==> keep(r[i]) && r[i] in s
    ensures forall j :: 0 <= j < |s| && keep(s[j]) ==> s[j] in r
  {
    if s == [] then []
    else
      var rest := Filter(s[1..], keep);
      if keep(s[0]) then [s[0]] + rest else rest
  }

  /** Filtering twice by the same condition is filtering once. */
  lemma {:induction false} FilterTwice<T>(s: seq<T>, keep: T -> bool)
    ensures Filter(Filter(s, keep), keep) == Filter(s, keep)
  {
    if s != [] {
      FilterTwice(s[1..], keep);
    }
  }

  // ---------------------------------------------------------------------------
  // Cache records

  /** The id of the cache record for a site URI, if there is one. */
  function CacheIdOf(caches: seq<CacheRow>, site: SiteUri): (r: Option<nat>)
    ensures r.Some? <==> exists i :: 0 <= i < |caches| && caches[i].site == site
    ensures r.Some? ==> exists i :: 0 <= i < |caches| && caches[i] == CacheRow(r.value, site)
  {
    if caches == [] then None
    else if caches[0].site == site then Some(caches[0].id)
    else
      var r := CacheIdOf(caches[1..], site);
      assert r.Some? ==> exists i :: 0 <= i < |caches[1..]| && caches[1..][i] == CacheRow(r.value, site);
      r
  }

  /** The number of cache records for a site URI. */
  function CountSite(caches: seq<CacheRow>, site: SiteUri): nat {
    if caches == [] then 0
    else (if caches[0].site == site then 1 else 0) + CountSite(caches[1..], site)
  }

  lemma {:induction false} CountSiteAppend(caches: seq<CacheRow>, row: CacheRow, site: SiteUri)
    ensures CountSite(caches + [row], site) == CountSite(caches, site) + (if row.site == site then 1 else 0)
  {
    if caches != [] {
      assert (caches + [row])[1..] == caches[1..] + [row];
      CountSiteAppend(caches[1..], row, site);
    }
  }

  lemma {:induction false} CountSiteAbsent(caches: seq<CacheRow>, site: SiteUri)
    requires forall i :: 0 <= i < |caches| ==> caches[i].site != site
    ensures CountSite(caches, site) == 0
  {
    if caches != [] {
      CountSiteAbsent(caches[1..], site);
    }
  }

  /** With site URIs unique, a site URI that has a record has exactly one. */
  lemma {:induction false} CountSitePresent(caches: seq<CacheRow>, site: SiteUri)
    requires forall i, j :: 0 <= i < j < |caches| ==> caches[i].site != caches[j].site
    requires exists i :: 0 <= i < |caches| && caches[i].site == site
    ensures CountSite(caches, site) == 1
  {
    if caches[0].site == site {
      CountSiteAbsent(caches[1..], site);
    } else {
      var i :| 0 <= i < |caches| && caches[i].site == site;
      assert caches[1..][i - 1].site == site;
      CountSitePresent(caches[1..], site);
    }
  }

  /** The site URIs of the given cache ids. */
  function SitesOf(caches: seq<CacheRow>, ids: seq<nat>): (r: set<SiteUri>)
    ensures forall s :: s in r <==> exists i :: 0 <= i < |caches| && caches[i].site == s && caches[i].id in ids
  {
    set i | 0 <= i < |caches| && caches[i].id in ids :: caches[i].site
  }

  // ---------------------------------------------------------------------------
  // Writes

  /** A new cache record for a site URI under the next id. */
  function InsertCache(t: Tables, site: SiteUri): Tables {
    t.(caches := t.caches + [CacheRow(t.nextCacheId, site)], nextCacheId := t.nextCacheId + 1)
  }

  /** Inserting the record of a site URI that has none keeps the record invariants. */
  lemma InsertCacheValid(t: Tables, site: SiteUri)
    requires Valid(t) && CacheIdOf(t.caches, site).None?
    ensures Valid(InsertCache(t, site))
  {
  }

  /** The tables without the element, field, query and tag rows of the given cache ids. */
  function DeleteDependencies(t: Tables, ids: seq<nat>): Tables {
    t.(elementCaches := Filter(t.elementCaches, (r: ElementCacheRow) => r.cacheId !in ids),
       fieldCaches := Filter(t.fieldCaches, (r: FieldCacheRow) => r.cacheId !in ids),
       queryCaches := Filter(t.queryCaches, (r: QueryCacheRow) => r.cacheId !in ids),
       tags := Filter(t.tags, (r: TagRow) => r.cacheId !in ids))
  }

  /**
   * Purging cache ids: their stored output is deleted, and so are their cache
   * records and every dependency row pointing at them. Query records and their
   * sources stay, shared with other pages.
   */
  function Purge(t: Tables, ids: seq<nat>): (r: Tables)
    ensures forall i :: 0 <= i < |r.caches| ==> r.caches[i].id !in ids && r.caches[i] in t.caches
    ensures forall i :: 0 <= i < |r.elementCaches| ==> r.elementCaches[i].cacheId !in ids && r.elementCaches[i] in t.elementCaches
    ensures forall i :: 0 <= i < |r.fieldCaches| ==> r.fieldCaches[i].cacheId !in ids && r.fieldCaches[i] in t.fieldCaches
    ensures forall i :: 0 <= i < |r.queryCaches| ==> r.queryCaches[i].cacheId !in ids && r.queryCaches[i] in t.queryCaches
    ensures forall i :: 0 <= i < |r.tags| ==> r.tags[i].cacheId !in ids && r.tags[i] in t.tags
    ensures forall s :: s in SitesOf(t.caches, ids) ==> s !in r.storage
    ensures r.storage.Keys <= t.storage.Keys
    ensures forall i :: 0 <= i < |t.caches| && t.caches[i].id !in ids ==> t.caches[i] in r.caches
    ensures forall i :: 0 <= i < |t.elementCaches| && t.elementCaches[i].cacheId !in ids ==> t.elementCaches[i] in r.elementCaches
    ensures forall i :: 0 <= i < |t.fieldCaches| && t.fieldCaches[i].cacheId !in ids ==> t.fieldCaches[i] in r.fieldCaches
    ensures forall i :: 0 <= i < |t.queryCaches| && t.queryCaches[i].cacheId !in ids ==> t.queryCaches[i] in r.queryCaches
    ensures forall i :: 0 <= i < |t.tags| && t.tags[i].cacheId !in ids ==> t.tags[i] in r.tags
    ensures forall s :: s in t.storage && s !in SitesOf(t.caches, ids) ==> s in r.storage && r.storage[s] == t.storage[s]
    ensures r.queries == t.queries && r.querySources == t.querySources && r.expiryDates == t.expiryDates
    ensures r.nextCacheId == t.nextCacheId && r.nextQueryId == t.nextQueryId
  {
    DeleteDependencies(t, ids).(
      caches := Filter(t.caches, (r: CacheRow) => r.id !in ids),
      storage := t.storage - SitesOf(t.caches, ids))
  }

  /** Purging is idempotent: purging the same ids again changes nothing. */
  lemma PurgeIdempotent(t: Tables, ids: seq<nat>)
    ensures Purge(Purge(t, ids), ids) == Purge(t, ids)
  {
    var once := Purge(t, ids);
    FilterTwice(t.caches, (r: CacheRow) => r.id !in ids);
    FilterTwice(t.elementCaches, (r: ElementCacheRow) => r.cacheId !in ids);
    FilterTwice(t.fieldCaches, (r: FieldCacheRow) => r.cacheId !in ids);
    FilterTwice(t.queryCaches, (r: QueryCacheRow) => r.cacheId !in ids);
    FilterTwice(t.tags, (r: TagRow) => r.cacheId !in ids);
    assert SitesOf(once.caches, ids) == {};
    assert once.storage - {} == once.storage;
  }

  /** Dropping cache records keeps the remaining ones unique. */
  lemma {:induction false} FilterCachesUnique(caches: seq<CacheRow>, keep: CacheRow -> bool)
    requires UniqueCaches(caches)
    ensures UniqueCaches(Filter(caches, keep))
  {
    if caches != [] {
      var tail := caches[1..];
      FilterCachesUnique(tail, keep);
      var rest := Filter(tail, keep);
      forall i | 0 <= i < |rest|
        ensures rest[i].id != caches[0].id && rest[i].site != caches[0].site
      {
        var j :| 0 <= j < |tail| && tail[j] == rest[i];
        assert caches[j + 1] == rest[i];
      }
    }
  }

  /** Filtering by a condition every row meets keeps every row. */
  lemma {:induction false} FilterAll<T>(s: seq<T>, keep: T -> bool)
    requires forall i :: 0 <= i < |s| ==> keep(s[i])
    ensures Filter(s, keep) == s
  {
    if s != [] {
      FilterAll(s[1..], keep);
      assert [s[0]] + s[1..] == s;
    }
  }

  /** Purging no cache ids changes nothing. */
  lemma PurgeNothing(t: Tables)
    ensures Purge(t, []) == t
  {
    FilterAll(t.caches, (r: CacheRow) => r.id !in []);
    FilterAll(t.elementCaches, (r: ElementCacheRow) => r.cacheId !in []);
    FilterAll(t.fieldCaches, (r: FieldCacheRow) => r.cacheId !in []);
    FilterAll(t.queryCaches, (r: QueryCacheRow) => r.cacheId !in []);
    FilterAll(t.tags, (r: TagRow) => r.cacheId !in []);
    assert SitesOf(t.caches, []) == {};
    assert t.storage - {} == t.storage;
  }

  /** A purged page reads back as blank from the cache storage. */
  lemma PurgedPageBlank(t: Tables, ids: seq<nat>, row: CacheRow)
    requires row in t.caches && row.id in ids
    ensures StoredOutput(Purge(t, ids).storage, row.site) == ""
  {
    var i :| 0 <= i < |t.caches| && t.caches[i] == row;
    assert row.site in SitesOf(t.caches, ids);
  }

  /** Purging keeps the record invariants. */
  lemma PurgeValid(t: Tables, ids: seq<nat>)
    requires Valid(t)
    ensures Valid(Purge(t, ids))
  {
    FilterCachesUnique(t.caches, (r: CacheRow) => r.id !in ids);
  }

  // ---------------------------------------------------------------------------
  // Dependency lookups

  /** The id of the query record with the given signature, if there is one. */
  function QueryIdOf(queries: seq<QueryRow>, sig: Signature): (r: Option<nat>)
    ensures r.Some? <==> exists i :: 0 <= i < |queries| && queries[i].sig == sig
    ensures r.Some? ==> QueryRow(r.value, sig) in queries
    ensures r.None? ==> forall i :: 0 <= i < |queries| ==> queries[i].sig != sig
  {
    if queries == [] then None
    else if queries[0].sig == sig then Some(queries[0].id)
    else
      var r := QueryIdOf(queries[1..], sig);
      assert forall i :: 0 <= i < |queries[1..]| ==> queries[1..][i] == queries[i + 1];
      r
  }

  lemma {:induction false} QueryIdOfAppend(queries: seq<QueryRow>, row: QueryRow)
    requires QueryIdOf(queries, row.sig).None?
    ensures QueryIdOf(queries + [row], row.sig) == Some(row.id)
  {
    if queries != [] {
      assert (queries + [row])[1..] == queries[1..] + [row];
      QueryIdOfAppend(queries[1..], row);
    }
  }

  /** Cache ids of element rows for any of the given element ids, with repetitions. */
  function ElementRowCacheIds(rows: seq<ElementCacheRow>, elementIds: seq<nat>): (r: seq<nat>)
    ensures forall c :: c in r <==> exists i :: 0 <= i < |rows| && rows[i].cacheId == c && rows[i].elementId in elementIds
  {
    if rows == [] then []
    else
      var rest := ElementRowCacheIds(rows[1..], elementIds);
      assert forall i :: 0 <= i < |rows[1..]| ==> rows[1..][i] == rows[i + 1];
      if rows[0].elementId in elementIds then [rows[0].cacheId] + rest else rest
  }

  /** The pages that depend directly on any of the given elements, each once. */
  function ElementCacheIds(rows: seq<ElementCacheRow>, elementIds: seq<nat>): (r: seq<nat>)
    ensures Distinct(r)
    ensures forall c :: c in r <==> exists i :: 0 <= i < |rows| && rows[i].cacheId == c && rows[i].elementId in elementIds
  {
    DedupMembers(ElementRowCacheIds(rows, elementIds));
    Dedup(ElementRowCacheIds(rows, elementIds))
  }

  /** A single element row is found exactly when its element is looked up. */
  lemma OneElementRow(row: ElementCacheRow, elementIds: seq<nat>)
    ensures ElementCacheIds([row], elementIds) == if row.elementId in elementIds then [row.cacheId] else []
  {
    assert [row][1..] == [];
    var found := ElementRowCacheIds([row], elementIds);
    assert ElementRowCacheIds([], elementIds) == [];
    if row.elementId in elementIds {
      assert found == [row.cacheId];
      assert found[..0] == [];
    } else {
      assert found == [];
    }
  }

  /** Cache ids of tag rows for any of the given tags, with repetitions. */
  function TagRowCacheIds(rows: seq<TagRow>, tags: seq<string>): (r: seq<nat>)
    ensures forall c :: c in r <==> exists i :: 0 <= i < |rows| && rows[i].cacheId == c && rows[i].tag in tags
  {
    if rows == [] then []
    else
      var rest := TagRowCacheIds(rows[1..], tags);
      assert forall i :: 0 <= i < |rows[1..]| ==> rows[1..][i] == rows[i + 1];
      if rows[0].tag in tags then [rows[0].cacheId] + rest else rest
  }

  /** The pages saved with any of the given tags, each once. */
  function TagCacheIds(rows: seq<TagRow>, tags: seq<string>): (r: seq<nat>)
    ensures Distinct(r)
    ensures forall c :: c in r <==> exists i :: 0 <= i < |rows| && rows[i].cacheId == c && rows[i].tag in tags
  {
    DedupMembers(TagRowCacheIds(rows, tags));
    Dedup(TagRowCacheIds(rows, tags))
  }

  /** The source ids stored for a query record, in insertion order. */
  function SourcesOf(rows: seq<SourceRow>, queryId: nat): (r: seq<nat>)
    ensures forall x :: x in r <==> exists i :: 0 <= i < |rows| && rows[i] == SourceRow(queryId, x)
  {
    if rows == [] then []
    else
      var rest := SourcesOf(rows[1..], queryId);
      assert forall i :: 0 <= i < |rows[1..]| ==> rows[1..][i] == rows[i + 1];
      if rows[0].queryId == queryId then [rows[0].sourceId] + rest else rest
  }

  /**
   * Whether a query's stored sources admit a change in the given sources: the
   * sentinel 0 admits any, a query stored without source rows (a negated or
   * comparison filter) admits any, and otherwise one of its sources must be
   * among them.
   */
  predicate SourcesMatch(sources: seq<nat>, changed: seq<nat>) {
    sources == [] || 0 in sources || exists i :: 0 <= i < |sources| && sources[i] in changed
  }

  /** Whether some page other than the ignored ones depends on the query record. */
  predicate HasCacheLink(links: seq<QueryCacheRow>, queryId: nat, ignore: seq<nat>) {
    exists i :: 0 <= i < |links| && links[i].queryId == queryId && links[i].cacheId !in ignore
  }

  /** Whether a change of elements of type `ty` in the given sources can affect the query record. */
  predicate QueryAffected(t: Tables, row: QueryRow, ty: ElementType, sourceIds: seq<nat>, ignore: seq<nat>) {
    && row.sig.elementType == ty
    && HasCacheLink(t.queryCaches, row.id, ignore)
    && SourcesMatch(SourcesOf(t.querySources, row.id), sourceIds)
  }

  function AffectedQueries(t: Tables, rows: seq<QueryRow>, ty: ElementType, sourceIds: seq<nat>, ignore: seq<nat>): (r: seq<QueryRow>)
    ensures forall q :: q in r <==> q in rows && QueryAffected(t, q, ty, sourceIds, ignore)
  {
    if rows == [] then []
    else
      var rest := AffectedQueries(t, rows[1..], ty, sourceIds, ignore);
      if QueryAffected(t, rows[0], ty, sourceIds, ignore) then [rows[0]] + rest else rest
  }

  /** A single record is kept exactly when it is affected. */
  lemma AffectedQueriesOne(t: Tables, row: QueryRow, ty: ElementType, sourceIds: seq<nat>, ignore: seq<nat>)
    ensures AffectedQueries(t, [row], ty, sourceIds, ignore) == if QueryAffected(t, row, ty, sourceIds, ignore) then [row] else []
  {
    assert [row][1..] == [];
    assert AffectedQueries(t, [], ty, sourceIds, ignore) == [];
  }

  /** The affected records of two lists one after the other. */
  lemma {:induction false} AffectedQueriesAppend(t: Tables, xs: seq<QueryRow>, ys: seq<QueryRow>, ty: ElementType, sourceIds: seq<nat>, ignore: seq<nat>)
    ensures AffectedQueries(t, xs + ys, ty, sourceIds, ignore) ==
      AffectedQueries(t, xs, ty, sourceIds, ignore) + AffectedQueries(t, ys, ty, sourceIds, ignore)
  {
    if xs == [] {
      assert xs + ys == ys;
    } else {
      assert (xs + ys)[0] == xs[0] && (xs + ys)[1..] == xs[1..] + ys;
      AffectedQueriesAppend(t, xs[1..], ys, ty, sourceIds, ignore);
    }
  }

  /**
   * The query records of type `ty` that some page depends on and whose
   * sources admit a change in `sourceIds`; `ignore` lists pages already known
   * to be affected.
   */
  function ElementTypeQueries(t: Tables, ty: ElementType, sourceIds: seq<nat>, ignore: seq<nat>): (r: seq<QueryRow>)
    ensures forall q :: q in r <==> q in t.queries && QueryAffected(t, q, ty, sourceIds, ignore)
  {
    AffectedQueries(t, t.queries, ty, sourceIds, ignore)
  }

  /** A query of the type that filters on no source is affected by a change in any source. */
  lemma WildcardQueryAffected(t: Tables, row: QueryRow, ty: ElementType, sourceIds: seq<nat>)
    requires row in t.queries && row.sig.elementType == ty
    requires 0 in SourcesOf(t.querySources, row.id)
    requires HasCacheLink(t.queryCaches, row.id, [])
    ensures row in ElementTypeQueries(t, ty, sourceIds, [])
  {
  }

  /** Whether a query link points at one of the given query records. */
  predicate LinksTo(link: QueryCacheRow, queries: seq<QueryRow>) {
    exists q :: q in queries && q.id == link.queryId
  }

  /** Cache ids of query links for any of the given query records, with repetitions. */
  function LinkCacheIds(links: seq<QueryCacheRow>, queries: seq<QueryRow>): (r: seq<nat>)
    ensures forall c :: c in r <==> exists i :: 0 <= i < |links| && links[i].cacheId == c && LinksTo(links[i], queries)
  {
    if links == [] then []
    else
      var rest := LinkCacheIds(links[1..], queries);
      assert forall i :: 0 <= i < |links[1..]| ==> links[1..][i] == links[i + 1];
      if LinksTo(links[0], queries) then [links[0].cacheId] + rest else rest
  }

  /** The pages that depend on any of the given query records, each once. */
  function QueryCacheIds(links: seq<QueryCacheRow>, queries: seq<QueryRow>): (r: seq<nat>)
    ensures Distinct(r)
    ensures forall c :: c in r <==> exists i :: 0 <= i < |links| && links[i].cacheId == c && LinksTo(links[i], queries)
  {
    DedupMembers(LinkCacheIds(links, queries));
    Dedup(LinkCacheIds(links, queries))
  }

  // ---------------------------------------------------------------------------
  // URLs

  /** The full URL of a site URI: the site's base URL (ending in '/') followed by the URI. */
  function SiteUrl(siteUrls: map<int, string>, site: SiteUri): Option<string> {
    if site.siteId in siteUrls then Some(siteUrls[site.siteId] + site.uri) else None
  }

  /** A URL given for refreshing: exact, or, when it ends in '*', a prefix. */
  predicate UrlMatches(pattern: string, url: string) {
    if pattern != [] && pattern[|pattern| - 1] == '*' then StartsWith(url, pattern[..|pattern| - 1])
    else url == pattern
  }

  predicate CacheRowMatches(siteUrls: map<int, string>, row: CacheRow, patterns: seq<string>) {
    var url := SiteUrl(siteUrls, row.site);
    url.Some? && exists i :: 0 <= i < |patterns| && UrlMatches(patterns[i], url.value)
  }

  function UrlRowCacheIds(caches: seq<CacheRow>, siteUrls: map<int, string>, patterns: seq<string>): (r: seq<nat>)
    ensures forall c :: c in r <==> exists i :: 0 <= i < |caches| && caches[i].id == c && CacheRowMatches(siteUrls, caches[i], patterns)
  {
    if caches == [] then []
    else
      var rest := UrlRowCacheIds(caches[1..], siteUrls, patterns);
      assert forall i :: 0 <= i < |caches[1..]| ==> caches[1..][i] == caches[i + 1];
      if CacheRowMatches(siteUrls, caches[0], patterns) then [caches[0].id] + rest else rest
  }

  /** The cached pages whose URL is one of the given URLs or starts with one of the given prefixes. */
  function UrlCacheIds(caches: seq<CacheRow>, siteUrls: map<int, string>, patterns: seq<string>): (r: seq<nat>)
    ensures Distinct(r)
    ensures forall c :: c in r <==> exists i :: 0 <= i < |caches| && caches[i].id == c && CacheRowMatches(siteUrls, caches[i], patterns)
  {
    DedupMembers(UrlRowCacheIds(caches, siteUrls, patterns));
    Dedup(UrlRowCacheIds(caches, siteUrls, patterns))
  }

  /** A URL matches itself, and so does any prefix of it with its last character replaced by '*'. */
  lemma {:induction false} UrlPatterns(url: string, k: nat)
    requires k <= |url|
    ensures UrlMatches(url, url) || (url != [] && url[|url| - 1] == '*')
    ensures UrlMatches(url[..k] + "*", url)
  {
    var p := url[..k] + "*";
    assert p[..|p| - 1] == url[..k];
  }
}
