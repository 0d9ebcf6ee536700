/**
 * What the generate side writes, as functions of the tables: the output
 * decoration, the buffer of elements with their field tracking, the rows a
 * save commits for one page, and the lookup-or-insert of a query signature
 * with its source rows.
 */
module Recorder {
  import opened Wrappers
  import opened Strings
  import opened Elements
  import opened SignatureCodec
  import opened Tables

  // ---------------------------------------------------------------------------
  // Output decoration

  /** The output-comment setting: false, true, only when served, only in the cached copy. */
  datatype OutputComments = CommentsOff | CommentsOn | CommentsServed | CommentsCached

  const MarkerText: string := "Cached by Blitz on"

  /** The comment appended to cached HTML output; `timestamp` is the formatted generation instant. */
  function Marker(timestamp: string): string {
    "<!-- " + MarkerText + " " + timestamp + " -->"
  }

  /** The part of `s` after the last `c`, or all of `s` when it has no `c`. */
  function AfterLast(s: string, c: char): (r: string)
    ensures c !in r
    ensures EndsWith(s, r)
    ensures c !in s ==> r == s
  {
    if s == [] then []
    else if s[|s| - 1] == c then []
    else
      var init := s[..|s| - 1];
      var r := AfterLast(init, c);
      assert init[|init| - |r|..] == r;
      assert s[|s| - |r| - 1..] == r + [s[|s| - 1]];
      r + [s[|s| - 1]]
  }

  /** The file extension of a URI's last path segment, if that segment has a dot. */
  function Extension(uri: string): (r: Option<string>)
    ensures r.Some? ==> '.' !in r.value && '/' !in r.value
    ensures '.' !in uri ==> r.None?
  {
    var segment := AfterLast(uri, '/');
    if '.' in segment then Some(AfterLast(segment, '.')) else None
  }

  /** The part after the last `c` is whatever follows a `c` and holds none. */
  lemma {:induction false} AfterLastSuffix(init: string, c: char, r: string)
    requires c !in r
    ensures AfterLast(init + [c] + r, c) == r
    decreases |r|
  {
    var s := init + [c] + r;
    if r != [] {
      var front := r[..|r| - 1];
      assert c !in front;
      AfterLastSuffix(init, c, front);
      assert s[..|s| - 1] == init + [c] + front;
      assert front + [r[|r| - 1]] == r;
    }
  }

  /** A URI whose last segment is `base.ext` has the extension `ext`. */
  lemma ExtensionOf(base: string, ext: string)
    requires '/' !in base && '/' !in ext && '.' !in ext
    ensures Extension(base + "." + ext) == Some(ext)
  {
    var uri := base + "." + ext;
    assert uri == base + ['.'] + ext;
    AfterLastSuffix(base, '.', ext);
    assert uri[|base|] == '.';
    assert '/' !in uri;
  }

  /** Whether a URI is served as HTML: no extension, or an HTML one. */
  predicate IsHtmlUri(uri: string) {
    var e := Extension(uri);
    e.None? || e.value == "" || e.value == "html" || e.value == "htm"
  }

  /** Whether the cached copy carries the marker under a setting. */
  predicate CommentsInCache(policy: OutputComments) {
    policy == CommentsOn || policy == CommentsCached
  }

  /**
   * The bytes stored for a page: the rendered output, followed by the marker
   * when the setting puts comments in the cached copy and the URI is HTML.
   */
  function Decorate(output: string, uri: string, policy: OutputComments, timestamp: string): (r: string)
    ensures StartsWith(r, output)
    ensures CommentsInCache(policy) && IsHtmlUri(uri) ==> Contains(r, MarkerText)
    ensures !(CommentsInCache(policy) && IsHtmlUri(uri)) ==> r == output
  {
    if CommentsInCache(policy) && IsHtmlUri(uri) then
      var r := output + Marker(timestamp);
      assert r == (output + "<!-- ") + MarkerText + (" " + timestamp + " -->");
      ContainsMiddle(output + "<!-- ", MarkerText, " " + timestamp + " -->");
      assert r[..|output|] == output;
      r
    else output
  }

  /**
   * For output that does not itself hold the marker text, the stored bytes
   * hold it exactly when the setting puts comments in the cache and the URI is HTML.
   */
  lemma MarkerExactlyWhenDecorated(output: string, uri: string, policy: OutputComments, timestamp: string)
    requires !Contains(output, MarkerText)
    ensures Contains(Decorate(output, uri, policy, timestamp), MarkerText) <==> CommentsInCache(policy) && IsHtmlUri(uri)
  {
  }

  // ---------------------------------------------------------------------------
  // Element tracking

  /** How an element's fields are tracked on a page: all fields, or only the listed handles. */
  datatype Tracking = Tracking(allFields: bool, fields: seq<string>)

  /** The trackCustomFields option: true, false, or a list of field handles. */
  datatype TrackCustomFields = TrackAll | TrackNone | TrackOnly(handles: seq<string>)

  function TrackingFor(option: TrackCustomFields): (r: Tracking)
    ensures r.allFields <==> option.TrackAll?
    ensures option.TrackOnly? ==> forall i :: 0 <= i < |option.handles| ==> option.handles[i] in r.fields
    ensures !option.TrackOnly? ==> r.fields == []
    ensures Distinct(r.fields)
  {
    match option
    case TrackAll => Tracking(true, [])
    case TrackNone => Tracking(false, [])
    case TrackOnly(handles) => Tracking(false, Dedup(handles))
  }

  /** Two trackings of one element combined: the broader wins, and field lists are united. */
  function Merge(a: Tracking, b: Tracking): (r: Tracking)
    ensures r.allFields <==> a.allFields || b.allFields
    ensures forall i :: 0 <= i < |a.fields| ==> a.fields[i] in r.fields
    ensures forall i :: 0 <= i < |b.fields| ==> b.fields[i] in r.fields
    ensures forall i :: 0 <= i < |r.fields| ==> r.fields[i] in a.fields || r.fields[i] in b.fields
    ensures Distinct(r.fields)
  {
    var all := a.fields + b.fields;
    DedupMembers(all);
    Tracking(a.allFields || b.allFields, Dedup(all))
  }

  datatype TrackedElement = TrackedElement(elementId: nat, tracking: Tracking)

  function IdsOf(buffer: seq<TrackedElement>): (r: seq<nat>)
    ensures |r| == |buffer|
    ensures forall i :: 0 <= i < |buffer| ==> r[i] == buffer[i].elementId
  {
    if buffer == [] then [] else [buffer[0].elementId] + IdsOf(buffer[1..])
  }

  /** The tracking buffered for an element, if it is buffered. */
  function TrackingOf(buffer: seq<TrackedElement>, id: nat): (r: Option<Tracking>)
    ensures r.Some? <==> id in IdsOf(buffer)
    ensures r.Some? ==> exists i :: 0 <= i < |buffer| && buffer[i] == TrackedElement(id, r.value)
  {
    if buffer == [] then None
    else if buffer[0].elementId == id then Some(buffer[0].tracking)
    else
      var r := TrackingOf(buffer[1..], id);
      assert r.Some? ==> exists i :: 0 <= i < |buffer[1..]| && buffer[1..][i] == TrackedElement(id, r.value);
      r
  }

  /**
   * The buffer after an element is added with a tracking: a new element is
   * appended, a buffered one keeps its place and merges the trackings.
   */
  function Track(buffer: seq<TrackedElement>, id: nat, tracking: Tracking): (r: seq<TrackedElement>)
    requires Distinct(IdsOf(buffer))
    ensures IdsOf(r) == AppendNew(IdsOf(buffer), id)
    ensures Distinct(IdsOf(r))
  {
    if buffer == [] then [TrackedElement(id, tracking)]
    else
      var head := buffer[0];
      if head.elementId == id then
        var r := [head.(tracking := Merge(head.tracking, tracking))] + buffer[1..];
        MergedHeadIds(buffer, r, id);
        r
      else
        TailIdsDistinct(buffer);
        var rest := Track(buffer[1..], id, tracking);
        ConsIds(buffer, rest, id);
        [head] + rest
  }

  /** Replacing the tracking of the first element, the one with id `id`, keeps the ids. */
  lemma MergedHeadIds(buffer: seq<TrackedElement>, r: seq<TrackedElement>, id: nat)
    requires buffer != [] && buffer[0].elementId == id && Distinct(IdsOf(buffer))
    requires r != [] && r[0].elementId == id && r[1..] == buffer[1..]
    ensures IdsOf(r) == AppendNew(IdsOf(buffer), id)
  {
    IdsOfFirst(buffer);
    IdsOfFirst(r);
  }

  /** The rest of a buffer with distinct ids has distinct ids too. */
  lemma TailIdsDistinct(buffer: seq<TrackedElement>)
    requires buffer != [] && Distinct(IdsOf(buffer))
    ensures Distinct(IdsOf(buffer[1..]))
  {
    IdsOfFirst(buffer);
    DistinctTail(IdsOf(buffer));
  }

  /** Putting back the first element, whose id is not `id`, in front of the rest with `id` added. */
  lemma ConsIds(buffer: seq<TrackedElement>, rest: seq<TrackedElement>, id: nat)
    requires buffer != [] && buffer[0].elementId != id && Distinct(IdsOf(buffer)) && Distinct(IdsOf(buffer[1..]))
    requires IdsOf(rest) == AppendNew(IdsOf(buffer[1..]), id)
    ensures IdsOf([buffer[0]] + rest) == AppendNew(IdsOf(buffer), id)
  {
    IdsOfFirst(buffer);
    var r := [buffer[0]] + rest;
    IdsOfFirst(r);
    assert r[1..] == rest;
    AppendNewCons(buffer[0].elementId, IdsOf(buffer[1..]), id);
  }

  /** The ids of a non-empty buffer: the first element's, then the rest's. */
  lemma IdsOfFirst(buffer: seq<TrackedElement>)
    requires buffer != []
    ensures IdsOf(buffer) == [buffer[0].elementId] + IdsOf(buffer[1..])
  {
  }

  /** The tracking an element gets from being added with `tracking`. */
  function Tracked(buffer: seq<TrackedElement>, id: nat, tracking: Tracking): Tracking {
    match TrackingOf(buffer, id)
    case Some(earlier) => Merge(earlier, tracking)
    case None => tracking
  }

  /** Adding an element merges its tracking into any earlier one and leaves other elements alone. */
  lemma {:induction false} TrackTracking(buffer: seq<TrackedElement>, id: nat, tracking: Tracking, x: nat)
    requires Distinct(IdsOf(buffer))
    ensures TrackingOf(Track(buffer, id, tracking), x) ==
      if x == id then Some(Tracked(buffer, id, tracking)) else TrackingOf(buffer, x)
  {
    if buffer != [] {
      var ids := IdsOf(buffer);
      assert Distinct(IdsOf(buffer[1..])) by {
        assert forall i :: 0 <= i < |buffer[1..]| ==> IdsOf(buffer[1..])[i] == ids[i + 1];
      }
      var r := Track(buffer, id, tracking);
      if buffer[0].elementId == id {
        assert r[1..] == buffer[1..];
        if x != id {
          assert TrackingOf(r, x) == TrackingOf(buffer[1..], x);
        }
      } else {
        TrackTracking(buffer[1..], id, tracking, x);
        assert r[1..] == Track(buffer[1..], id, tracking);
      }
    }
  }

  /** Tracking all fields is never narrowed by a later call for specific fields. */
  lemma AllFieldsNotNarrowed(buffer: seq<TrackedElement>, id: nat, tracking: Tracking)
    requires Distinct(IdsOf(buffer))
    requires TrackingOf(buffer, id).Some? && TrackingOf(buffer, id).value.allFields
    ensures TrackingOf(Track(buffer, id, tracking), id).value.allFields
  {
    TrackTracking(buffer, id, tracking, id);
  }

  // ---------------------------------------------------------------------------
  // Rows of one save

  function ElementRows(cacheId: nat, buffer: seq<TrackedElement>): (r: seq<ElementCacheRow>)
    ensures |r| == |buffer|
    ensures forall i :: 0 <= i < |r| ==> r[i] == ElementCacheRow(cacheId, buffer[i].elementId, buffer[i].tracking.allFields)
  {
    seq(|buffer|, i requires 0 <= i < |buffer| => ElementCacheRow(cacheId, buffer[i].elementId, buffer[i].tracking.allFields))
  }

  function FieldRowsOf(cacheId: nat, e: TrackedElement): (r: seq<FieldCacheRow>)
    ensures |r| == (if e.tracking.allFields then 0 else |e.tracking.fields|)
    ensures forall i :: 0 <= i < |r| ==> r[i].cacheId == cacheId && r[i].elementId == e.elementId
  {
    if e.tracking.allFields then []
    else seq(|e.tracking.fields|, i requires 0 <= i < |e.tracking.fields| => FieldCacheRow(cacheId, e.elementId, e.tracking.fields[i]))
  }

  /** One field row per tracked field of each element that does not track all its fields. */
  function FieldRows(cacheId: nat, buffer: seq<TrackedElement>): (r: seq<FieldCacheRow>)
    ensures forall i :: 0 <= i < |r| ==> r[i].cacheId == cacheId && r[i].elementId in IdsOf(buffer)
  {
    if buffer == [] then []
    else
      var rest := FieldRows(cacheId, buffer[1..]);
      assert IdsOf(buffer) == [buffer[0].elementId] + IdsOf(buffer[1..]);
      FieldRowsOf(cacheId, buffer[0]) + rest
  }

  /** The number of field rows for an element. */
  function CountFields(rows: seq<FieldCacheRow>, elementId: nat): nat {
    if rows == [] then 0
    else (if rows[0].elementId == elementId then 1 else 0) + CountFields(rows[1..], elementId)
  }

  lemma {:induction false} CountFieldsAppend(a: seq<FieldCacheRow>, b: seq<FieldCacheRow>, elementId: nat)
    ensures CountFields(a + b, elementId) == CountFields(a, elementId) + CountFields(b, elementId)
  {
    if a != [] {
      assert (a + b)[1..] == a[1..] + b;
      CountFieldsAppend(a[1..], b, elementId);
    } else {
      assert a + b == b;
    }
  }

  lemma {:induction false} CountFieldsAll(rows: seq<FieldCacheRow>, elementId: nat)
    requires forall i :: 0 <= i < |rows| ==> rows[i].elementId == elementId
    ensures CountFields(rows, elementId) == |rows|
  {
    if rows != [] {
      CountFieldsAll(rows[1..], elementId);
    }
  }

  lemma {:induction false} CountFieldsNone(rows: seq<FieldCacheRow>, elementId: nat)
    requires forall i :: 0 <= i < |rows| ==> rows[i].elementId != elementId
    ensures CountFields(rows, elementId) == 0
  {
    if rows != [] {
      CountFieldsNone(rows[1..], elementId);
    }
  }

  /**
   * A buffered element gets no field rows when it tracks all fields, and one
   * per tracked field otherwise.
   */
  lemma {:induction false} FieldRowsCount(cacheId: nat, buffer: seq<TrackedElement>, id: nat)
    requires Distinct(IdsOf(buffer))
    requires TrackingOf(buffer, id).Some?
    ensures CountFields(FieldRows(cacheId, buffer), id) ==
      (var tr := TrackingOf(buffer, id).value; if tr.allFields then 0 else |tr.fields|)
  {
    var ids := IdsOf(buffer);
    IdsOfFirst(buffer);
    DistinctTail(ids);
    var head := FieldRowsOf(cacheId, buffer[0]);
    var rest := FieldRows(cacheId, buffer[1..]);
    assert FieldRows(cacheId, buffer) == head + rest;
    CountFieldsAppend(head, rest, id);
    if buffer[0].elementId == id {
      CountFieldsAll(head, id);
      CountFieldsNone(rest, id);
    } else {
      CountFieldsNone(head, id);
      FieldRowsCount(cacheId, buffer[1..], id);
    }
  }

  function LinkRows(cacheId: nat, queryIds: seq<nat>): (r: seq<QueryCacheRow>)
    ensures |r| == |queryIds|
    ensures forall i :: 0 <= i < |r| ==> r[i] == QueryCacheRow(cacheId, queryIds[i])
  {
    seq(|queryIds|, i requires 0 <= i < |queryIds| => QueryCacheRow(cacheId, queryIds[i]))
  }

  function TagRows(cacheId: nat, tags: seq<string>): (r: seq<TagRow>)
    ensures |r| == |tags|
    ensures forall i :: 0 <= i < |r| ==> r[i] == TagRow(cacheId, tags[i])
  {
    seq(|tags|, i requires 0 <= i < |tags| => TagRow(cacheId, tags[i]))
  }

  // ---------------------------------------------------------------------------
  // Save

  /** The id a save uses: the existing record's for the site URI, else the next one. */
  function SaveCacheId(t: Tables, site: SiteUri): nat {
    match CacheIdOf(t.caches, site)
    case Some(id) => id
    case None => t.nextCacheId
  }

  /**
   * The tables after saving a page: its cache record is reused or created, its
   * earlier dependency rows are replaced by the buffered ones, and the stored
   * output is set.
   */
  function SaveT(t: Tables, site: SiteUri, buffer: seq<TrackedElement>, queryIds: seq<nat>, tags: seq<string>, stored: string): Tables {
    var id := SaveCacheId(t, site);
    var t1 := if CacheIdOf(t.caches, site).Some? then t else InsertCache(t, site);
    var t2 := DeleteDependencies(t1, [id]);
    t2.(elementCaches := t2.elementCaches + ElementRows(id, buffer),
        fieldCaches := t2.fieldCaches + FieldRows(id, buffer),
        queryCaches := t2.queryCaches + LinkRows(id, queryIds),
        tags := t2.tags + TagRows(id, tags),
        storage := t2.storage[site := stored])
  }

  /** Saving keeps the record invariants; the page's record is found under the id the save used. */
  lemma SaveValid(t: Tables, site: SiteUri, buffer: seq<TrackedElement>, queryIds: seq<nat>, tags: seq<string>, stored: string)
    requires Valid(t)
    ensures Valid(SaveT(t, site, buffer, queryIds, tags, stored))
    ensures CacheIdOf(SaveT(t, site, buffer, queryIds, tags, stored).caches, site) == Some(SaveCacheId(t, site))
  {
    var r := SaveT(t, site, buffer, queryIds, tags, stored);
    var t1 := if CacheIdOf(t.caches, site).Some? then t else InsertCache(t, site);
    if CacheIdOf(t.caches, site).None? {
      InsertCacheValid(t, site);
      InsertedCacheId(t.caches, t.nextCacheId, site);
    }
    SaveRecords(t, site, buffer, queryIds, tags, stored);
    ValidRecords(t1, r);
  }

  /** A save changes the cache and query records only by inserting the page's record when it has none. */
  lemma SaveRecords(t: Tables, site: SiteUri, buffer: seq<TrackedElement>, queryIds: seq<nat>, tags: seq<string>, stored: string)
    ensures var r := SaveT(t, site, buffer, queryIds, tags, stored);
      var t1 := if CacheIdOf(t.caches, site).Some? then t else InsertCache(t, site);
      && r.caches == t1.caches && r.nextCacheId == t1.nextCacheId
      && r.queries == t1.queries && r.nextQueryId == t1.nextQueryId && r.querySources == t1.querySources
  {
  }

  /** Appending the record of a site URI that has none makes it the one found. */
  lemma InsertedCacheId(caches: seq<CacheRow>, id: nat, site: SiteUri)
    requires CacheIdOf(caches, site).None?
    ensures CacheIdOf(caches + [CacheRow(id, site)], site) == Some(id)
  {
    var c := caches + [CacheRow(id, site)];
    assert c[|c| - 1].site == site;
    var found := CacheIdOf(c, site);
    var i :| 0 <= i < |c| && c[i] == CacheRow(found.value, site);
    assert i == |c| - 1;
  }

  /**
   * Saving the first page, into tables with no page yet, writes its record
   * under the next cache id, exactly the buffered rows and its bytes.
   */
  lemma SaveFirstPage(t: Tables, site: SiteUri, buffer: seq<TrackedElement>, queryIds: seq<nat>, tags: seq<string>, stored: string)
    requires t.caches == [] && t.elementCaches == [] && t.fieldCaches == [] && t.queryCaches == [] && t.tags == []
    ensures SaveT(t, site, buffer, queryIds, tags, stored) ==
      t.(caches := [CacheRow(t.nextCacheId, site)], nextCacheId := t.nextCacheId + 1,
         elementCaches := ElementRows(t.nextCacheId, buffer), fieldCaches := FieldRows(t.nextCacheId, buffer),
         queryCaches := LinkRows(t.nextCacheId, queryIds), tags := TagRows(t.nextCacheId, tags),
         storage := t.storage[site := stored])
  {
    var id := t.nextCacheId;
    var t2 := DeleteDependencies(InsertCache(t, site), [id]);
    assert t2.elementCaches == [] && t2.fieldCaches == [] && t2.queryCaches == [] && t2.tags == [];
    assert [] + ElementRows(id, buffer) == ElementRows(id, buffer);
    assert [] + FieldRows(id, buffer) == FieldRows(id, buffer);
    assert [] + LinkRows(id, queryIds) == LinkRows(id, queryIds);
    assert [] + TagRows(id, tags) == TagRows(id, tags);
  }

  /** The first save into empty tables writes the page's record under id 1, its rows and its bytes, and nothing else. */
  lemma SaveIntoEmpty(site: SiteUri, buffer: seq<TrackedElement>, queryIds: seq<nat>, tags: seq<string>, stored: string)
    ensures SaveT(Empty, site, buffer, queryIds, tags, stored) ==
      Empty.(caches := [CacheRow(1, site)], nextCacheId := 2,
             elementCaches := ElementRows(1, buffer), fieldCaches := FieldRows(1, buffer),
             queryCaches := LinkRows(1, queryIds), tags := TagRows(1, tags),
             storage := map[site := stored])
  {
    SaveFirstPage(Empty, site, buffer, queryIds, tags, stored);
    assert map[][site := stored] == map[site := stored];
  }

  /** After a save there is exactly one cache record for the site URI. */
  lemma SaveOneRecord(t: Tables, site: SiteUri, buffer: seq<TrackedElement>, queryIds: seq<nat>, tags: seq<string>, stored: string)
    requires Valid(t)
    ensures CountSite(SaveT(t, site, buffer, queryIds, tags, stored).caches, site) == 1
  {
    var r := SaveT(t, site, buffer, queryIds, tags, stored);
    SaveValid(t, site, buffer, queryIds, tags, stored);
    CountSitePresent(r.caches, site);
  }

  /** A save stores exactly the given bytes for its page and leaves other pages' bytes alone. */
  lemma SaveStores(t: Tables, site: SiteUri, buffer: seq<TrackedElement>, queryIds: seq<nat>, tags: seq<string>, stored: string, other: SiteUri)
    requires other != site
    ensures StoredOutput(SaveT(t, site, buffer, queryIds, tags, stored).storage, site) == stored
    ensures StoredOutput(SaveT(t, site, buffer, queryIds, tags, stored).storage, other) == StoredOutput(t.storage, other)
  {
  }

  /** The saved page is found by a tag lookup exactly when one of the looked-up tags was given to the save. */
  lemma {:induction false} SaveTagsFound(t: Tables, site: SiteUri, buffer: seq<TrackedElement>, queryIds: seq<nat>, tags: seq<string>, stored: string, wanted: seq<string>)
    ensures SaveCacheId(t, site) in TagCacheIds(SaveT(t, site, buffer, queryIds, tags, stored).tags, wanted) <==>
      exists k :: 0 <= k < |tags| && tags[k] in wanted
  {
    var id := SaveCacheId(t, site);
    var t1 := if CacheIdOf(t.caches, site).Some? then t else InsertCache(t, site);
    var kept := Filter(t1.tags, (r: TagRow) => r.cacheId !in [id]);
    assert SaveT(t, site, buffer, queryIds, tags, stored).tags == kept + TagRows(id, tags);
    PageTagsAfter(kept, id, tags, wanted);
  }

  /** Behind rows of other pages, a page's tag rows are found exactly when one of its tags is wanted. */
  lemma PageTagsAfter(kept: seq<TagRow>, id: nat, tags: seq<string>, wanted: seq<string>)
    requires forall i :: 0 <= i < |kept| ==> kept[i].cacheId != id
    ensures id in TagCacheIds(kept + TagRows(id, tags), wanted) <==> exists k :: 0 <= k < |tags| && tags[k] in wanted
  {
    var rows := kept + TagRows(id, tags);
    if id in TagCacheIds(rows, wanted) {
      var i :| 0 <= i < |rows| && rows[i].cacheId == id && rows[i].tag in wanted;
      assert i >= |kept|;
      assert tags[i - |kept|] in wanted;
    }
    if exists k :: 0 <= k < |tags| && tags[k] in wanted {
      var k :| 0 <= k < |tags| && tags[k] in wanted;
      assert rows[|kept| + k] == TagRow(id, tags[k]);
    }
  }

  /** The saved page depends on exactly the buffered elements. */
  lemma {:induction false} SaveElementsFound(t: Tables, site: SiteUri, buffer: seq<TrackedElement>, queryIds: seq<nat>, tags: seq<string>, stored: string, elementIds: seq<nat>)
    ensures SaveCacheId(t, site) in ElementCacheIds(SaveT(t, site, buffer, queryIds, tags, stored).elementCaches, elementIds) <==>
      exists k :: 0 <= k < |buffer| && buffer[k].elementId in elementIds
  {
    var id := SaveCacheId(t, site);
    var t1 := if CacheIdOf(t.caches, site).Some? then t else InsertCache(t, site);
    var kept := Filter(t1.elementCaches, (r: ElementCacheRow) => r.cacheId !in [id]);
    assert SaveT(t, site, buffer, queryIds, tags, stored).elementCaches == kept + ElementRows(id, buffer);
    PageElementsAfter(kept, id, buffer, elementIds);
  }

  /** Behind rows of other pages, a page's element rows are found exactly when one of its elements is wanted. */
  lemma PageElementsAfter(kept: seq<ElementCacheRow>, id: nat, buffer: seq<TrackedElement>, elementIds: seq<nat>)
    requires forall i :: 0 <= i < |kept| ==> kept[i].cacheId != id
    ensures id in ElementCacheIds(kept + ElementRows(id, buffer), elementIds) <==>
      exists k :: 0 <= k < |buffer| && buffer[k].elementId in elementIds
  {
    var rows := kept + ElementRows(id, buffer);
    if id in ElementCacheIds(rows, elementIds) {
      var i :| 0 <= i < |rows| && rows[i].cacheId == id && rows[i].elementId in elementIds;
      assert i >= |kept|;
      assert buffer[i - |kept|].elementId in elementIds;
    }
    if exists k :: 0 <= k < |buffer| && buffer[k].elementId in elementIds {
      var k :| 0 <= k < |buffer| && buffer[k].elementId in elementIds;
      assert rows[|kept| + k].cacheId == id;
    }
  }

  /** The saved page is linked to exactly the buffered query records. */
  lemma {:induction false} SaveLinksFound(t: Tables, site: SiteUri, buffer: seq<TrackedElement>, queryIds: seq<nat>, tags: seq<string>, stored: string, queryId: nat, ignore: seq<nat>)
    requires SaveCacheId(t, site) !in ignore
    ensures queryId in queryIds ==> HasCacheLink(SaveT(t, site, buffer, queryIds, tags, stored).queryCaches, queryId, ignore)
    ensures QueryCacheRow(SaveCacheId(t, site), queryId) in SaveT(t, site, buffer, queryIds, tags, stored).queryCaches <==> queryId in queryIds
  {
    var id := SaveCacheId(t, site);
    var rows := SaveT(t, site, buffer, queryIds, tags, stored).queryCaches;
    var t1 := if CacheIdOf(t.caches, site).Some? then t else InsertCache(t, site);
    var kept := Filter(t1.queryCaches, (r: QueryCacheRow) => r.cacheId !in [id]);
    assert rows == kept + LinkRows(id, queryIds);
    if queryId in queryIds {
      var k :| 0 <= k < |queryIds| && queryIds[k] == queryId;
      assert rows[|kept| + k] == QueryCacheRow(id, queryId);
    }
    if QueryCacheRow(id, queryId) in rows {
      var i :| 0 <= i < |rows| && rows[i] == QueryCacheRow(id, queryId);
      assert i >= |kept|;
      assert queryIds[i - |kept|] == queryId;
    }
  }

  /** Rows of other pages, and every cache record, survive a save. */
  lemma SaveKeepsOthers(t: Tables, site: SiteUri, buffer: seq<TrackedElement>, queryIds: seq<nat>, tags: seq<string>, stored: string)
    ensures forall i :: 0 <= i < |t.tags| && t.tags[i].cacheId != SaveCacheId(t, site) ==>
      t.tags[i] in SaveT(t, site, buffer, queryIds, tags, stored).tags
    ensures forall i :: 0 <= i < |t.elementCaches| && t.elementCaches[i].cacheId != SaveCacheId(t, site) ==>
      t.elementCaches[i] in SaveT(t, site, buffer, queryIds, tags, stored).elementCaches
    ensures forall i :: 0 <= i < |t.queryCaches| && t.queryCaches[i].cacheId != SaveCacheId(t, site) ==>
      t.queryCaches[i] in SaveT(t, site, buffer, queryIds, tags, stored).queryCaches
    ensures forall i :: 0 <= i < |t.fieldCaches| && t.fieldCaches[i].cacheId != SaveCacheId(t, site) ==>
      t.fieldCaches[i] in SaveT(t, site, buffer, queryIds, tags, stored).fieldCaches
    ensures forall i :: 0 <= i < |t.caches| ==> t.caches[i] in SaveT(t, site, buffer, queryIds, tags, stored).caches
    ensures SaveT(t, site, buffer, queryIds, tags, stored).queries == t.queries
    ensures SaveT(t, site, buffer, queryIds, tags, stored).querySources == t.querySources
  {
    var id := SaveCacheId(t, site);
    var t1 := if CacheIdOf(t.caches, site).Some? then t else InsertCache(t, site);
    var r := SaveT(t, site, buffer, queryIds, tags, stored);
    assert forall i :: 0 <= i < |t.caches| ==> t.caches[i] in t1.caches;
    assert r.tags == Filter(t.tags, (x: TagRow) => x.cacheId !in [id]) + TagRows(id, tags);
    assert r.elementCaches == Filter(t.elementCaches, (x: ElementCacheRow) => x.cacheId !in [id]) + ElementRows(id, buffer);
    assert r.fieldCaches == Filter(t.fieldCaches, (x: FieldCacheRow) => x.cacheId !in [id]) + FieldRows(id, buffer);
    assert r.queryCaches == Filter(t.queryCaches, (x: QueryCacheRow) => x.cacheId !in [id]) + LinkRows(id, queryIds);
  }

  /**
   * Looking up tags in the tag rows of one page finds that page exactly when
   * one of its tags is looked up, and finds it once.
   */
  lemma OnePageTags(cacheId: nat, tags: seq<string>, wanted: seq<string>)
    ensures TagCacheIds(TagRows(cacheId, tags), wanted) ==
      if exists k :: 0 <= k < |tags| && tags[k] in wanted then [cacheId] else []
  {
    var r := TagCacheIds(TagRows(cacheId, tags), wanted);
    if exists k :: 0 <= k < |tags| && tags[k] in wanted {
      var k :| 0 <= k < |tags| && tags[k] in wanted;
      assert TagRows(cacheId, tags)[k].tag in wanted;
      assert cacheId in r;
      var ids := TagRowCacheIds(TagRows(cacheId, tags), wanted);
      assert forall i :: 0 <= i < |ids| ==> ids[i] in ids;
      DedupAllSame(ids, cacheId);
    }
  }

  // ---------------------------------------------------------------------------
  // Query records

  function SourceRows(queryId: nat, sourceIds: seq<nat>): (r: seq<SourceRow>)
    ensures |r| == |sourceIds|
    ensures forall i :: 0 <= i < |r| ==> r[i] == SourceRow(queryId, sourceIds[i])
  {
    seq(|sourceIds|, i requires 0 <= i < |sourceIds| => SourceRow(queryId, sourceIds[i]))
  }

  /**
   * Lookup-or-insert of a signature: a known signature returns its record's
   * id; a new one is inserted under the next id together with its source rows.
   */
  function RecordQueryT(t: Tables, sig: Signature): (Tables, nat) {
    match QueryIdOf(t.queries, sig)
    case Some(id) => (t, id)
    case None =>
      var id := t.nextQueryId;
      (t.(queries := t.queries + [QueryRow(id, sig)],
          nextQueryId := id + 1,
          querySources := t.querySources + SourceRows(id, SourceIds(sig))), id)
  }

  /** The signatures of the query records, in table order. */
  function QuerySigs(queries: seq<QueryRow>): (r: seq<Signature>)
    ensures |r| == |queries|
    ensures forall i :: 0 <= i < |r| ==> r[i] == queries[i].sig
  {
    seq(|queries|, i requires 0 <= i < |queries| => queries[i].sig)
  }

  /** The source ids of the source rows, in table order. */
  function SourceColumn(rows: seq<SourceRow>): (r: seq<nat>)
    ensures |r| == |rows|
    ensures forall i :: 0 <= i < |r| ==> r[i] == rows[i].sourceId
  {
    seq(|rows|, i requires 0 <= i < |rows| => rows[i].sourceId)
  }

  /** The source rows stored for a new record add its source ids to the column, in order. */
  lemma SourceColumnAppend(rows: seq<SourceRow>, queryId: nat, sourceIds: seq<nat>)
    ensures SourceColumn(rows + SourceRows(queryId, sourceIds)) == SourceColumn(rows) + sourceIds
  {
  }

  /**
   * Recording adds a record exactly when the signature has none, so no
   * signature is ever recorded twice; source rows are added only with a new
   * record.
   */
  lemma RecordQuerySigs(t: Tables, sig: Signature)
    ensures sig in QuerySigs(t.queries) ==>
      RecordQueryT(t, sig).0 == t
    ensures sig !in QuerySigs(t.queries) ==>
      && QuerySigs(RecordQueryT(t, sig).0.queries) == QuerySigs(t.queries) + [sig]
      && RecordQueryT(t, sig).0.querySources == t.querySources + SourceRows(t.nextQueryId, SourceIds(sig))
    ensures Distinct(QuerySigs(t.queries)) ==> Distinct(QuerySigs(RecordQueryT(t, sig).0.queries))
  {
    var sigs := QuerySigs(t.queries);
    if sig in sigs {
      var i :| 0 <= i < |sigs| && sigs[i] == sig;
      assert t.queries[i].sig == sig;
    } else {
      assert QueryIdOf(t.queries, sig).None?;
    }
  }

  /** Recording keeps the invariants and the returned id names a record of the signature. */
  lemma RecordQueryValid(t: Tables, sig: Signature)
    requires Valid(t)
    ensures Valid(RecordQueryT(t, sig).0)
    ensures QueryIdOf(RecordQueryT(t, sig).0.queries, sig) == Some(RecordQueryT(t, sig).1)
  {
    if QueryIdOf(t.queries, sig).None? {
      var id := t.nextQueryId;
      var rows := SourceRows(id, SourceIds(sig));
      assert RecordQueryT(t, sig).0 ==
        t.(queries := t.queries + [QueryRow(id, sig)], nextQueryId := id + 1, querySources := t.querySources + rows);
      QueryIdOfAppend(t.queries, QueryRow(id, sig));
      InsertQueryValid(t, sig, rows);
    }
  }

  /** Recording the same signature again changes nothing and returns the same id. */
  lemma RecordQueryIdempotent(t: Tables, sig: Signature)
    requires Valid(t)
    ensures RecordQueryT(RecordQueryT(t, sig).0, sig) == RecordQueryT(t, sig)
  {
    RecordQueryValid(t, sig);
  }

  /** A newly recorded signature gets exactly its source ids as source rows. */
  lemma {:induction false} RecordQuerySources(t: Tables, sig: Signature)
    requires Valid(t) && QueryIdOf(t.queries, sig).None?
    ensures forall x :: x in SourcesOf(RecordQueryT(t, sig).0.querySources, RecordQueryT(t, sig).1) <==> x in SourceIds(sig)
  {
    var id := t.nextQueryId;
    var ids := SourceIds(sig);
    assert RecordQueryT(t, sig).0.querySources == t.querySources + SourceRows(id, ids);
    forall x ensures x in SourcesOf(t.querySources + SourceRows(id, ids), id) <==> x in ids {
      NewRecordSources(t.querySources, id, ids, x);
    }
  }

  /** Source rows appended for a record id no earlier row uses are exactly that record's sources. */
  lemma NewRecordSources(rows: seq<SourceRow>, id: nat, ids: seq<nat>, x: nat)
    requires forall i :: 0 <= i < |rows| ==> rows[i].queryId < id
    ensures x in SourcesOf(rows + SourceRows(id, ids), id) <==> x in ids
  {
    if x in SourcesOf(rows + SourceRows(id, ids), id) {
      NewRecordSourceListed(rows, id, ids, x);
    }
    if x in ids {
      NewRecordSourceFound(rows, id, ids, x);
    }
  }

  /** A source found for the new record is one of the listed ids. */
  lemma NewRecordSourceListed(rows: seq<SourceRow>, id: nat, ids: seq<nat>, x: nat)
    requires forall i :: 0 <= i < |rows| ==> rows[i].queryId < id
    requires x in SourcesOf(rows + SourceRows(id, ids), id)
    ensures x in ids
  {
    var all := rows + SourceRows(id, ids);
    var i :| 0 <= i < |all| && all[i] == SourceRow(id, x);
    assert i >= |rows|;
    assert all[i] == SourceRows(id, ids)[i - |rows|];
  }

  /** Each listed id is found as a source of the new record. */
  lemma NewRecordSourceFound(rows: seq<SourceRow>, id: nat, ids: seq<nat>, x: nat)
    requires x in ids
    ensures x in SourcesOf(rows + SourceRows(id, ids), id)
  {
    var all := rows + SourceRows(id, ids);
    var k :| 0 <= k < |ids| && ids[k] == x;
    assert all[|rows| + k] == SourceRow(id, x);
  }
}
