/**
 * The refresh side as functions: how a change notification updates the
 * pending batch, which pages a batch resolves to, and the expiry row an
 * element's scheduling dates produce.
 */
module Invalidation {
  import opened Wrappers
  import opened Strings
  import opened Elements
  import opened Tables

  /** The pending changes of one element type: changed element ids and their source ids, each once. */
  datatype ChangedElements = ChangedElements(elementIds: seq<nat>, sourceIds: seq<nat>)

  const NoChanges: ChangedElements := ChangedElements([], [])

  type Pending = map<ElementType, ChangedElements>

  predicate PendingValid(elements: Pending) {
    forall ty :: ty in elements ==> Distinct(elements[ty].elementIds) && Distinct(elements[ty].sourceIds)
  }

  /** The slot of an element type, empty when the type has none. */
  function Slot(elements: Pending, ty: ElementType): ChangedElements {
    if ty in elements then elements[ty] else NoChanges
  }

  /**
   * `after` is `before` with element `e` merged in: it holds the element's id,
   * and its source id for types that have one, keeps every earlier id and
   * gains no other.
   */
  predicate MergedFrom(before: ChangedElements, after: ChangedElements, e: Element) {
    && e.id in after.elementIds
    && (SourceIdOf(e).Some? ==> e.sourceId in after.sourceIds)
    && (SourceIdOf(e).None? ==> after.sourceIds == before.sourceIds)
    && (forall i :: 0 <= i < |before.elementIds| ==> before.elementIds[i] in after.elementIds)
    && (forall i :: 0 <= i < |before.sourceIds| ==> before.sourceIds[i] in after.sourceIds)
    && (forall i :: 0 <= i < |after.elementIds| ==> after.elementIds[i] == e.id || after.elementIds[i] in before.elementIds)
    && (forall i :: 0 <= i < |after.sourceIds| ==> after.sourceIds[i] == e.sourceId || after.sourceIds[i] in before.sourceIds)
  }

  /** A slot with an element (and its source, for types that have one) merged in. */
  function Merged(slot: ChangedElements, e: Element): (r: ChangedElements)
    requires Distinct(slot.elementIds) && Distinct(slot.sourceIds)
    ensures Distinct(r.elementIds) && Distinct(r.sourceIds)
    ensures MergedFrom(slot, r, e)
  {
    ChangedElements(
      AppendNew(slot.elementIds, e.id),
      match SourceIdOf(e)
      case Some(s) => AppendNew(slot.sourceIds, s)
      case None => slot.sourceIds)
  }

  /**
   * The pending batch after a change notification: the element's type gets a
   * slot, and the element and its source id are merged into that slot when
   * the change can alter cached output.
   */
  function AddChange(elements: Pending, c: ElementChange, now: int): (r: Pending)
    requires PendingValid(elements)
    ensures PendingValid(r)
    ensures r.Keys == elements.Keys + {c.element.elementType}
    ensures forall ty :: ty in elements && ty != c.element.elementType ==> r[ty] == elements[ty]
    ensures !IsRefreshable(c, now) ==> r[c.element.elementType] == Slot(elements, c.element.elementType)
    ensures IsRefreshable(c, now) ==> MergedFrom(Slot(elements, c.element.elementType), r[c.element.elementType], c.element)
  {
    var ty := c.element.elementType;
    var slot := Slot(elements, ty);
    elements[ty := if IsRefreshable(c, now) then Merged(slot, c.element) else slot]
  }

  /** Notifying the same change twice leaves the batch as notifying it once. */
  lemma AddChangeIdempotent(elements: Pending, c: ElementChange, now: int)
    requires PendingValid(elements)
    ensures AddChange(AddChange(elements, c, now), c, now) == AddChange(elements, c, now)
  {
    var once := AddChange(elements, c, now);
    var ty := c.element.elementType;
    assert Slot(once, ty) == once[ty];
    if IsRefreshable(c, now) {
      var slot := Slot(elements, ty);
      assert Merged(Merged(slot, c.element), c.element) == Merged(slot, c.element);
    }
    assert once[ty := once[ty]] == once;
  }

  // ---------------------------------------------------------------------------
  // Source tags

  /** The tag naming one source of an element type, such as 'sectionId:1'. */
  function SourceTag(attribute: string, sourceId: nat): string {
    attribute + ":" + NatToString(sourceId)
  }

  /** The tags naming the given sources of an element type; types without a source attribute have none. */
  function SourceTags(ty: ElementType, sourceIds: seq<nat>): (r: seq<string>)
    ensures SourceAttribute(ty).None? ==> r == []
    ensures SourceAttribute(ty).Some? ==>
      |r| == |sourceIds| && forall i :: 0 <= i < |r| ==> r[i] == SourceTag(SourceAttribute(ty).value, sourceIds[i])
  {
    match SourceAttribute(ty)
    case None => []
    case Some(attribute) => seq(|sourceIds|, i requires 0 <= i < |sourceIds| => SourceTag(attribute, sourceIds[i]))
  }

  /** Source tags are unambiguous: the tag of a source is among a batch's tags exactly when the source is. */
  lemma {:induction false} SourceTagsExact(ty: ElementType, sourceIds: seq<nat>, n: nat)
    requires SourceAttribute(ty).Some?
    ensures SourceTag(SourceAttribute(ty).value, n) in SourceTags(ty, sourceIds) <==> n in sourceIds
  {
    var attribute := SourceAttribute(ty).value;
    var tags := SourceTags(ty, sourceIds);
    if SourceTag(attribute, n) in tags {
      var i :| 0 <= i < |tags| && tags[i] == SourceTag(attribute, n);
      var prefix := attribute + ":";
      assert prefix + NatToString(sourceIds[i]) == prefix + NatToString(n);
      assert NatToString(sourceIds[i]) == (prefix + NatToString(sourceIds[i]))[|prefix|..];
      assert NatToString(n) == (prefix + NatToString(n))[|prefix|..];
      NatToStringInjective(sourceIds[i], n);
    }
    if n in sourceIds {
      var i :| 0 <= i < |sourceIds| && sourceIds[i] == n;
      assert tags[i] == SourceTag(attribute, n);
    }
  }

  // ---------------------------------------------------------------------------
  // Resolution

  /**
   * The pages a change of elements of one type affects: those depending on a
   * changed element, those tagged with a changed source, and those depending
   * on a query of that type whose sources admit the change. `found` lists
   * pages already known to be affected, whose queries need no second look.
   */
  function ResolveType(t: Tables, ty: ElementType, changed: ChangedElements, found: seq<nat>): seq<nat> {
    ElementCacheIds(t.elementCaches, changed.elementIds)
      + TagCacheIds(t.tags, SourceTags(ty, changed.sourceIds))
      + QueryCacheIds(t.queryCaches, ElementTypeQueries(t, ty, changed.sourceIds, found))
  }

  /** Whether a change of elements of one type affects a page, independently of what was found before. */
  predicate Affects(t: Tables, ty: ElementType, changed: ChangedElements, c: nat) {
    || c in ElementCacheIds(t.elementCaches, changed.elementIds)
    || c in TagCacheIds(t.tags, SourceTags(ty, changed.sourceIds))
    || c in QueryCacheIds(t.queryCaches, ElementTypeQueries(t, ty, changed.sourceIds, []))
  }

  /** Queries that skip the found pages link to no page that the full list of queries does not. */
  lemma QueriesSkippingFoundFewer(t: Tables, ty: ElementType, sourceIds: seq<nat>, found: seq<nat>, c: nat)
    requires c in QueryCacheIds(t.queryCaches, ElementTypeQueries(t, ty, sourceIds, found))
    ensures c in QueryCacheIds(t.queryCaches, ElementTypeQueries(t, ty, sourceIds, []))
  {
    var links := t.queryCaches;
    var withFound := ElementTypeQueries(t, ty, sourceIds, found);
    var i :| 0 <= i < |links| && links[i].cacheId == c && LinksTo(links[i], withFound);
    var q :| q in withFound && q.id == links[i].queryId;
    var j :| 0 <= j < |links| && links[j].queryId == q.id && links[j].cacheId !in found;
    assert HasCacheLink(links, q.id, []);
    assert q in ElementTypeQueries(t, ty, sourceIds, []);
  }

  /** A page not yet found is still reached through the queries that skip the found pages. */
  lemma QueriesSkippingFoundEnough(t: Tables, ty: ElementType, sourceIds: seq<nat>, found: seq<nat>, c: nat)
    requires c !in found
    requires c in QueryCacheIds(t.queryCaches, ElementTypeQueries(t, ty, sourceIds, []))
    ensures c in QueryCacheIds(t.queryCaches, ElementTypeQueries(t, ty, sourceIds, found))
  {
    var links := t.queryCaches;
    var without := ElementTypeQueries(t, ty, sourceIds, []);
    var i :| 0 <= i < |links| && links[i].cacheId == c && LinksTo(links[i], without);
    var q :| q in without && q.id == links[i].queryId;
    assert HasCacheLink(links, q.id, found);
    assert q in ElementTypeQueries(t, ty, sourceIds, found);
  }

  /** Skipping the queries of pages already found loses no page. */
  lemma ResolveTypeExact(t: Tables, ty: ElementType, changed: ChangedElements, found: seq<nat>, c: nat)
    ensures c in found + ResolveType(t, ty, changed, found) <==> c in found || Affects(t, ty, changed, c)
  {
    if c in QueryCacheIds(t.queryCaches, ElementTypeQueries(t, ty, changed.sourceIds, found)) {
      QueriesSkippingFoundFewer(t, ty, changed.sourceIds, found, c);
    }
    if c !in found && c in QueryCacheIds(t.queryCaches, ElementTypeQueries(t, ty, changed.sourceIds, [])) {
      QueriesSkippingFoundEnough(t, ty, changed.sourceIds, found, c);
    }
  }

  /** The pages of a batch, type by type in the given order, added to `found`. */
  function ResolveTypes(t: Tables, types: seq<ElementType>, elements: Pending, found: seq<nat>): seq<nat>
    decreases |types|
  {
    if types == [] then found
    else
      var ty := types[0];
      var next := if ty in elements then found + ResolveType(t, ty, elements[ty], found) else found;
      ResolveTypes(t, types[1..], elements, next)
  }

  /** A page results from resolving types exactly when it was found already or one of those types affects it. */
  lemma {:induction false} ResolveTypesExact(t: Tables, types: seq<ElementType>, elements: Pending, found: seq<nat>, c: nat)
    ensures c in ResolveTypes(t, types, elements, found) <==>
      c in found || exists k :: 0 <= k < |types| && types[k] in elements && Affects(t, types[k], elements[types[k]], c)
    decreases |types|
  {
    if types != [] {
      var ty := types[0];
      var next := if ty in elements then found + ResolveType(t, ty, elements[ty], found) else found;
      if ty in elements {
        ResolveTypeExact(t, ty, elements[ty], found, c);
      }
      ResolveTypesExact(t, types[1..], elements, next, c);
      SomeTypeAffectsCons(t, types, elements, c);
    }
  }

  /** Some type of a non-empty list affects page `c` exactly when its first type does or some later one does. */
  lemma SomeTypeAffectsCons(t: Tables, types: seq<ElementType>, elements: Pending, c: nat)
    requires types != []
    ensures (exists k :: 0 <= k < |types| && types[k] in elements && Affects(t, types[k], elements[types[k]], c)) <==>
      (types[0] in elements && Affects(t, types[0], elements[types[0]], c)) ||
      exists k :: 0 <= k < |types[1..]| && types[1..][k] in elements && Affects(t, types[1..][k], elements[types[1..][k]], c)
  {
    if exists k :: 0 <= k < |types[1..]| && types[1..][k] in elements && Affects(t, types[1..][k], elements[types[1..][k]], c) {
      var k :| 0 <= k < |types[1..]| && types[1..][k] in elements && Affects(t, types[1..][k], elements[types[1..][k]], c);
      assert types[k + 1] == types[1..][k];
    }
    if exists k :: 0 <= k < |types| && types[k] in elements && Affects(t, types[k], elements[types[k]], c) {
      var k :| 0 <= k < |types| && types[k] in elements && Affects(t, types[k], elements[types[k]], c);
      if k > 0 {
        assert types[1..][k - 1] == types[k];
      }
    }
  }

  /** The pages a refresh job purges: its own cache ids and those its element batch affects, each once. */
  function ResolveJob(t: Tables, cacheIds: seq<nat>, elements: Pending): (r: seq<nat>)
    ensures Distinct(r)
  {
    Dedup(ResolveTypes(t, AllTypes, elements, cacheIds))
  }

  /** A page is purged exactly when the job names it or some changed element type affects it. */
  lemma ResolveJobExact(t: Tables, cacheIds: seq<nat>, elements: Pending, c: nat)
    ensures c in ResolveJob(t, cacheIds, elements) <==>
      c in cacheIds || exists ty :: ty in elements && Affects(t, ty, elements[ty], c)
  {
    DedupMembers(ResolveTypes(t, AllTypes, elements, cacheIds));
    ResolveTypesExact(t, AllTypes, elements, cacheIds, c);
    if exists ty :: ty in elements && Affects(t, ty, elements[ty], c) {
      var ty :| ty in elements && Affects(t, ty, elements[ty], c);
      AllTypesComplete(ty);
      var k :| 0 <= k < |AllTypes| && AllTypes[k] == ty;
    }
  }

  /** Whether some changed element type of the batch affects the page. */
  predicate BatchAffects(t: Tables, elements: Pending, c: nat) {
    exists ty :: ty in elements && Affects(t, ty, elements[ty], c)
  }

  /** A job that names no pages, and whose batch affects exactly one page, purges exactly that page. */
  lemma ResolveJobSingle(t: Tables, elements: Pending, c: nat)
    requires forall d :: BatchAffects(t, elements, d) <==> d == c
    ensures ResolveJob(t, [], elements) == [c]
  {
    var all := ResolveTypes(t, AllTypes, elements, []);
    DedupMembers(all);
    forall d ensures d in all <==> d == c {
      ResolveJobExact(t, [], elements, d);
      assert d in ResolveJob(t, [], elements) <==> BatchAffects(t, elements, d);
    }
    assert c in all;
    assert forall i :: 0 <= i < |all| ==> all[i] in all;
    DedupAllSame(all, c);
  }

  /** A job with nothing in it purges nothing. */
  lemma EmptyJobResolvesNothing(t: Tables)
    ensures ResolveJob(t, [], map[]) == []
  {
    ResolveTypesNothing(t, AllTypes, []);
    assert Dedup<nat>([]) == [];
  }

  /** Resolving the types of an empty batch finds nothing more. */
  lemma {:induction false} ResolveTypesNothing(t: Tables, types: seq<ElementType>, found: seq<nat>)
    ensures ResolveTypes(t, types, map[], found) == found
    decreases |types|
  {
    if types != [] {
      ResolveTypesNothing(t, types[1..], found);
    }
  }

  // ---------------------------------------------------------------------------
  // Expiry

  /**
   * The expiry rows after an element is scheduled: its row holds its next
   * visibility change when it has one; otherwise the rows are untouched.
   */
  function ScheduleExpiry(rows: map<nat, int>, e: Element, now: int): (r: map<nat, int>)
    ensures NextExpiryDate(e, now).Some? ==> r == rows[e.id := NextExpiryDate(e, now).value]
    ensures NextExpiryDate(e, now).None? ==> r == rows
  {
    match NextExpiryDate(e, now)
    case Some(d) => rows[e.id := d]
    case None => rows
  }

  /**
   * The element's expiry row holds the earliest of its dates still in the
   * future, and no other element's row changes.
   */
  lemma ScheduleExpiryEarliest(rows: map<nat, int>, e: Element, now: int)
    requires FutureDate(e.postDate, now).Some? || FutureDate(e.expiryDate, now).Some?
    ensures e.id in ScheduleExpiry(rows, e, now)
    ensures ScheduleExpiry(rows, e, now)[e.id] > now
    ensures FutureDate(e.postDate, now).Some? ==> ScheduleExpiry(rows, e, now)[e.id] <= e.postDate.value
    ensures FutureDate(e.expiryDate, now).Some? ==> ScheduleExpiry(rows, e, now)[e.id] <= e.expiryDate.value
    ensures Some(ScheduleExpiry(rows, e, now)[e.id]) == e.postDate || Some(ScheduleExpiry(rows, e, now)[e.id]) == e.expiryDate
    ensures forall id :: id in rows && id != e.id ==> id in ScheduleExpiry(rows, e, now) && ScheduleExpiry(rows, e, now)[id] == rows[id]
  {
  }
}
