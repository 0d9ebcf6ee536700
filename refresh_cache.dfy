/**
 * The refresh side: the engine accumulates change notifications into a
 * pending batch, and a refresh job resolves the batch to cache ids and purges
 * them. Jobs run synchronously here.
 */
module Refresh {
  import opened Wrappers
  import opened Elements
  import opened T = Tables
  import opened Invalidation
  import opened Store

  /** A queued refresh: cache ids to purge and a batch of changed elements to resolve. */
  class RefreshCacheJob {
    var cacheIds: seq<nat>
    const elements: Pending

    constructor(cacheIds: seq<nat>, elements: Pending)
      ensures this.cacheIds == cacheIds && this.elements == elements
    {
      this.cacheIds := cacheIds;
      this.elements := elements;
    }

    /**
     * Resolves the batch type by type into the job's cache ids, then purges
     * those pages.
     */
    method Execute(db: Database)
      modifies this, db
      ensures cacheIds == ResolveJob(old(db.State()), old(cacheIds), elements)
      ensures db.State() == T.Purge(old(db.State()), cacheIds)
    {
      var found := cacheIds;
      var k := 0;
      while k < |AllTypes|
        invariant 0 <= k <= |AllTypes|
        invariant ResolveTypes(db.State(), AllTypes[k..], elements, found) ==
                  ResolveTypes(db.State(), AllTypes, elements, cacheIds)
      {
        var ty := AllTypes[k];
        assert AllTypes[k..][1..] == AllTypes[k + 1..];
        if ty in elements {
          found := found + ResolveType(db.State(), ty, elements[ty], found);
        }
        k := k + 1;
      }
      cacheIds := Dedup(found);
      db.Purge(cacheIds);
    }
  }

  class RefreshCache {
    const db: Database
    /** The base URL of each site, ending in '/'. */
    const siteUrls: map<int, string>
    var elements: Pending
    var cacheIds: seq<nat>
    var batchMode: bool

    predicate Valid()
      reads this
    {
      PendingValid(elements)
    }

    constructor(db: Database, siteUrls: map<int, string>)
      ensures this.db == db && this.siteUrls == siteUrls
      ensures elements == map[] && cacheIds == [] && !batchMode
      ensures Valid()
    {
      this.db := db;
      this.siteUrls := siteUrls;
      elements := map[];
      cacheIds := [];
      batchMode := false;
    }

    /** Clears the pending state. */
    method Reset()
      modifies this
      ensures elements == map[] && cacheIds == [] && batchMode == old(batchMode)
      ensures Valid()
    {
      elements := map[];
      cacheIds := [];
    }

    /** The pages that depend directly on any of the given elements. */
    method GetElementCacheIds(elementIds: seq<nat>) returns (ids: seq<nat>)
      ensures ids == ElementCacheIds(db.elementCaches, elementIds)
    {
      ids := ElementCacheIds(db.elementCaches, elementIds);
    }

    /** The query records of a type that pages depend on and whose sources admit the given sources. */
    method GetElementTypeQueries(ty: ElementType, sourceIds: seq<nat>, ignore: seq<nat>) returns (rows: seq<QueryRow>)
      ensures rows == ElementTypeQueries(db.State(), ty, sourceIds, ignore)
    {
      rows := ElementTypeQueries(db.State(), ty, sourceIds, ignore);
    }

    /**
     * Runs a refresh job with the pending cache ids and elements, when there
     * are any, and clears the pending state.
     */
    method Refresh()
      modifies this, db
      ensures elements == map[] && cacheIds == [] && batchMode == old(batchMode)
      ensures Valid()
      ensures db.State() == T.Purge(old(db.State()), ResolveJob(old(db.State()), old(cacheIds), old(elements)))
    {
      if cacheIds == [] && elements == map[] {
        EmptyJobResolvesNothing(db.State());
        PurgeNothing(db.State());
        return;
      }
      var job := new RefreshCacheJob(cacheIds, elements);
      job.Execute(db);
      Reset();
    }

    /**
     * Takes a change notification: the element's type gets a pending slot, the
     * element joins it when the change can alter cached output, and outside
     * batch mode the batch is refreshed at once.
     */
    method AddElement(change: ElementChange, now: int)
      requires Valid()
      modifies this, db
      ensures Valid()
      ensures batchMode == old(batchMode)
      ensures old(batchMode) ==>
        elements == AddChange(old(elements), change, now) && cacheIds == old(cacheIds) && db.State() == old(db.State())
      ensures !old(batchMode) ==>
        && elements == map[] && cacheIds == []
        && db.State() == T.Purge(old(db.State()), ResolveJob(old(db.State()), old(cacheIds), AddChange(old(elements), change, now)))
    {
      elements := AddChange(elements, change, now);
      if !batchMode {
        assert change.element.elementType in elements;
        Refresh();
      }
    }

    /** Records the element's next scheduled visibility change as its expiry row. */
    method AddElementExpiryDates(element: Element, now: int)
      modifies db
      ensures db.State() == old(db.State()).(expiryDates := ScheduleExpiry(old(db.expiryDates), element, now))
    {
      var next := NextExpiryDate(element, now);
      if next.Some? {
        db.SetExpiryDate(element.id, next.value);
      }
    }

    /** Refreshes the cached pages whose URLs are given, exactly or as a prefix ending in '*'. */
    method RefreshCachedUrls(urls: seq<string>)
      requires Valid()
      modifies this, db
      ensures elements == map[] && cacheIds == [] && batchMode == old(batchMode)
      ensures Valid()
      ensures db.State() == T.Purge(old(db.State()),
        ResolveJob(old(db.State()), old(cacheIds) + UrlCacheIds(old(db.caches), siteUrls, urls), old(elements)))
    {
      cacheIds := cacheIds + UrlCacheIds(db.caches, siteUrls, urls);
      Refresh();
    }

    /** Refreshes the cached pages saved with any of the given tags. */
    method RefreshCacheTags(tags: seq<string>)
      requires Valid()
      modifies this, db
      ensures elements == map[] && cacheIds == [] && batchMode == old(batchMode)
      ensures Valid()
      ensures db.State() == T.Purge(old(db.State()),
        ResolveJob(old(db.State()), old(cacheIds) + TagCacheIds(old(db.tags), tags), old(elements)))
    {
      cacheIds := cacheIds + TagCacheIds(db.tags, tags);
      Refresh();
    }
  }
}
