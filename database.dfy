/**
 * The engine's tables and its cache storage as one mutable object. Each
 * method is one read or one write the services issue, and states the new
 * contents as the corresponding function of the old contents.
 */
module Store {
  import opened Wrappers
  import opened SignatureCodec
  import opened T = Tables

  class Database {
    var caches: seq<CacheRow>
    var nextCacheId: nat
    var elementCaches: seq<ElementCacheRow>
    var fieldCaches: seq<FieldCacheRow>
    var queries: seq<QueryRow>
    var nextQueryId: nat
    var querySources: seq<SourceRow>
    var queryCaches: seq<QueryCacheRow>
    var tags: seq<TagRow>
    var expiryDates: map<nat, int>
    var storage: map<SiteUri, string>

    /** The contents of every table and of the cache storage. */
    function State(): T.Tables
      reads this
    {
      T.Tables(caches, nextCacheId, elementCaches, fieldCaches, queries, nextQueryId,
               querySources, queryCaches, tags, expiryDates, storage)
    }

    /** Empty tables, ids counting from 1, nothing stored. */
    constructor()
      ensures State() == T.Empty
    {
      caches, nextCacheId := [], 1;
      elementCaches, fieldCaches := [], [];
      queries, nextQueryId, querySources := [], 1, [];
      queryCaches, tags := [], [];
      expiryDates, storage := map[], map[];
    }

    /** The id of the cache record for a site URI, scanning the records in order. */
    method FindCacheId(site: SiteUri) returns (id: Option<nat>)
      ensures id == CacheIdOf(caches, site)
    {
      var i := 0;
      while i < |caches|
        invariant 0 <= i <= |caches|
        invariant CacheIdOf(caches[i..], site) == CacheIdOf(caches, site)
      {
        assert caches[i..][0] == caches[i];
        if caches[i].site == site {
          return Some(caches[i].id);
        }
        assert caches[i..][1..] == caches[i + 1..];
        i := i + 1;
      }
      return None;
    }

    method InsertCache(site: SiteUri) returns (id: nat)
      modifies this
      ensures id == old(nextCacheId)
      ensures State() == T.InsertCache(old(State()), site)
    {
      id := nextCacheId;
      caches := caches + [CacheRow(id, site)];
      nextCacheId := nextCacheId + 1;
    }

    method DeleteDependencies(ids: seq<nat>)
      modifies this
      ensures State() == T.DeleteDependencies(old(State()), ids)
    {
      elementCaches := Filter(elementCaches, (r: ElementCacheRow) => r.cacheId !in ids);
      fieldCaches := Filter(fieldCaches, (r: FieldCacheRow) => r.cacheId !in ids);
      queryCaches := Filter(queryCaches, (r: QueryCacheRow) => r.cacheId !in ids);
      tags := Filter(tags, (r: TagRow) => r.cacheId !in ids);
    }

    method InsertElementCaches(rows: seq<ElementCacheRow>)
      modifies this
      ensures State() == old(State()).(elementCaches := old(elementCaches) + rows)
    {
      elementCaches := elementCaches + rows;
    }

    method InsertFieldCaches(rows: seq<FieldCacheRow>)
      modifies this
      ensures State() == old(State()).(fieldCaches := old(fieldCaches) + rows)
    {
      fieldCaches := fieldCaches + rows;
    }

    method InsertQueryCaches(rows: seq<QueryCacheRow>)
      modifies this
      ensures State() == old(State()).(queryCaches := old(queryCaches) + rows)
    {
      queryCaches := queryCaches + rows;
    }

    method InsertTags(rows: seq<TagRow>)
      modifies this
      ensures State() == old(State()).(tags := old(tags) + rows)
    {
      tags := tags + rows;
    }

    /** The cache storage's set: the bytes for a site URI are replaced. */
    method SetStored(site: SiteUri, output: string)
      modifies this
      ensures State() == old(State()).(storage := old(storage)[site := output])
    {
      storage := storage[site := output];
    }

    /** The cache storage's get: the stored bytes, or '' when there are none. */
    method Get(site: SiteUri) returns (output: string)
      ensures output == StoredOutput(storage, site)
      ensures site !in storage ==> output == ""
    {
      if site in storage {
        output := storage[site];
      } else {
        output := "";
      }
    }

    /** The id of the query record with a signature, scanning the records in order. */
    method FindQueryId(sig: Signature) returns (id: Option<nat>)
      ensures id == QueryIdOf(queries, sig)
    {
      var i := 0;
      while i < |queries|
        invariant 0 <= i <= |queries|
        invariant QueryIdOf(queries[i..], sig) == QueryIdOf(queries, sig)
      {
        assert queries[i..][0] == queries[i];
        if queries[i].sig == sig {
          return Some(queries[i].id);
        }
        assert queries[i..][1..] == queries[i + 1..];
        i := i + 1;
      }
      return None;
    }

    /** A query record under the next id; it is not checked against existing signatures. */
    method InsertQuery(sig: Signature) returns (id: nat)
      modifies this
      ensures id == old(nextQueryId)
      ensures State() == old(State()).(queries := old(queries) + [QueryRow(id, sig)], nextQueryId := id + 1)
    {
      id := nextQueryId;
      queries := queries + [QueryRow(id, sig)];
      nextQueryId := nextQueryId + 1;
    }

    method InsertSources(rows: seq<SourceRow>)
      modifies this
      ensures State() == old(State()).(querySources := old(querySources) + rows)
    {
      querySources := querySources + rows;
    }

    /** The expiry row of an element is written, replacing any earlier one. */
    method SetExpiryDate(elementId: nat, date: int)
      modifies this
      ensures State() == old(State()).(expiryDates := old(expiryDates)[elementId := date])
    {
      expiryDates := expiryDates[elementId := date];
    }

    /** The stored bytes, the cache records and the dependency rows of the given cache ids are deleted. */
    method Purge(ids: seq<nat>)
      modifies this
      ensures State() == T.Purge(old(State()), ids)
    {
      storage := storage - SitesOf(caches, ids);
      caches := Filter(caches, (r: CacheRow) => r.id !in ids);
      DeleteDependencies(ids);
    }
  }
}
