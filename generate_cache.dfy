/**
 * The generate side: during a page render the recorder buffers the elements
 * and element queries the page used, and `Save` commits the page's output and
 * its dependency rows in one step.
 */
module Generate {
  import opened Wrappers
  import opened Strings
  import opened Elements
  import opened Queries
  import opened SignatureCodec
  import opened Tables
  import opened Recorder
  import opened Store

  /** The generate options a page render can set. */
  datatype Options = Options(
    cachingEnabled: bool,
    outputComments: OutputComments,
    trackCustomFields: TrackCustomFields,
    tags: seq<string>)

  /** Caching on, comments on, every field tracked, no tags. */
  const DefaultOptions: Options := Options(true, CommentsOn, TrackAll, [])

  class GenerateCache {
    const db: Database
    var options: Options
    /** The elements rendered so far, each once, with how their fields are tracked. */
    var elements: seq<TrackedElement>
    /** The query records of the element queries run so far, each once. */
    var queryIds: seq<nat>

    predicate Valid()
      reads this
    {
      Distinct(IdsOf(elements)) && Distinct(queryIds)
    }

    constructor(db: Database)
      ensures this.db == db
      ensures options == DefaultOptions && elements == [] && queryIds == []
      ensures Valid()
    {
      this.db := db;
      options := DefaultOptions;
      elements := [];
      queryIds := [];
    }

    /** Sets the tags from a comma-separated list. */
    method SetTags(tags: string)
      modifies this
      ensures options == old(options).(tags := SplitList(tags))
      ensures unchanged(`elements, `queryIds)
    {
      options := options.(tags := SplitList(tags));
    }

    /** Buffers an element, tracked according to the current trackCustomFields option. */
    method AddElement(element: Element)
      requires Valid()
      modifies this
      ensures Valid()
      ensures elements == Track(old(elements), element.id, TrackingFor(options.trackCustomFields))
      ensures options == old(options) && queryIds == old(queryIds)
    {
      elements := Track(elements, element.id, TrackingFor(options.trackCustomFields));
    }

    /**
     * Records an element query: an untrackable query is skipped; otherwise
     * its signature is looked up or inserted with its source rows, and the
     * record is buffered for the page.
     */
    method AddElementQuery(query: Query)
      requires Valid()
      modifies this, db
      ensures Valid()
      ensures options == old(options) && elements == old(elements)
      ensures IsTrackable(query) ==>
        db.State() == RecordQueryT(old(db.State()), SignatureOf(query)).0 &&
        queryIds == AppendNew(old(queryIds), RecordQueryT(old(db.State()), SignatureOf(query)).1)
      ensures !IsTrackable(query) ==> db.State() == old(db.State()) && queryIds == old(queryIds)
    {
      if !IsTrackable(query) {
        return;
      }
      var sig := SignatureOf(query);
      var found := db.FindQueryId(sig);
      var id: nat;
      if found.Some? {
        id := found.value;
      } else {
        id := db.InsertQuery(sig);
        db.InsertSources(SourceRows(id, SourceIds(sig)));
      }
      queryIds := AppendNew(queryIds, id);
    }

    /**
     * Saves the page: nothing happens when caching is disabled; otherwise the
     * decorated output is stored, the buffered rows replace the page's earlier
     * ones, the buffer is emptied, and the stored bytes are returned.
     */
    method Save(output: string, site: SiteUri, timestamp: string) returns (r: Option<string>)
      requires Valid()
      modifies this, db
      ensures Valid()
      ensures options == old(options)
      ensures !old(options.cachingEnabled) ==>
        r.None? && db.State() == old(db.State()) && elements == old(elements) && queryIds == old(queryIds)
      ensures old(options.cachingEnabled) ==>
        var stored := Decorate(output, site.uri, old(options.outputComments), timestamp);
        && r == Some(stored)
        && db.State() == SaveT(old(db.State()), site, old(elements), old(queryIds), old(options.tags), stored)
        && elements == [] && queryIds == []
    {
      if options.cachingEnabled {
        var stored := Decorate(output, site.uri, options.outputComments, timestamp);
        Commit(site, stored);
        r := Some(stored);
      } else {
        r := None;
      }
    }

    /** Writes the page's rows and bytes, then empties the buffer. */
    method Commit(site: SiteUri, stored: string)
      modifies this, db
      ensures options == old(options) && elements == [] && queryIds == []
      ensures db.State() == SaveT(old(db.State()), site, old(elements), old(queryIds), old(options.tags), stored)
    {
      WriteSave(site, stored);
      elements, queryIds := [], [];
    }

    /** Replaces the site URI's dependency rows by the buffered ones and stores its bytes. */
    method WriteSave(site: SiteUri, stored: string)
      modifies db
      ensures db.State() == SaveT(old(db.State()), site, elements, queryIds, options.tags, stored)
    {
      var id := CacheIdFor(site);
      db.DeleteDependencies([id]);
      InsertRows(id, site, stored);
    }

    /** The id of the site URI's cache record, inserting the record when there is none. */
    method CacheIdFor(site: SiteUri) returns (id: nat)
      modifies db
      ensures id == SaveCacheId(old(db.State()), site)
      ensures db.State() == if CacheIdOf(old(db.caches), site).Some? then old(db.State()) else InsertCache(old(db.State()), site)
    {
      var found := db.FindCacheId(site);
      if found.Some? {
        id := found.value;
      } else {
        id := db.InsertCache(site);
      }
    }

    /** Writes the buffered rows under the cache id, and the bytes for the site URI. */
    method InsertRows(id: nat, site: SiteUri, stored: string)
      modifies db
      ensures db.State() == old(db.State()).(
        elementCaches := old(db.elementCaches) + ElementRows(id, elements),
        fieldCaches := old(db.fieldCaches) + FieldRows(id, elements),
        queryCaches := old(db.queryCaches) + LinkRows(id, queryIds),
        tags := old(db.tags) + TagRows(id, options.tags),
        storage := old(db.storage)[site := stored])
    {
      db.InsertElementCaches(ElementRows(id, elements));
      db.InsertFieldCaches(FieldRows(id, elements));
      db.InsertQueryCaches(LinkRows(id, queryIds));
      db.InsertTags(TagRows(id, options.tags));
      db.SetStored(site, stored);
    }
  }
}
