/**
 * Content elements as the cache engine sees them: their type, the source
 * (section, product type, campaign type, mailing-list type) they belong to,
 * their publication status, and the change notification that reaches the
 * invalidation side when one is saved or deleted. Dates are integer instants.
 */
module Elements {
  import opened Wrappers

  /** The cacheable element types that the engine knows a source attribute for, plus users. */
  datatype ElementType = Entry | User | Product | Campaign | MailingList

  const AllTypes: seq<ElementType> := [Entry, User, Product, Campaign, MailingList]

  lemma AllTypesComplete(t: ElementType)
    ensures t in AllTypes
  {
  }

  /**
   * The query parameter naming the container an element of this type belongs
   * to; users have none.
   */
  function SourceAttribute(t: ElementType): Option<string> {
    match t
    case Entry => Some("sectionId")
    case Product => Some("typeId")
    case Campaign => Some("campaignTypeId")
    case MailingList => Some("mailingListTypeId")
    case User => None
  }

  datatype Status = Live | Pending | Expired | Disabled

  /**
   * An element: `sourceId` is the value of its type's source attribute (unused
   * for users); the title stands for its attribute and field values.
   */
  datatype Element = Element(
    id: nat,
    elementType: ElementType,
    sourceId: nat,
    title: string,
    enabled: bool,
    postDate: Option<int>,
    expiryDate: Option<int>)

  /** Publication status at instant `now`: disabled, not yet posted, past its expiry, or live. */
  function StatusAt(e: Element, now: int): Status {
    if !e.enabled then Disabled
    else if e.postDate.Some? && e.postDate.value > now then Pending
    else if e.expiryDate.Some? && e.expiryDate.value <= now then Expired
    else Live
  }

  /** The source id to record for an element, for types that have a source attribute. */
  function SourceIdOf(e: Element): (r: Option<nat>)
    ensures r.Some? <==> SourceAttribute(e.elementType).Some?
    ensures r.Some? ==> r.value == e.sourceId
  {
    if SourceAttribute(e.elementType).Some? then Some(e.sourceId) else None
  }

  /**
   * What the invalidation side learns about a saved or deleted element: its
   * values now, its values when it was loaded, the status recorded when it was
   * loaded (which a caller may overwrite), and whether it was deleted.
   */
  datatype ElementChange = ElementChange(
    element: Element,
    original: Element,
    previousStatus: Status,
    deleted: bool)

  predicate HasChangedValues(c: ElementChange) {
    c.element != c.original
  }

  predicate HasStatusChanged(c: ElementChange, now: int) {
    c.previousStatus != StatusAt(c.element, now)
  }

  /**
   * Whether the change can alter cached output: a deletion, a status
   * transition, or a change of values while the element is live. A change to
   * an element that is not live and stays in the same status cannot.
   */
  predicate IsRefreshable(c: ElementChange, now: int) {
    c.deleted || HasStatusChanged(c, now) || (HasChangedValues(c) && StatusAt(c.element, now) == Live)
  }

  /** A save that changes nothing, of an element whose status is unchanged, is ignored. */
  lemma UnchangedIgnored(c: ElementChange, now: int)
    requires !c.deleted && c.element == c.original && c.previousStatus == StatusAt(c.element, now)
    ensures !IsRefreshable(c, now)
  {
  }

  /** A changed live element is refreshed. */
  lemma ChangedLiveRefreshed(c: ElementChange, now: int)
    requires c.element != c.original && StatusAt(c.element, now) == Live
    ensures IsRefreshable(c, now)
  {
  }

  /** An element that was disabled and is still disabled is ignored, however it changed. */
  lemma StillDisabledIgnored(c: ElementChange, now: int)
    requires !c.deleted && c.previousStatus == Disabled && !c.element.enabled
    ensures !IsRefreshable(c, now)
  {
  }

  /** An element disabled from a live status is refreshed. */
  lemma DisabledFromLiveRefreshed(c: ElementChange, now: int)
    requires c.previousStatus == Live && !c.element.enabled
    ensures IsRefreshable(c, now)
  {
  }

  /** A live element whose expiry date is set in the past is refreshed. */
  lemma ExpiredRefreshed(c: ElementChange, now: int)
    requires c.previousStatus == Live && c.element.enabled
    requires c.element.postDate.None? || c.element.postDate.value <= now
    requires c.element.expiryDate.Some? && c.element.expiryDate.value <= now
    ensures IsRefreshable(c, now)
  {
  }

  /** A deleted element is refreshed. */
  lemma DeletedRefreshed(c: ElementChange, now: int)
    requires c.deleted
    ensures IsRefreshable(c, now)
  {
  }

  /** The date if it lies strictly after `now`. */
  function FutureDate(d: Option<int>, now: int): (r: Option<int>)
    ensures r.Some? <==> d.Some? && d.value > now
    ensures r.Some? ==> r == d
  {
    if d.Some? && d.value > now then d else None
  }

  /**
   * The next instant at which the element's visibility changes by itself: the
   * earlier of its post date and its expiry date among those still in the
   * future, or none when neither is.
   */
  function NextExpiryDate(e: Element, now: int): (r: Option<int>)
    ensures r.Some? <==> FutureDate(e.postDate, now).Some? || FutureDate(e.expiryDate, now).Some?
    ensures r.Some? ==> r.value > now
    ensures r.Some? ==> r == e.postDate || r == e.expiryDate
    ensures r.Some? && FutureDate(e.postDate, now).Some? ==> r.value <= e.postDate.value
    ensures r.Some? && FutureDate(e.expiryDate, now).Some? ==> r.value <= e.expiryDate.value
  {
    var post := FutureDate(e.postDate, now);
    var expiry := FutureDate(e.expiryDate, now);
    if post.Some? && expiry.Some? then
      (if expiry.value < post.value then expiry else post)
    else if post.Some? then post
    else expiry
  }
}
