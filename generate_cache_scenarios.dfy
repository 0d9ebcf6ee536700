/**
 * The generate-side behaviours, each as a run against fresh tables with a
 * fresh recorder: the page 'page' on site 1 is saved with the output 'xyz'.
 */
module GenerateScenarios {
  import opened Wrappers
  import opened Strings
  import opened Elements
  import opened Queries
  import opened SignatureCodec
  import opened Tables
  import opened Recorder
  import opened Store
  import opened Generate

  const Page: SiteUri := SiteUri(1, "page")
  const Output: string := "xyz"
  
  /** A saved page is served with its output and the cache marker. */
  method SaveCache(timestamp: string) returns (value: string)
    ensures Contains(value, Output) && Contains(value, MarkerText)
  {
    var db := new Database();
    var generate := new GenerateCache(db);
    assert '.' !in Page.uri;
    ghost var stored := Decorate(Output, Page.uri, CommentsOn, timestamp);
    assert Contains(stored, MarkerText);
    var _ := generate.Save(Output, Page, timestamp);
    assert db.State() == SaveT(Empty, Page, [], [], [], stored);
    SaveStores(Empty, Page, [], [], [], stored, SiteUri(2, ""));
    value := db.Get(Page);
    assert value == stored;
    ContainsMiddle("", Output, value[|Output|..]);
    assert value == "" + Output + value[|Output|..];
  }

  /** Comments off or at serve time leave the saved bytes as rendered; on or in cache adds the marker. */
  method SaveCacheWithOutputComments(policy: OutputComments, timestamp: string) returns (value: Option<string>)
    ensures value == Some(if CommentsInCache(policy) then Output + Marker(timestamp) else Output)
  {
    value := SaveWithPolicy(policy, Page, Output, timestamp);
    PageIsHtml();
  }

  /** Saves the output into fresh tables under the given output-comments setting. */
  method SaveWithPolicy(policy: OutputComments, site: SiteUri, output: string, timestamp: string) returns (value: Option<string>)
    ensures value == Some(Decorate(output, site.uri, policy, timestamp))
  {
    var db := new Database();
    var generate := new GenerateCache(db);
    generate.options := generate.options.(outputComments := policy);
    value := generate.Save(output, site, timestamp);
  }

  /** The page's URI has no extension, so it is served as HTML. */
  lemma PageIsHtml()
    ensures IsHtmlUri(Page.uri)
  {
    assert '.' !in Page.uri;
  }

  /** A page URI ending in .html gets the marker; one ending in .json does not. */
  method SaveCacheWithFileExtension(page: string, timestamp: string) returns (html: Option<string>, json: Option<string>)
    requires '/' !in page
    ensures html == Some(Output + Marker(timestamp)) && Contains(html.value, MarkerText)
    ensures json == Some(Output) && !Contains(json.value, MarkerText)
  {
    var db := new Database();
    var generate := new GenerateCache(db);
    html := SaveOutput(generate, SiteUri(1, page + ".html"), timestamp);
    DecorateHtml(page, timestamp);
    json := SaveOutput(generate, SiteUri(1, page + ".json"), timestamp);
    DecorateJson(page, timestamp);
  }

  /** Saves the output under a site URI with caching and comments on, and returns what was stored. */
  method SaveOutput(generate: GenerateCache, site: SiteUri, timestamp: string) returns (value: Option<string>)
    requires generate.Valid() && generate.options == DefaultOptions
    modifies generate, generate.db
    ensures generate.Valid() && generate.options == DefaultOptions
    ensures value == Some(Decorate(Output, site.uri, CommentsOn, timestamp))
  {
    value := generate.Save(Output, site, timestamp);
  }

  lemma DecorateHtml(page: string, timestamp: string)
    requires '/' !in page
    ensures Decorate(Output, page + ".html", CommentsOn, timestamp) == Output + Marker(timestamp)
    ensures Contains(Output + Marker(timestamp), MarkerText)
  {
    ExtensionOf(page, "html");
    assert page + "." + "html" == page + ".html";
  }

  lemma DecorateJson(page: string, timestamp: string)
    requires '/' !in page
    ensures Decorate(Output, page + ".json", CommentsOn, timestamp) == Output
    ensures !Contains(Output, MarkerText)
  {
    ExtensionOf(page, "json");
    assert page + "." + "json" == page + ".json";
    ContainsShorter(Output, MarkerText);
    MarkerExactlyWhenDecorated(Output, page + ".json", CommentsOn, timestamp);
  }

  /** Saving a page leaves exactly one cache record for its site URI. */
  method SaveCacheRecord(timestamp: string) returns (count: nat)
    ensures count == 1
  {
    var db := new Database();
    var generate := new GenerateCache(db);
    ghost var stored := Decorate(Output, Page.uri, CommentsOn, timestamp);
    var _ := generate.Save(Output, Page, timestamp);
    EmptyValid();
    SaveOneRecord(Empty, Page, [], [], [], stored);
    count := CountSite(db.caches, Page);
  }

  /** Renders one element under the given trackCustomFields option and saves the output into fresh tables. */
  method SaveOneElement(option: TrackCustomFields, element: Element, site: SiteUri, output: string, timestamp: string) returns (elementRows: seq<ElementCacheRow>, fieldRows: seq<FieldCacheRow>)
    ensures elementRows == [ElementCacheRow(1, element.id, option.TrackAll?)]
    ensures fieldRows == FieldRowsOf(1, TrackedElement(element.id, TrackingFor(option)))
  {
    var db := new Database();
    var generate := new GenerateCache(db);
    generate.options := generate.options.(trackCustomFields := option);
    generate.AddElement(element);
    ghost var buffer := [TrackedElement(element.id, TrackingFor(option))];
    assert generate.elements == buffer;
    assert db.State() == Empty;
    ghost var stored := Decorate(output, site.uri, CommentsOn, timestamp);
    var _ := generate.Save(output, site, timestamp);
    ghost var after := SaveT(Empty, site, buffer, [], [], stored);
    assert db.State() == after;
    SaveIntoEmpty(site, buffer, [], [], stored);
    OneElementRows(element.id, TrackingFor(option));
    assert after.elementCaches == ElementRows(1, buffer) && after.fieldCaches == FieldRows(1, buffer);
    elementRows, fieldRows := db.elementCaches, db.fieldCaches;
  }

  /** The rows of a page that rendered a single element. */
  lemma OneElementRows(elementId: nat, tracking: Tracking)
    ensures ElementRows(1, [TrackedElement(elementId, tracking)]) == [ElementCacheRow(1, elementId, tracking.allFields)]
    ensures FieldRows(1, [TrackedElement(elementId, tracking)]) == FieldRowsOf(1, TrackedElement(elementId, tracking))
  {
    var buffer := [TrackedElement(elementId, tracking)];
    assert buffer[1..] == [];
    assert FieldRows(1, buffer) == FieldRowsOf(1, buffer[0]) + [];
  }

  /** With every field tracked, the element gets one element row marked trackAllFields and no field rows. */
  method SaveElementCacheRecord(element: Element, timestamp: string) returns (elementRows: seq<ElementCacheRow>, fieldRows: seq<FieldCacheRow>)
    ensures elementRows == [ElementCacheRow(1, element.id, true)]
    ensures fieldRows == []
  {
    elementRows, fieldRows := SaveOneElement(TrackAll, element, Page, Output, timestamp);
  }

  /** With custom fields untracked, the element gets one row not marked trackAllFields and no field rows. */
  method SaveElementCacheRecordWithoutCustomFields(element: Element, timestamp: string) returns (elementRows: seq<ElementCacheRow>, fieldRows: seq<FieldCacheRow>)
    ensures elementRows == [ElementCacheRow(1, element.id, false)]
    ensures fieldRows == []
  {
    elementRows, fieldRows := SaveOneElement(TrackNone, element, Page, Output, timestamp);
  }

  /** The field rows of an element with the fields 'text' and 'moreText' tracked. */
  lemma CustomFieldRows(elementId: nat)
    ensures FieldRowsOf(1, TrackedElement(elementId, TrackingFor(TrackOnly(["text", "moreText"])))) ==
      [FieldCacheRow(1, elementId, "text"), FieldCacheRow(1, elementId, "moreText")]
  {
    DedupDistinct(["text", "moreText"]);
  }

  /** With two custom fields tracked, the element gets one row not marked trackAllFields and a field row for each. */
  method SaveElementCacheRecordWithCustomFields(element: Element, timestamp: string) returns (elementRows: seq<ElementCacheRow>, fieldRows: seq<FieldCacheRow>)
    ensures elementRows == [ElementCacheRow(1, element.id, false)]
    ensures fieldRows == [FieldCacheRow(1, element.id, "text"), FieldCacheRow(1, element.id, "moreText")]
  {
    elementRows, fieldRows := SaveOneElement(TrackOnly(["text", "moreText"]), element, Page, Output, timestamp);
    CustomFieldRows(element.id);
  }

  // ---------------------------------------------------------------------------
  // Element query records

  /** `Entry::find()` with one parameter set. */
  function EntryWhere(name: string, v: Value): Query {
    Where(Find(Entry), name, v)
  }

  // Canonical values of the literals the queries use, each in a lemma of its own.

  lemma NumberOne()
    ensures Normalize(One(IntVal(1))) == [IntVal(1)] && Normalize(Many([IntVal(1)])) == [IntVal(1)]
    ensures Normalize(One(StrVal("1"))) == [IntVal(1)] && Normalize(Many([StrVal("1")])) == [IntVal(1)]
  {
    ScalarFormsAgree(1);
    assert NatToString(1) == "1";
  }

  /** A comma-and-blank separated list of numbers, given as its text. */
  lemma ListText(xs: seq<nat>, text: string)
    requires |xs| >= 1 && JoinWith(Padded(Decimals(xs)), ',') == text
    ensures Normalize(One(StrVal(text))) == Ints(xs)
  {
    PaddedListAgrees(xs);
  }

  lemma OneTwoThreeDecimals()
    ensures JoinWith(Padded(Decimals([1, 2, 3])), ',') == "1, 2, 3"
    ensures AsStrings(Decimals([1, 2, 3])) == [StrVal("1"), StrVal("2"), StrVal("3")]
    ensures Ints([1, 2, 3]) == [IntVal(1), IntVal(2), IntVal(3)]
  {
    assert Decimals([1, 2, 3]) == ["1", "2", "3"];
  }

  lemma OneTwoThree()
    ensures Normalize(One(StrVal("1, 2, 3"))) == [IntVal(1), IntVal(2), IntVal(3)]
  {
    OneTwoThreeDecimals();
    ListText([1, 2, 3], "1, 2, 3");
  }

  lemma OneTwoDecimals()
    ensures JoinWith(Padded(Decimals([1, 2])), ',') == "1, 2"
    ensures Ints([1, 2]) == [IntVal(1), IntVal(2)]
  {
    assert Decimals([1, 2]) == ["1", "2"];
  }

  lemma OneTwo()
    ensures Normalize(One(StrVal("1, 2"))) == [IntVal(1), IntVal(2)]
  {
    OneTwoDecimals();
    ListText([1, 2], "1, 2");
  }

  lemma NotOne()
    ensures Normalize(One(StrVal("not 1"))) == [StrVal("not 1")]
  {
    assert !IsDigit("not 1"[0]);
    PlainStringValue("not 1");
  }

  lemma NotAndOne()
    ensures Normalize(Many([StrVal("not"), IntVal(1)])) == [StrVal("not"), IntVal(1)]
    ensures Normalize(Many([StrVal("not"), StrVal("1")])) == [StrVal("not"), IntVal(1)]
  {
    NotAndNumber(IntVal(1));
    NotAndNumber(StrVal("1"));
  }

  /** The pair `['not', x]` where `x` spells the number 1. */
  lemma NotAndNumber(x: Scalar)
    requires x == IntVal(1) || x == StrVal("1")
    ensures Normalize(Many([StrVal("not"), x])) == [StrVal("not"), IntVal(1)]
  {
    WordPlain("not");
    NumberOne();
    assert NormalizeScalar(x) == IntVal(1);
    PairNormalize(StrVal("not"), x);
  }

  /** A word that does not start with a digit is kept as a string. */
  lemma WordPlain(w: string)
    requires w != [] && !IsDigit(w[0])
    ensures NormalizeScalar(StrVal(w)) == StrVal(w)
  {
  }

  /** A two-element array is normalized element by element. */
  lemma PairNormalize(a: Scalar, b: Scalar)
    ensures Normalize(Many([a, b])) == [NormalizeScalar(a), NormalizeScalar(b)]
  {
  }

  // Queries pinned to ids, to a slug or to a random order are not tracked.

  lemma IdIntegerUntracked()
    ensures !IsTrackable(EntryWhere("id", One(IntVal(1))))
  {
    NumberOne();
    NumericIdsUntracked(Find(Entry), One(IntVal(1)));
  }

  lemma IdStringUntracked()
    ensures !IsTrackable(EntryWhere("id", One(StrVal("1"))))
  {
    NumberOne();
    NumericIdsUntracked(Find(Entry), One(StrVal("1")));
  }

  lemma IdListUntracked()
    ensures !IsTrackable(EntryWhere("id", One(StrVal("1, 2, 3"))))
  {
    OneTwoThreeDecimals();
    ListText([1, 2, 3], "1, 2, 3");
    IdsUntracked(One(StrVal("1, 2, 3")), [1, 2, 3]);
  }

  lemma IdArrayUntracked()
    ensures !IsTrackable(EntryWhere("id", Many([IntVal(1), IntVal(2), IntVal(3)])))
  {
    OneTwoThreeDecimals();
    NormalizeInts([1, 2, 3]);
    IdsUntracked(Many([IntVal(1), IntVal(2), IntVal(3)]), [1, 2, 3]);
  }

  lemma IdStringArrayUntracked()
    ensures !IsTrackable(EntryWhere("id", Many([StrVal("1"), StrVal("2"), StrVal("3")])))
  {
    OneTwoThreeDecimals();
    DecimalsNormalize([1, 2, 3]);
    IdsUntracked(Many([StrVal("1"), StrVal("2"), StrVal("3")]), [1, 2, 3]);
  }

  /** An id filter that canonicalises to a list of numbers other than the lone 0. */
  lemma IdsUntracked(v: Value, xs: seq<nat>)
    requires Normalize(v) == Ints(xs) && xs != [] && xs != [0]
    ensures !IsTrackable(EntryWhere("id", v))
  {
    assert Ints(xs)[0] == IntVal(xs[0]);
    assert |xs| > 1 || xs[0] != 0;
    NumericIdsUntracked(Find(Entry), v);
  }

  lemma SlugStringUntracked()
    ensures !IsTrackable(EntryWhere("slug", One(StrVal("slug"))))
  {
    assert !IsDigit("slug"[0]);
    PlainStringValue("slug");
    SlugUntracked(Find(Entry), One(StrVal("slug")));
  }

  lemma RandUntracked()
    ensures !IsTrackable(OrderBy(Find(Entry), [Column("RAND()")]))
  {
    assert "RAND(" + ")" == "RAND()";
    RandomOrderUntracked(Find(Entry), "RAND(", ")");
  }

  lemma RandSeedUntracked()
    ensures !IsTrackable(OrderBy(Find(Entry), [Column("Rand(123)")]))
  {
    assert "Rand(" + "123)" == "Rand(123)";
    RandomOrderUntracked(Find(Entry), "Rand(", "123)");
  }

  // Thirteen tracked queries in five groups: the queries of a group differ
  // only in how their parameters are written, so a group is one signature.

  /** One signature per group. */
  const EntrySig: Signature := Signature(Entry, map[], [], [])
  const NotOneSig: Signature := Signature(Entry, map["id" := [StrVal("not 1")]], [], [])
  const NotAndOneSig: Signature := Signature(Entry, map["id" := [StrVal("not"), IntVal(1)]], [], [])
  const SectionOneSig: Signature := Signature(Entry, map["sectionId" := [IntVal(1)]], [], [])
  const SectionOneTwoSig: Signature := Signature(Entry, map["sectionId" := [IntVal(1), IntVal(2)]], [], [])

  lemma FindSignature()
    ensures IsTrackable(Find(Entry)) && SignatureOf(Find(Entry)) == EntrySig
  {
    assert CanonicalParams(Find(Entry).params) == map[];
  }

  lemma LimitSignature()
    ensures IsTrackable(EntryWhere("limit", One(StrVal("")))) && SignatureOf(EntryWhere("limit", One(StrVal("")))) == EntrySig
  {
    FindSignature();
    assert SplitOn("", ',') == [""];
    EmptyParamIgnored(Find(Entry), "limit", One(StrVal("")));
  }

  lemma OffsetSignature()
    ensures IsTrackable(EntryWhere("offset", One(IntVal(0)))) && SignatureOf(EntryWhere("offset", One(IntVal(0)))) == EntrySig
  {
    FindSignature();
    EmptyParamIgnored(Find(Entry), "offset", One(IntVal(0)));
  }

  lemma NotOneSignature()
    ensures IsTrackable(EntryWhere("id", One(StrVal("not 1")))) && SignatureOf(EntryWhere("id", One(StrVal("not 1")))) == NotOneSig
  {
    NotOne();
    OneParamSignature(Entry, "id", One(StrVal("not 1")));
    OperatorIdsTracked(Entry, One(StrVal("not 1")));
  }

  lemma NotAndOneSignature()
    ensures IsTrackable(EntryWhere("id", Many([StrVal("not"), IntVal(1)]))) && SignatureOf(EntryWhere("id", Many([StrVal("not"), IntVal(1)]))) == NotAndOneSig
  {
    NotAndOne();
    OneParamSignature(Entry, "id", Many([StrVal("not"), IntVal(1)]));
    OperatorIdsTracked(Entry, Many([StrVal("not"), IntVal(1)]));
  }

  lemma NotAndOneStringSignature()
    ensures IsTrackable(EntryWhere("id", Many([StrVal("not"), StrVal("1")]))) && SignatureOf(EntryWhere("id", Many([StrVal("not"), StrVal("1")]))) == NotAndOneSig
  {
    NotAndOne();
    OneParamSignature(Entry, "id", Many([StrVal("not"), StrVal("1")]));
    OperatorIdsTracked(Entry, Many([StrVal("not"), StrVal("1")]));
  }

  lemma SectionOneSignatures()
    ensures
    && IsTrackable(EntryWhere("sectionId", One(IntVal(1)))) && SignatureOf(EntryWhere("sectionId", One(IntVal(1)))) == SectionOneSig
    && IsTrackable(EntryWhere("sectionId", One(StrVal("1")))) && SignatureOf(EntryWhere("sectionId", One(StrVal("1")))) == SectionOneSig
    && IsTrackable(EntryWhere("sectionId", Many([IntVal(1)]))) && SignatureOf(EntryWhere("sectionId", Many([IntVal(1)]))) == SectionOneSig
    && IsTrackable(EntryWhere("sectionId", Many([StrVal("1")]))) && SignatureOf(EntryWhere("sectionId", Many([StrVal("1")]))) == SectionOneSig
  {
    NumberOne();
    SectionSignature(One(IntVal(1)), [IntVal(1)]);
    SectionSignature(One(StrVal("1")), [IntVal(1)]);
    SectionSignature(Many([IntVal(1)]), [IntVal(1)]);
    SectionSignature(Many([StrVal("1")]), [IntVal(1)]);
  }

  /** A `sectionId` filter is tracked, and its signature holds the filter's canonical value. */
  lemma SectionSignature(v: Value, c: seq<Scalar>)
    requires Normalize(v) == c && !IsEmptyValue(c)
    ensures IsTrackable(EntryWhere("sectionId", v)) && SignatureOf(EntryWhere("sectionId", v)) == Signature(Entry, map["sectionId" := c], [], [])
  {
    OneParamSignature(Entry, "sectionId", v);
  }

  lemma SectionListSignature()
    ensures IsTrackable(EntryWhere("sectionId", One(StrVal("1, 2")))) && SignatureOf(EntryWhere("sectionId", One(StrVal("1, 2")))) == SectionOneTwoSig
  {
    OneTwo();
    SectionSignature(One(StrVal("1, 2")), [IntVal(1), IntVal(2)]);
  }

  lemma SectionArraySignature()
    ensures IsTrackable(EntryWhere("sectionId", Many([IntVal(1), IntVal(2)]))) && SignatureOf(EntryWhere("sectionId", Many([IntVal(1), IntVal(2)]))) == SectionOneTwoSig
  {
    assert NormalizeScalar(IntVal(1)) == IntVal(1) && NormalizeScalar(IntVal(2)) == IntVal(2);
    assert Normalize(Many([IntVal(1), IntVal(2)])) == [IntVal(1), IntVal(2)];
    SectionSignature(Many([IntVal(1), IntVal(2)]), [IntVal(1), IntVal(2)]);
  }

  lemma GroupsDistinct()
    ensures EntrySig != NotOneSig && EntrySig != NotAndOneSig && EntrySig != SectionOneSig && EntrySig != SectionOneTwoSig
    ensures NotOneSig != NotAndOneSig && NotOneSig != SectionOneSig && NotOneSig != SectionOneTwoSig
    ensures NotAndOneSig != SectionOneSig && NotAndOneSig != SectionOneTwoSig && SectionOneSig != SectionOneTwoSig
  {
    assert "id" in NotOneSig.params && "id" !in EntrySig.params && "id" !in SectionOneSig.params && "id" !in SectionOneTwoSig.params;
    assert |NotOneSig.params["id"]| != |NotAndOneSig.params["id"]|;
    assert "sectionId" in SectionOneSig.params && "sectionId" !in EntrySig.params;
    assert |SectionOneSig.params["sectionId"]| != |SectionOneTwoSig.params["sectionId"]|;
  }

  /** Runs a tracked query whose signature is known. */
  method RunQuery(generate: GenerateCache, q: Query, sig: Signature)
    requires generate.Valid() && IsTrackable(q) && SignatureOf(q) == sig
    modifies generate, generate.db
    ensures generate.Valid()
    ensures QuerySigs(generate.db.queries) ==
      var before := old(QuerySigs(generate.db.queries));
      if sig in before then before else before + [sig]
  {
    RecordQuerySigs(generate.db.State(), SignatureOf(q));
    generate.AddElementQuery(q);
  }

  method RunEntryGroup(generate: GenerateCache, ghost before: seq<Signature>)
    requires generate.Valid() && QuerySigs(generate.db.queries) == before && EntrySig !in before
    modifies generate, generate.db
    ensures generate.Valid() && QuerySigs(generate.db.queries) == before + [EntrySig]
  {
    FindSignature(); LimitSignature(); OffsetSignature();
    RunQuery(generate, Find(Entry), EntrySig);
    assert QuerySigs(generate.db.queries) == before + [EntrySig];
    assert EntrySig in before + [EntrySig];
    RunQuery(generate, EntryWhere("limit", One(StrVal(""))), EntrySig);
    RunQuery(generate, EntryWhere("offset", One(IntVal(0))), EntrySig);
  }

  method RunNotOneGroup(generate: GenerateCache, ghost before: seq<Signature>)
    requires generate.Valid() && QuerySigs(generate.db.queries) == before && NotOneSig !in before
    modifies generate, generate.db
    ensures generate.Valid() && QuerySigs(generate.db.queries) == before + [NotOneSig]
  {
    NotOneSignature();
    RunQuery(generate, EntryWhere("id", One(StrVal("not 1"))), NotOneSig);
    assert QuerySigs(generate.db.queries) == before + [NotOneSig];
    assert NotOneSig in before + [NotOneSig];
    RunQuery(generate, EntryWhere("id", One(StrVal("not 1"))), NotOneSig);
  }

  method RunNotAndOneGroup(generate: GenerateCache, ghost before: seq<Signature>)
    requires generate.Valid() && QuerySigs(generate.db.queries) == before && NotAndOneSig !in before
    modifies generate, generate.db
    ensures generate.Valid() && QuerySigs(generate.db.queries) == before + [NotAndOneSig]
  {
    NotAndOneSignature(); NotAndOneStringSignature();
    RunQuery(generate, EntryWhere("id", Many([StrVal("not"), IntVal(1)])), NotAndOneSig);
    assert QuerySigs(generate.db.queries) == before + [NotAndOneSig];
    assert NotAndOneSig in before + [NotAndOneSig];
    RunQuery(generate, EntryWhere("id", Many([StrVal("not"), StrVal("1")])), NotAndOneSig);
  }

  method RunSectionOneGroup(generate: GenerateCache, ghost before: seq<Signature>)
    requires generate.Valid() && QuerySigs(generate.db.queries) == before && SectionOneSig !in before
    modifies generate, generate.db
    ensures generate.Valid() && QuerySigs(generate.db.queries) == before + [SectionOneSig]
  {
    SectionOneSignatures();
    RunQuery(generate, EntryWhere("sectionId", One(IntVal(1))), SectionOneSig);
    assert QuerySigs(generate.db.queries) == before + [SectionOneSig];
    assert SectionOneSig in before + [SectionOneSig];
    RunQuery(generate, EntryWhere("sectionId", One(StrVal("1"))), SectionOneSig);
    RunQuery(generate, EntryWhere("sectionId", Many([IntVal(1)])), SectionOneSig);
    RunQuery(generate, EntryWhere("sectionId", Many([StrVal("1")])), SectionOneSig);
  }

  method RunSectionListGroup(generate: GenerateCache, ghost before: seq<Signature>)
    requires generate.Valid() && QuerySigs(generate.db.queries) == before && SectionOneTwoSig !in before
    modifies generate, generate.db
    ensures generate.Valid() && QuerySigs(generate.db.queries) == before + [SectionOneTwoSig]
  {
    SectionListSignature(); SectionArraySignature();
    RunQuery(generate, EntryWhere("sectionId", One(StrVal("1, 2"))), SectionOneTwoSig);
    assert QuerySigs(generate.db.queries) == before + [SectionOneTwoSig];
    assert SectionOneTwoSig in before + [SectionOneTwoSig];
    RunQuery(generate, EntryWhere("sectionId", Many([IntVal(1), IntVal(2)])), SectionOneTwoSig);
  }

  /** Runs the eight untrackable queries: none of them touches the tables. */
  method RunUntrackedQueries(generate: GenerateCache)
    requires generate.Valid()
    modifies generate, generate.db
    ensures generate.Valid() && generate.db.State() == old(generate.db.State())
  {
    IdIntegerUntracked(); generate.AddElementQuery(EntryWhere("id", One(IntVal(1))));
    IdStringUntracked(); generate.AddElementQuery(EntryWhere("id", One(StrVal("1"))));
    IdListUntracked(); generate.AddElementQuery(EntryWhere("id", One(StrVal("1, 2, 3"))));
    IdArrayUntracked(); generate.AddElementQuery(EntryWhere("id", Many([IntVal(1), IntVal(2), IntVal(3)])));
    IdStringArrayUntracked(); generate.AddElementQuery(EntryWhere("id", Many([StrVal("1"), StrVal("2"), StrVal("3")])));
    SlugStringUntracked(); generate.AddElementQuery(EntryWhere("slug", One(StrVal("slug"))));
    RandUntracked(); generate.AddElementQuery(OrderBy(Find(Entry), [Column("RAND()")]));
    RandSeedUntracked(); generate.AddElementQuery(OrderBy(Find(Entry), [Column("Rand(123)")]));
  }

  /** Runs the thirteen tracked queries, group by group. */
  method RunTrackedQueries(generate: GenerateCache)
    requires generate.Valid() && QuerySigs(generate.db.queries) == []
    modifies generate, generate.db
    ensures generate.Valid()
    ensures QuerySigs(generate.db.queries) == [EntrySig, NotOneSig, NotAndOneSig, SectionOneSig, SectionOneTwoSig]
  {
    GroupsDistinct();
    RunEntryGroup(generate, []);
    RunNotOneGroup(generate, [EntrySig]);
    RunNotAndOneGroup(generate, [EntrySig, NotOneSig]);
    RunSectionOneGroup(generate, [EntrySig, NotOneSig, NotAndOneSig]);
    RunSectionListGroup(generate, [EntrySig, NotOneSig, NotAndOneSig, SectionOneSig]);
  }

  /**
   * Untrackable queries leave no record; the tracked ones leave one record
   * per group, in the order the groups were first seen.
   */
  method SaveElementQueryRecords() returns (untracked: seq<QueryRow>, tracked: seq<QueryRow>)
    ensures untracked == []
    ensures QuerySigs(tracked) == [EntrySig, NotOneSig, NotAndOneSig, SectionOneSig, SectionOneTwoSig] && |tracked| == 5
  {
    var db := new Database();
    var generate := new GenerateCache(db);
    RunUntrackedQueries(generate);
    untracked := db.queries;
    assert QuerySigs(untracked) == [];
    RunTrackedQueries(generate);
    tracked := db.queries;
  }

  // Joins and ordering expressions.

  /** An inner join on another table is tracked: one record. */
  method SaveElementQueryWithJoin() returns (count: nat)
    ensures count == 1
  {
    var db := new Database();
    var generate := new GenerateCache(db);
    var q := InnerJoin(Find(Entry), "{{%users}}");
    ContainsShorter("{{%users}}", RelationsTable);
    OtherJoinTracked(Entry, "{{%users}}");
    RecordQuerySigs(db.State(), SignatureOf(q));
    generate.AddElementQuery(q);
    count := |db.queries|;
  }

  /** A join on the relations table, here with an alias, is not tracked: no record. */
  method SaveElementQueryWithRelations() returns (count: nat)
    ensures count == 0
  {
    var db := new Database();
    var generate := new GenerateCache(db);
    assert RelationsTable + " relations" == "{{%relations}} relations";
    RelationsJoinUntracked(Find(Entry), " relations");
    generate.AddElementQuery(InnerJoin(Find(Entry), "{{%relations}} relations"));
    count := |db.queries|;
  }

  /** Ordering by an expression is not tracked: no record. */
  method SaveElementQueryWithExpression() returns (count: nat)
    ensures count == 0
  {
    var db := new Database();
    var generate := new GenerateCache(db);
    ExpressionOrderUntracked(Find(Entry));
    generate.AddElementQuery(OrderBy(Find(Entry), [Expression]));
    count := |db.queries|;
  }

  // Links between pages and query records.

  const NewPage: SiteUri := SiteUri(1, "new")

  /** Saving a second page that used the same query links the one record to both pages. */
  lemma SecondPageLinks(t: Tables, first: SiteUri, second: SiteUri, stored: string)
    requires first != second
    requires t.caches == [CacheRow(1, first)] && t.nextCacheId == 2 && t.queryCaches == [QueryCacheRow(1, 1)]
    ensures SaveT(t, second, [], [1], [], stored).queryCaches == [QueryCacheRow(1, 1), QueryCacheRow(2, 1)]
  {
    assert CacheIdOf(t.caches, second) == None;
    var t2 := DeleteDependencies(InsertCache(t, second), [2]);
    assert t2.queryCaches == [QueryCacheRow(1, 1)];
  }

  method SaveElementQueryCacheRecords(timestamp: string) returns (count: nat)
    ensures count == 2
  {
    count := SaveTwoPagesOneQuery(Page, NewPage, Output, timestamp);
  }

  /** Two pages, each running `Entry::find()`, saved one after the other into fresh tables. */
  method SaveTwoPagesOneQuery(first: SiteUri, second: SiteUri, output: string, timestamp: string) returns (count: nat)
    requires first != second
    ensures count == 2
  {
    var db := new Database();
    var generate := new GenerateCache(db);
    FindSignature();
    SaveFirstQueryPage(generate, Find(Entry), first, output, timestamp);
    generate.AddElementQuery(Find(Entry));
    assert QueryRow(1, EntrySig) in db.queries;
    assert generate.queryIds == [1];
    ghost var before := db.State();
    ghost var stored := Decorate(output, second.uri, CommentsOn, timestamp);
    var _ := generate.Save(output, second, timestamp);
    SecondPageLinks(before, first, second, stored);
    count := |db.queryCaches|;
  }

  /** Into fresh tables, a page that ran one tracked query is saved as page 1 linked to query record 1. */
  method SaveFirstQueryPage(generate: GenerateCache, q: Query, site: SiteUri, output: string, timestamp: string)
    requires generate.Valid() && generate.db.State() == Empty
    requires generate.options == DefaultOptions && generate.elements == [] && generate.queryIds == []
    requires IsTrackable(q)
    modifies generate, generate.db
    ensures generate.Valid() && generate.options == DefaultOptions && generate.elements == [] && generate.queryIds == []
    ensures generate.db.queries == [QueryRow(1, SignatureOf(q))]
    ensures generate.db.caches == [CacheRow(1, site)] && generate.db.nextCacheId == 2
    ensures generate.db.queryCaches == [QueryCacheRow(1, 1)]
  {
    ghost var stored := Decorate(output, site.uri, CommentsOn, timestamp);
    FirstQueryPageT(SignatureOf(q), site, stored);
    generate.AddElementQuery(q);
    assert generate.db.State() == RecordQueryT(Empty, SignatureOf(q)).0;
    assert generate.queryIds == AppendNew([], 1) == [1];
    var _ := generate.Save(output, site, timestamp);
  }

  /** The tables after recording one query into fresh tables and saving a page linked to it. */
  lemma FirstQueryPageT(sig: Signature, site: SiteUri, stored: string)
    ensures RecordQueryT(Empty, sig).1 == 1
    ensures var t := SaveT(RecordQueryT(Empty, sig).0, site, [], [1], [], stored);
      t.queries == [QueryRow(1, sig)] && t.caches == [CacheRow(1, site)] && t.nextCacheId == 2 && t.queryCaches == [QueryCacheRow(1, 1)]
  {
    var t0 := RecordQueryT(Empty, sig).0;
    assert t0 == Empty.(queries := [QueryRow(1, sig)], nextQueryId := 2, querySources := SourceRows(1, SourceIds(sig)));
    SaveFirstPage(t0, site, [], [1], [], stored);
    assert LinkRows(1, [1]) == [QueryCacheRow(1, 1)];
  }

  // Source rows.

  lemma GreaterOne()
    ensures Normalize(One(StrVal("> 1"))) == [StrVal("> 1")]
  {
    assert !IsDigit("> 1"[0]);
    PlainStringValue("> 1");
  }

  lemma GreaterAndOne()
    ensures Normalize(Many([StrVal(">"), StrVal("1")])) == [StrVal(">"), IntVal(1)]
  {
    WordPlain(">");
    NumberOne();
    assert NormalizeScalar(StrVal("1")) == IntVal(1);
    PairNormalize(StrVal(">"), StrVal("1"));
  }

  lemma NotOneNoSources()
    ensures IsTrackable(EntryWhere("sectionId", One(StrVal("not 1"))))
    ensures SourceIds(SignatureOf(EntryWhere("sectionId", One(StrVal("not 1"))))) == []
  {
    NotOne();
    SourceFilterTracked(Entry, One(StrVal("not 1")));
    OperatorFilterNoSources(Entry, One(StrVal("not 1")));
  }

  lemma GreaterOneNoSources()
    ensures IsTrackable(EntryWhere("sectionId", One(StrVal("> 1"))))
    ensures SourceIds(SignatureOf(EntryWhere("sectionId", One(StrVal("> 1"))))) == []
  {
    GreaterOne();
    SourceFilterTracked(Entry, One(StrVal("> 1")));
    OperatorFilterNoSources(Entry, One(StrVal("> 1")));
  }

  lemma NotAndOneNoSources()
    ensures IsTrackable(EntryWhere("sectionId", Many([StrVal("not"), IntVal(1)])))
    ensures SourceIds(SignatureOf(EntryWhere("sectionId", Many([StrVal("not"), IntVal(1)])))) == []
  {
    NotAndOne();
    SourceFilterTracked(Entry, Many([StrVal("not"), IntVal(1)]));
    OperatorFilterNoSources(Entry, Many([StrVal("not"), IntVal(1)]));
  }

  lemma NotAndOneStringNoSources()
    ensures IsTrackable(EntryWhere("sectionId", Many([StrVal("not"), StrVal("1")])))
    ensures SourceIds(SignatureOf(EntryWhere("sectionId", Many([StrVal("not"), StrVal("1")])))) == []
  {
    NotAndOne();
    SourceFilterTracked(Entry, Many([StrVal("not"), StrVal("1")]));
    OperatorFilterNoSources(Entry, Many([StrVal("not"), StrVal("1")]));
  }

  lemma GreaterAndOneNoSources()
    ensures IsTrackable(EntryWhere("sectionId", Many([StrVal(">"), StrVal("1")])))
    ensures SourceIds(SignatureOf(EntryWhere("sectionId", Many([StrVal(">"), StrVal("1")])))) == []
  {
    GreaterAndOne();
    SourceFilterTracked(Entry, Many([StrVal(">"), StrVal("1")]));
    OperatorFilterNoSources(Entry, Many([StrVal(">"), StrVal("1")]));
  }

  /** The source rows recorded so far all come from queries whose source ids are in `done`. */
  ghost predicate SourcesWithin(generate: GenerateCache, done: set<seq<nat>>)
    reads generate, generate.db
  {
    forall s :: s in QuerySigs(generate.db.queries) ==> SourceIds(s) in done
  }

  /**
   * Runs a tracked query whose source ids are either none or a list no
   * recorded query has; its source ids are appended to the source column.
   */
  method RunSourcedQuery(generate: GenerateCache, q: Query, ghost done: set<seq<nat>>)
    requires generate.Valid() && IsTrackable(q)
    requires SourcesWithin(generate, done)
    requires SourceIds(SignatureOf(q)) == [] || SourceIds(SignatureOf(q)) !in done
    modifies generate, generate.db
    ensures generate.Valid()
    ensures SourcesWithin(generate, done + {SourceIds(SignatureOf(q))})
    ensures SourceColumn(generate.db.querySources) == old(SourceColumn(generate.db.querySources)) + SourceIds(SignatureOf(q))
  {
    var t := generate.db.State();
    var sig := SignatureOf(q);
    RecordQuerySigs(t, sig);
    generate.AddElementQuery(q);
    if sig in QuerySigs(t.queries) {
      assert SourceIds(sig) == [];
      assert SourceColumn(t.querySources) + [] == SourceColumn(t.querySources);
    } else {
      SourceColumnAppend(t.querySources, t.nextQueryId, SourceIds(sig));
    }
  }

  /** Negated and comparison filters on the section store no source rows. */
  method RunOperatorFilters(generate: GenerateCache)
    requires generate.Valid() && QuerySigs(generate.db.queries) == [] && SourceColumn(generate.db.querySources) == []
    modifies generate, generate.db
    ensures generate.Valid()
    ensures SourcesWithin(generate, {[]})
    ensures SourceColumn(generate.db.querySources) == []
  {
    NotOneNoSources();
    RunSourcedQuery(generate, EntryWhere("sectionId", One(StrVal("not 1"))), {});
    GreaterOneNoSources();
    RunSourcedQuery(generate, EntryWhere("sectionId", One(StrVal("> 1"))), {[]});
    NotAndOneNoSources();
    RunSourcedQuery(generate, EntryWhere("sectionId", Many([StrVal("not"), IntVal(1)])), {[]});
    NotAndOneStringNoSources();
    RunSourcedQuery(generate, EntryWhere("sectionId", Many([StrVal("not"), StrVal("1")])), {[]});
    GreaterAndOneNoSources();
    RunSourcedQuery(generate, EntryWhere("sectionId", Many([StrVal(">"), StrVal("1")])), {[]});
  }

  lemma SectionListSources()
    ensures IsTrackable(EntryWhere("sectionId", Many([IntVal(1), IntVal(2), IntVal(3)])))
    ensures SourceIds(SignatureOf(EntryWhere("sectionId", Many([IntVal(1), IntVal(2), IntVal(3)])))) == [1, 2, 3]
  {
    assert Ints([1, 2, 3]) == [IntVal(1), IntVal(2), IntVal(3)];
    SourceFilterTracked(Entry, Many([IntVal(1), IntVal(2), IntVal(3)]));
    ExactSources(Entry, [1, 2, 3]);
  }

  /** Runs `find()` of a type, which stores the sentinel 0. */
  method RunUnfiltered(generate: GenerateCache, ghost done: set<seq<nat>>)
    requires generate.Valid() && SourcesWithin(generate, done) && [0] !in done
    modifies generate, generate.db
    ensures generate.Valid() && SourcesWithin(generate, done + {[0]})
    ensures SourceColumn(generate.db.querySources) == old(SourceColumn(generate.db.querySources)) + [0]
  {
    FindSignature();
    UnfilteredQueryAnySource(Entry);
    RunSourcedQuery(generate, Find(Entry), done);
  }

  /** Runs a query filtering its type's source attribute on one id. */
  method RunSingleSource(generate: GenerateCache, t: ElementType, n: nat, ghost done: set<seq<nat>>)
    requires SourceAttribute(t).Some? && n > 0
    requires generate.Valid() && SourcesWithin(generate, done) && [n] !in done
    modifies generate, generate.db
    ensures generate.Valid() && SourcesWithin(generate, done + {[n]})
    ensures SourceColumn(generate.db.querySources) == old(SourceColumn(generate.db.querySources)) + [n]
  {
    SingleSource(t, n);
    RunSourcedQuery(generate, Where(Find(t), SourceAttribute(t).value, One(IntVal(n))), done);
  }

  /** Runs `sectionId([1, 2, 3])`. */
  method RunSectionList(generate: GenerateCache, ghost done: set<seq<nat>>)
    requires generate.Valid() && SourcesWithin(generate, done) && [1, 2, 3] !in done
    modifies generate, generate.db
    ensures generate.Valid() && SourcesWithin(generate, done + {[1, 2, 3]})
    ensures SourceColumn(generate.db.querySources) == old(SourceColumn(generate.db.querySources)) + [1, 2, 3]
  {
    SectionListSources();
    RunSourcedQuery(generate, EntryWhere("sectionId", Many([IntVal(1), IntVal(2), IntVal(3)])), done);
  }

  /** Filters on source ids, of four element types, store those ids; an unfiltered query stores 0. */
  method RunSourceFilters(generate: GenerateCache)
    requires generate.Valid() && SourcesWithin(generate, {[]})
    modifies generate, generate.db
    ensures SourceColumn(generate.db.querySources) == old(SourceColumn(generate.db.querySources)) + [0, 1, 1, 2, 3, 4, 5, 6]
  {
    ghost var start := SourceColumn(generate.db.querySources);
    RunEntryFilters(generate);
    RunOtherTypeFilters(generate);
    assert start + [0, 1, 1, 2, 3] + [4, 5, 6] == start + [0, 1, 1, 2, 3, 4, 5, 6];
  }

  /** `Entry::find()`, then the filters on section 1 and on sections 1, 2 and 3. */
  method RunEntryFilters(generate: GenerateCache)
    requires generate.Valid() && SourcesWithin(generate, {[]})
    modifies generate, generate.db
    ensures generate.Valid() && SourcesWithin(generate, {[], [0], [1], [1, 2, 3]})
    ensures SourceColumn(generate.db.querySources) == old(SourceColumn(generate.db.querySources)) + [0, 1, 1, 2, 3]
  {
    ghost var start := SourceColumn(generate.db.querySources);
    RunUnfiltered(generate, {[]});
    RunSingleSource(generate, Entry, 1, {[], [0]});
    RunSectionList(generate, {[], [0], [1]});
    assert {[], [0]} + {[1]} + {[1, 2, 3]} == {[], [0], [1], [1, 2, 3]};
    assert start + [0] + [1] + [1, 2, 3] == start + [0, 1, 1, 2, 3];
  }

  /** The single-source filters of products, campaigns and mailing lists. */
  method RunOtherTypeFilters(generate: GenerateCache)
    requires generate.Valid() && SourcesWithin(generate, {[], [0], [1], [1, 2, 3]})
    modifies generate, generate.db
    ensures SourceColumn(generate.db.querySources) == old(SourceColumn(generate.db.querySources)) + [4, 5, 6]
  {
    ghost var start := SourceColumn(generate.db.querySources);
    RunSingleSource(generate, Product, 4, {[], [0], [1], [1, 2, 3]});
    RunSingleSource(generate, Campaign, 5, {[], [0], [1], [1, 2, 3], [4]});
    RunSingleSource(generate, MailingList, 6, {[], [0], [1], [1, 2, 3], [4], [5]});
    assert start + [4] + [5] + [6] == start + [4, 5, 6];
  }

  method SaveElementQuerySourceRecords() returns (first: seq<nat>, second: seq<nat>)
    ensures first == []
    ensures second == [0, 1, 1, 2, 3, 4, 5, 6]
  {
    var db := new Database();
    var generate := new GenerateCache(db);
    assert QuerySigs(db.queries) == [] && SourceColumn(db.querySources) == [];
    RunOperatorFilters(generate);
    first := SourceColumn(db.querySources);
    RunSourceFilters(generate);
    second := SourceColumn(db.querySources);
  }

  // Tags.

  /** A page saved with tags is found by its tags and not by another. */
  method SaveCacheTags(tags: seq<string>, other: string, timestamp: string) returns (missing: seq<nat>, found: seq<nat>)
    requires tags != [] && other !in tags
    ensures missing == [] && found == [1]
  {
    var rows := SaveTagged(tags, Page, Output, timestamp);
    OnePageTags(1, tags, [other]);
    OnePageTags(1, tags, tags);
    assert tags[0] in tags;
    missing := TagCacheIds(rows, [other]);
    found := TagCacheIds(rows, tags);
  }

  /** Saves the output with the given tags into fresh tables, and returns the tag rows written. */
  method SaveTagged(tags: seq<string>, site: SiteUri, output: string, timestamp: string) returns (rows: seq<TagRow>)
    ensures rows == TagRows(1, tags)
  {
    var db := new Database();
    var generate := new GenerateCache(db);
    generate.options := generate.options.(tags := tags);
    assert db.State() == Empty;
    ghost var stored := Decorate(output, site.uri, CommentsOn, timestamp);
    var _ := generate.Save(output, site, timestamp);
    ghost var after := SaveT(Empty, site, [], [], tags, stored);
    assert db.State() == after;
    SaveIntoEmpty(site, [], [], tags, stored);
    assert after.tags == TagRows(1, tags);
    rows := db.tags;
  }
}
