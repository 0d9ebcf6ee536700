/**
 * The signature codec: decides whether an element query can be tracked,
 * reduces it to a canonical signature so that equivalent queries made in
 * different renders are recognised as one dependency, and extracts the source
 * ids that narrow which changed elements can affect it.
 */
module SignatureCodec {
  import opened Wrappers
  import opened Strings
  import opened Elements
  import opened Queries

  // ---------------------------------------------------------------------------
  // Canonical parameter values

  /** In canonical form a digit string has become the integer it spells. */
  predicate IsCanonicalScalar(x: Scalar) {
    x.StrVal? ==> !IsDigits(x.s)
  }

  predicate IsCanonical(c: seq<Scalar>) {
    forall i :: 0 <= i < |c| ==> IsCanonicalScalar(c[i])
  }

  /** '1' and 1 become the same scalar; other strings stay strings. */
  function NormalizeScalar(x: Scalar): (r: Scalar)
    ensures IsCanonicalScalar(r)
    ensures IsCanonicalScalar(x) ==> r == x
    ensures r.IntVal? ==> x.IntVal? || IsDigits(x.s)
  {
    if x.StrVal? && IsDigits(x.s) then IntVal(ParseNat(x.s)) else x
  }

  function NormalizeEach(xs: seq<Scalar>): (r: seq<Scalar>)
    ensures |r| == |xs| && IsCanonical(r)
    ensures forall i :: 0 <= i < |xs| ==> r[i] == NormalizeScalar(xs[i])
  {
    if xs == [] then [] else [NormalizeScalar(xs[0])] + NormalizeEach(xs[1..])
  }

  function AsStrings(pieces: seq<string>): (r: seq<Scalar>)
    ensures |r| == |pieces|
    ensures forall i :: 0 <= i < |r| ==> r[i] == StrVal(pieces[i])
  {
    if pieces == [] then [] else [StrVal(pieces[0])] + AsStrings(pieces[1..])
  }

  /**
   * The canonical list a parameter value stands for: a string is a
   * comma-separated list (pieces trimmed, empty pieces dropped), an array is
   * taken element by element, and digit strings are read as integers.
   */
  function Normalize(v: Value): (r: seq<Scalar>)
    ensures IsCanonical(r)
    ensures v.Many? ==> |r| == |v.xs|
  {
    match v
    case One(IntVal(n)) => [IntVal(n)]
    case One(StrVal(s)) => NormalizeEach(AsStrings(SplitList(s)))
    case Many(xs) => NormalizeEach(xs)
  }

  /** Normalizing is idempotent: a canonical list, passed again as an array, is unchanged. */
  lemma NormalizeIdempotent(v: Value)
    ensures Normalize(Many(Normalize(v))) == Normalize(v)
  {
    var c := Normalize(v);
    assert Normalize(Many(c)) == NormalizeEach(c);
    assert forall i :: 0 <= i < |c| ==> NormalizeScalar(c[i]) == c[i];
  }

  /** The integers of a list of naturals, in order. */
  function Ints(xs: seq<nat>): (r: seq<Scalar>)
    ensures |r| == |xs|
    ensures forall i :: 0 <= i < |r| ==> r[i] == IntVal(xs[i])
  {
    if xs == [] then [] else [IntVal(xs[0])] + Ints(xs[1..])
  }

  /** The decimal strings of a list of naturals, in order. */
  function Decimals(xs: seq<nat>): (r: seq<string>)
    ensures |r| == |xs|
    ensures forall i :: 0 <= i < |r| ==> r[i] == NatToString(xs[i])
  {
    if xs == [] then [] else [NatToString(xs[0])] + Decimals(xs[1..])
  }

  /** A number as an integer, as a digit string, or as a one-element array of either, is one canonical value. */
  lemma {:induction false} ScalarFormsAgree(n: nat)
    ensures Normalize(One(IntVal(n))) == [IntVal(n)]
    ensures Normalize(One(StrVal(NatToString(n)))) == [IntVal(n)]
    ensures Normalize(Many([IntVal(n)])) == [IntVal(n)]
    ensures Normalize(Many([StrVal(NatToString(n))])) == [IntVal(n)]
  {
    var d := NatToString(n);
    DigitsArePlain(d);
    SplitListJoin([d]);
    assert JoinWith([d], ',') == d;
    ParseNatToString(n);
  }

  /** A comma-separated string of numbers and the array of those numbers are one canonical value. */
  lemma {:induction false} CommaListAgrees(xs: seq<nat>)
    requires |xs| >= 1
    ensures Normalize(One(StrVal(JoinWith(Decimals(xs), ',')))) == Ints(xs)
    ensures Normalize(Many(Ints(xs))) == Ints(xs)
  {
    var ds := Decimals(xs);
    forall i | 0 <= i < |ds|
      ensures ds[i] != "" && ',' !in ds[i] && IsTrimmed(ds[i])
    {
      DigitsArePlain(ds[i]);
    }
    SplitListJoin(ds);
    DecimalsNormalize(xs);
    NormalizeInts(xs);
  }

  /** The decimal strings of naturals, read as scalars, canonicalise to the naturals. */
  lemma DecimalsNormalize(xs: seq<nat>)
    ensures NormalizeEach(AsStrings(Decimals(xs))) == Ints(xs)
  {
    var r := NormalizeEach(AsStrings(Decimals(xs)));
    forall i | 0 <= i < |xs|
      ensures r[i] == IntVal(xs[i])
    {
      ParseNatToString(xs[i]);
    }
  }

  /** List pieces as people type them, with a blank after each comma: '1', ' 2', ' 3'. */
  function Padded(ds: seq<string>): (r: seq<string>)
    ensures |r| == |ds|
    ensures |ds| > 0 ==> r[0] == ds[0]
    ensures forall i :: 0 < i < |ds| ==> r[i] == " " + ds[i]
  {
    if ds == [] then [] else [ds[0]] + seq(|ds| - 1, i requires 0 <= i < |ds| - 1 => " " + ds[i + 1])
  }

  /** Each padded piece of digit strings is comma-free and trims to its digit string. */
  lemma PaddedPieces(ds: seq<string>)
    requires forall i :: 0 <= i < |ds| ==> IsDigits(ds[i])
    ensures forall i :: 0 <= i < |ds| ==>
      ',' !in Padded(ds)[i] && Trim(Padded(ds)[i]) == ds[i] && ds[i] != ""
  {
    var parts := Padded(ds);
    forall i | 0 <= i < |ds|
      ensures ',' !in parts[i] && Trim(parts[i]) == ds[i] && ds[i] != ""
    {
      DigitsArePlain(ds[i]);
      if i == 0 {
        TrimTrimmed(ds[i]);
      } else {
        TrimBlankDigits(ds[i]);
        assert parts[i] == " " + ds[i];
      }
    }
  }

  /** A list written with blanks after the commas, such as '1, 2, 3', is the array of its numbers. */
  lemma {:induction false} PaddedListAgrees(xs: seq<nat>)
    requires |xs| >= 1
    ensures Normalize(One(StrVal(JoinWith(Padded(Decimals(xs)), ',')))) == Ints(xs)
  {
    var ds := Decimals(xs);
    var parts := Padded(ds);
    PaddedPieces(ds);
    SplitOnJoin(parts, ',');
    NonEmptyTrimmedTo(parts, ds);
    assert SplitList(JoinWith(parts, ',')) == ds;
    DecimalsNormalize(xs);
  }

  /** A string without commas or outer blanks that is not a number is one string value: 'not 1', '> 1'. */
  lemma PlainStringValue(s: string)
    requires s != "" && ',' !in s && IsTrimmed(s) && !IsDigits(s)
    ensures Normalize(One(StrVal(s))) == [StrVal(s)]
  {
    SplitListJoin([s]);
    assert JoinWith([s], ',') == s;
  }

  // ---------------------------------------------------------------------------
  // Signatures

  /** A parameter whose canonical value is empty (null, '', 0, '0', []) counts as not set. */
  predicate IsEmptyValue(c: seq<Scalar>) {
    c == [] || c == [IntVal(0)]
  }

  /** The set parameters, each in canonical form, without those set to an empty value. */
  function CanonicalParams(params: map<string, Value>): map<string, seq<Scalar>> {
    map k | k in params && !IsEmptyValue(Normalize(params[k])) :: Normalize(params[k])
  }

  /** The column names of an ORDER BY, in order. */
  function ColumnNames(terms: seq<OrderTerm>): (r: seq<string>)
    ensures |r| <= |terms|
  {
    if terms == [] then []
    else if terms[0].Column? then [terms[0].name] + ColumnNames(terms[1..])
    else ColumnNames(terms[1..])
  }

  /** The canonical identity of a query: what the query-record table is looked up by. */
  datatype Signature = Signature(
    elementType: ElementType,
    params: map<string, seq<Scalar>>,
    orderBy: seq<string>,
    joins: seq<string>)

  function SignatureOf(q: Query): Signature {
    Signature(q.elementType, CanonicalParams(q.params), ColumnNames(q.orderBy), q.joins)
  }

  /** Setting one parameter changes the canonical parameters at that name only. */
  lemma CanonicalParamsUpdate(params: map<string, Value>, name: string, v: Value)
    ensures CanonicalParams(params[name := v]) ==
      if IsEmptyValue(Normalize(v)) then CanonicalParams(params) - {name}
      else CanonicalParams(params)[name := Normalize(v)]
  {
    if IsEmptyValue(Normalize(v)) {
      CanonicalParamsDrop(params, name, v);
    } else {
      CanonicalParamsSet(params, name, v);
    }
  }

  lemma CanonicalParamsDrop(params: map<string, Value>, name: string, v: Value)
    requires IsEmptyValue(Normalize(v))
    ensures CanonicalParams(params[name := v]) == CanonicalParams(params) - {name}
  {
    var p := params[name := v];
    var m := CanonicalParams(p);
    var e := CanonicalParams(params) - {name};
    forall k | k in m
      ensures k in e && m[k] == e[k]
    {
      assert k != name;
      assert p[k] == params[k];
    }
    forall k | k in e
      ensures k in m
    {
      assert k != name && k in params && !IsEmptyValue(Normalize(params[k]));
      assert p[k] == params[k];
    }
    assert m.Keys == e.Keys;
  }

  lemma CanonicalParamsSet(params: map<string, Value>, name: string, v: Value)
    requires !IsEmptyValue(Normalize(v))
    ensures CanonicalParams(params[name := v]) == CanonicalParams(params)[name := Normalize(v)]
  {
    var m := CanonicalParams(params[name := v]);
    var e := CanonicalParams(params)[name := Normalize(v)];
    assert m.Keys == e.Keys;
    assert forall k :: k in m ==> m[k] == e[k];
  }

  /** A query of one type with one parameter set has that parameter's canonical value as its only parameter. */
  lemma OneParamSignature(t: ElementType, name: string, v: Value)
    requires !IsEmptyValue(Normalize(v))
    ensures SignatureOf(Where(Find(t), name, v)) == Signature(t, map[name := Normalize(v)], [], [])
  {
    CanonicalParamsUpdate(map[], name, v);
    assert CanonicalParams(map[]) == map[];
    assert map[][name := Normalize(v)] == map[name := Normalize(v)];
  }

  /** Setting a parameter to an empty value (`limit('')`, `offset(0)`) leaves the signature as it was. */
  lemma EmptyParamIgnored(q: Query, name: string, v: Value)
    requires name !in q.params && IsEmptyValue(Normalize(v))
    ensures SignatureOf(Where(q, name, v)) == SignatureOf(q)
    ensures IsTrackable(Where(q, name, v)) == IsTrackable(q)
  {
    EmptyParamUnchanged(q.params, name, v);
    SameCanonicalParams(q, Where(q, name, v));
  }

  /** Adding a parameter set to an empty value leaves the canonical parameters as they were. */
  lemma EmptyParamUnchanged(params: map<string, Value>, name: string, v: Value)
    requires name !in params && IsEmptyValue(Normalize(v))
    ensures CanonicalParams(params[name := v]) == CanonicalParams(params)
  {
    CanonicalParamsUpdate(params, name, v);
    var c := CanonicalParams(params);
    assert name !in c;
    assert c - {name} == c;
  }

  /** Queries that differ only in parameters with one canonical form have one signature and one trackability. */
  lemma SameCanonicalParams(q: Query, p: Query)
    requires p == q.(params := p.params) && CanonicalParams(p.params) == CanonicalParams(q.params)
    ensures SignatureOf(p) == SignatureOf(q)
    ensures IsTrackable(p) == IsTrackable(q)
  {
  }

  /** Two queries whose parameters are set to one canonical value each have one signature. */
  lemma EquivalentValuesOneSignature(q: Query, name: string, v: Value, w: Value)
    requires Normalize(v) == Normalize(w)
    ensures SignatureOf(Where(q, name, v)) == SignatureOf(Where(q, name, w))
    ensures IsTrackable(Where(q, name, v)) == IsTrackable(Where(q, name, w))
  {
    CanonicalParamsUpdate(q.params, name, v);
    CanonicalParamsUpdate(q.params, name, w);
  }

  // ---------------------------------------------------------------------------
  // Trackability

  const RelationsTable: string := "{{%relations}}"

  predicate AllIntegers(c: seq<Scalar>) {
    forall i :: 0 <= i < |c| ==> c[i].IntVal?
  }

  /** The query asks for specific element ids (`id(1)`, `id('1, 2, 3')`, `id([1, 2, 3])`). */
  predicate HasNumericIds(q: Query) {
    var c := CanonicalParams(q.params);
    "id" in c && AllIntegers(c["id"])
  }

  predicate HasSlug(q: Query) {
    "slug" in CanonicalParams(q.params)
  }

  predicate IsRandomTerm(t: OrderTerm) {
    t.Column? && ContainsIgnoringCase(t.name, "RAND(")
  }

  predicate HasRandomOrder(q: Query) {
    exists i :: 0 <= i < |q.orderBy| && IsRandomTerm(q.orderBy[i])
  }

  predicate HasExpressionOrder(q: Query) {
    Expression in q.orderBy
  }

  predicate HasRelationsJoin(q: Query) {
    exists i :: 0 <= i < |q.joins| && Contains(q.joins[i], RelationsTable)
  }

  /**
   * A query is tracked unless its result is pinned to given element ids or a
   * slug, its order is random or an opaque expression, or it joins the
   * relations table.
   */
  predicate IsTrackable(q: Query) {
    !HasNumericIds(q) && !HasSlug(q) && !HasRandomOrder(q) && !HasExpressionOrder(q) && !HasRelationsJoin(q)
  }

  /** Any id filter made only of integers makes a query untracked. */
  lemma NumericIdsUntracked(q: Query, v: Value)
    requires !IsEmptyValue(Normalize(v)) && AllIntegers(Normalize(v))
    ensures !IsTrackable(Where(q, "id", v))
  {
    CanonicalParamsUpdate(q.params, "id", v);
    var c := CanonicalParams(q.params["id" := v]);
    assert "id" in c && c["id"] == Normalize(v);
  }

  /** An id filter with a non-numeric part (a negation or an operator) does not by itself stop tracking. */
  lemma OperatorIdsTracked(t: ElementType, v: Value)
    requires !AllIntegers(Normalize(v))
    ensures IsTrackable(Where(Find(t), "id", v))
  {
    var q := Where(Find(t), "id", v);
    assert CanonicalParams(q.params).Keys <= {"id"};
  }

  /** Any slug filter makes a query untracked. */
  lemma SlugUntracked(q: Query, v: Value)
    requires !IsEmptyValue(Normalize(v))
    ensures !IsTrackable(Where(q, "slug", v))
  {
    CanonicalParamsUpdate(q.params, "slug", v);
    assert "slug" in CanonicalParams(q.params["slug" := v]);
  }

  /** Ordering by an opaque expression makes a query untracked. */
  lemma ExpressionOrderUntracked(q: Query)
    ensures !IsTrackable(OrderBy(q, [Expression]))
  {
    assert OrderBy(q, [Expression]).orderBy[0] == Expression;
  }

  /** Ordering by a term that calls RAND( in any letter case makes a query untracked. */
  lemma RandomOrderUntracked(q: Query, head: string, args: string)
    requires Lower(head) == "rand("
    ensures !IsTrackable(OrderBy(q, [Column(head + args)]))
  {
    var name := head + args;
    var o := OrderBy(q, [Column(name)]);
    LowerConcat(head, args);
    ContainsMiddle("", "rand(", Lower(args));
    assert "" + "rand(" + Lower(args) == Lower(name);
    LowerRand();
    assert IsRandomTerm(o.orderBy[0]);
    assert HasRandomOrder(o);
  }

  lemma LowerRand()
    ensures Lower("RAND(") == "rand("
  {
  }

  lemma LowerConcat(a: string, b: string)
    ensures Lower(a + b) == Lower(a) + Lower(b)
  {
    var l := Lower(a + b);
    var r := Lower(a) + Lower(b);
    forall i | 0 <= i < |a + b|
      ensures l[i] == r[i]
    {
      if i < |a| {
        assert (a + b)[i] == a[i];
      } else {
        assert (a + b)[i] == b[i - |a|];
      }
    }
    assert |l| == |r|;
  }

  /** Joining the relations table, under any alias, makes a query untracked. */
  lemma RelationsJoinUntracked(q: Query, alias: string)
    ensures !IsTrackable(InnerJoin(q, RelationsTable + alias))
  {
    var r := InnerJoin(q, RelationsTable + alias);
    ContainsMiddle("", RelationsTable, alias);
    assert "" + RelationsTable + alias == RelationsTable + alias;
    assert r.joins[|r.joins| - 1] == RelationsTable + alias;
  }

  /** An unfiltered query with one join stays tracked exactly when the joined table is not the relations table. */
  lemma OtherJoinTracked(t: ElementType, table: string)
    ensures IsTrackable(InnerJoin(Find(t), table)) <==> !Contains(table, RelationsTable)
  {
    var q := InnerJoin(Find(t), table);
    assert q.joins == [table];
    assert CanonicalParams(q.params) == map[];
    assert HasRelationsJoin(q) <==> Contains(q.joins[0], RelationsTable);
  }

  // ---------------------------------------------------------------------------
  // Source ids

  predicate AllNaturals(c: seq<Scalar>) {
    forall i :: 0 <= i < |c| ==> c[i].IntVal? && c[i].n >= 0
  }

  function Naturals(c: seq<Scalar>): (r: seq<nat>)
    requires AllNaturals(c)
    ensures |r| == |c|
    ensures forall i :: 0 <= i < |c| ==> c[i] == IntVal(r[i])
  {
    if c == [] then [] else [c[0].n as nat] + Naturals(c[1..])
  }

  /**
   * The source rows to store for a signature. The sentinel [0] stands for
   * "any source" when the element type has no source attribute or the
   * query does not filter on it; a filter listing source ids yields those ids;
   * a filter with a negation or a comparison ('not 1', '> 1', ['not', 1])
   * yields no rows at all.
   */
  function SourceIds(sig: Signature): (r: seq<nat>)
    ensures Distinct(r)
    ensures SourceAttribute(sig.elementType).None? ==> r == [0]
    ensures SourceAttribute(sig.elementType).Some? ==>
      var attr := SourceAttribute(sig.elementType).value;
      && (attr !in sig.params || sig.params[attr] == [] ==> r == [0])
      && (attr in sig.params && !AllNaturals(sig.params[attr]) ==> r == [])
      && (attr in sig.params && sig.params[attr] != [] && AllNaturals(sig.params[attr]) ==>
            r != [] && forall x: nat :: x in r <==> IntVal(x) in sig.params[attr])
  {
    match SourceAttribute(sig.elementType)
    case None => [0]
    case Some(attr) =>
      if attr !in sig.params || sig.params[attr] == [] then [0]
      else if AllNaturals(sig.params[attr]) then
        var c := sig.params[attr];
        var ns := Naturals(c);
        var r := Dedup(ns);
        assert ns[0] in r;
        assert forall x: nat :: IntVal(x) in c ==> x in ns;
        r
      else []
  }

  /** A query that does not filter on its type's source admits any source. */
  lemma UnfilteredQueryAnySource(t: ElementType)
    ensures SourceIds(SignatureOf(Find(t))) == [0]
  {
  }

  /** A filter listing source ids, as an array or as a comma-separated string, stores exactly those ids. */
  lemma {:induction false} ListedSources(t: ElementType, xs: seq<nat>, n: nat)
    requires SourceAttribute(t).Some? && |xs| >= 1
    ensures n in SourceIds(SignatureOf(Where(Find(t), SourceAttribute(t).value, Many(Ints(xs))))) <==> n in xs
    ensures SignatureOf(Where(Find(t), SourceAttribute(t).value, One(StrVal(JoinWith(Decimals(xs), ','))))) ==
            SignatureOf(Where(Find(t), SourceAttribute(t).value, Many(Ints(xs))))
  {
    var attr := SourceAttribute(t).value;
    CommaListAgrees(xs);
    EquivalentValuesOneSignature(Find(t), attr, One(StrVal(JoinWith(Decimals(xs), ','))), Many(Ints(xs)));
    if xs == [0] {
      ZeroSourceFilter(t);
    } else {
      ListedNaturals(t, xs);
      DedupMembers(xs);
    }
  }

  /** Filtering on source 0 is no filter at all. */
  lemma ZeroSourceFilter(t: ElementType)
    requires SourceAttribute(t).Some?
    ensures SourceIds(SignatureOf(Where(Find(t), SourceAttribute(t).value, Many(Ints([0]))))) == [0]
  {
    var attr := SourceAttribute(t).value;
    assert Ints([0]) == [IntVal(0)];
    NormalizeInts([0]);
    CanonicalParamsUpdate(map[], attr, Many(Ints([0])));
    assert CanonicalParams(map[]) == map[];
  }

  /** A listed source filter other than [0] stores the listed ids, each once. */
  lemma ListedNaturals(t: ElementType, xs: seq<nat>)
    requires SourceAttribute(t).Some? && |xs| >= 1 && xs != [0]
    ensures SourceIds(SignatureOf(Where(Find(t), SourceAttribute(t).value, Many(Ints(xs))))) == Dedup(xs)
  {
    var attr := SourceAttribute(t).value;
    var c := Ints(xs);
    NormalizeInts(xs);
    IntsNotEmptyValue(xs);
    OneParamSignature(t, attr, Many(c));
    NaturalsOfInts(xs);
    SourceIdsOfNaturals(t, attr, c);
  }

  /** A non-empty list of naturals other than [0], as integers, is not an empty value. */
  lemma IntsNotEmptyValue(xs: seq<nat>)
    requires |xs| >= 1 && xs != [0]
    ensures !IsEmptyValue(Ints(xs))
  {
    var c := Ints(xs);
    assert xs == [xs[0]] + xs[1..];
    assert c[0] == IntVal(xs[0]);
  }

  /** A source filter with a negation or a comparison stores no source ids. */
  lemma OperatorFilterNoSources(t: ElementType, v: Value)
    requires SourceAttribute(t).Some?
    requires !IsEmptyValue(Normalize(v)) && !AllNaturals(Normalize(v))
    ensures SourceIds(SignatureOf(Where(Find(t), SourceAttribute(t).value, v))) == []
  {
    var attr := SourceAttribute(t).value;
    assert SignatureOf(Where(Find(t), attr, v)).params[attr] == Normalize(v);
  }

  /** A filter on the type's source attribute never stops tracking. */
  lemma SourceFilterTracked(t: ElementType, v: Value)
    requires SourceAttribute(t).Some?
    ensures IsTrackable(Where(Find(t), SourceAttribute(t).value, v))
  {
    var q := Where(Find(t), SourceAttribute(t).value, v);
    assert CanonicalParams(q.params).Keys <= {SourceAttribute(t).value};
  }

  /** An array of integers is already canonical. */
  lemma NormalizeInts(xs: seq<nat>)
    ensures Normalize(Many(Ints(xs))) == Ints(xs)
  {
    var c := Ints(xs);
    assert forall i :: 0 <= i < |c| ==> NormalizeScalar(c[i]) == c[i];
  }

  /** The naturals of the integers of a list of naturals are the list. */
  lemma NaturalsOfInts(xs: seq<nat>)
    ensures AllNaturals(Ints(xs)) && Naturals(Ints(xs)) == xs
  {
    var c := Ints(xs);
    assert AllNaturals(c);
    var ns := Naturals(c);
    assert forall i :: 0 <= i < |xs| ==> ns[i] == xs[i];
  }

  /** The source ids of a one-parameter signature on the source attribute listing naturals. */
  lemma SourceIdsOfNaturals(t: ElementType, attr: string, c: seq<Scalar>)
    requires SourceAttribute(t) == Some(attr) && c != [] && AllNaturals(c)
    ensures SourceIds(Signature(t, map[attr := c], [], [])) == Dedup(Naturals(c))
  {
  }

  /** A filter listing distinct positive source ids stores exactly those ids, in order. */
  lemma ExactSources(t: ElementType, xs: seq<nat>)
    requires SourceAttribute(t).Some? && xs != [] && Distinct(xs)
    requires forall i :: 0 <= i < |xs| ==> xs[i] > 0
    ensures SourceIds(SignatureOf(Where(Find(t), SourceAttribute(t).value, Many(Ints(xs))))) == xs
  {
    var attr := SourceAttribute(t).value;
    var c := Ints(xs);
    NormalizeInts(xs);
    assert c[0] != IntVal(0);
    OneParamSignature(t, attr, Many(c));
    NaturalsOfInts(xs);
    SourceIdsOfNaturals(t, attr, c);
    DedupDistinct(xs);
  }

  /** A filter on one positive source id stores exactly that id. */
  lemma SingleSource(t: ElementType, n: nat)
    requires SourceAttribute(t).Some? && n > 0
    ensures IsTrackable(Where(Find(t), SourceAttribute(t).value, One(IntVal(n))))
    ensures SourceIds(SignatureOf(Where(Find(t), SourceAttribute(t).value, One(IntVal(n))))) == [n]
  {
    SourceFilterTracked(t, One(IntVal(n)));
    OneParamSignature(t, SourceAttribute(t).value, One(IntVal(n)));
    assert Naturals([IntVal(n)]) == [n];
  }
}
