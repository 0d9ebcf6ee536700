/** Option values and duplicate-free sequences, shared by every other module. */
module Wrappers {

  datatype Option<+T> = None | Some(value: T)

  /** No element occurs twice. */
  predicate Distinct<T(==)>(s: seq<T>) {
    forall i, j :: 0 <= i < j < |s| ==> s[i] != s[j]
  }

  /** The elements of `s` in first-occurrence order, each once. */
  function Dedup<T(==)>(s: seq<T>): (r: seq<T>)
    ensures Distinct(r)
    ensures forall i :: 0 <= i < |r| ==> r[i] in s
    ensures forall i :: 0 <= i < |s| ==> s[i] in r
    ensures |r| <= |s|
  {
    if s == [] then []
    else
      var r := Dedup(s[..|s| - 1]);

      if s[|s| - 1] in r then r else r + [s[|s| - 1]]
  }

  /** Deduplication keeps exactly the members. */
  lemma DedupMembers<T>(s: seq<T>)
    ensures forall x :: x in Dedup(s) <==> x in s
  {
    var r := Dedup(s);
    forall x | x in s ensures x in r {
      var i :| 0 <= i < |s| && s[i] == x;
    }
  }

  /** A duplicate-free sequence is its own deduplication. */
  lemma {:induction false} DedupDistinct<T>(s: seq<T>)
    requires Distinct(s)
    ensures Dedup(s) == s
  {
    if s != [] {
      var init := s[..|s| - 1];
      assert Distinct(init);
      DedupDistinct(init);
      assert s[|s| - 1] !in init;
      assert init + [s[|s| - 1]] == s;
    }
  }

  /** Deduplicating copies of one value leaves that value once. */
  lemma {:induction false} DedupAllSame<T>(s: seq<T>, x: T)
    requires s != [] && forall i :: 0 <= i < |s| ==> s[i] == x
    ensures Dedup(s) == [x]
  {
    var init := s[..|s| - 1];
    if init != [] {
      DedupAllSame(init, x);
    }
  }

  /** The tail of a duplicate-free sequence is duplicate-free and lacks the head. */
  lemma DistinctTail<T>(s: seq<T>)
    requires Distinct(s) && s != []
    ensures Distinct(s[1..]) && s[0] !in s[1..]
  {
    assert forall i :: 0 <= i < |s[1..]| ==> s[1..][i] == s[i + 1];
  }

  /** Appending an element to a duplicate-free sequence unless it is already there. */
  function AppendNew<T(==)>(s: seq<T>, x: T): (r: seq<T>)
    requires Distinct(s)
    ensures Distinct(r)
    ensures x in r && forall i :: 0 <= i < |s| ==> s[i] in r
    ensures x in s ==> r == s
    ensures x !in s ==> r == s + [x]
  {
    if x in s then s else s + [x]
  }

  /** Adding `x` behind a first element other than `x` adds it to the rest. */
  lemma AppendNewCons<T>(y: T, s: seq<T>, x: T)
    requires y != x && Distinct([y] + s) && Distinct(s)
    ensures AppendNew([y] + s, x) == [y] + AppendNew(s, x)
  {
    assert x in [y] + s <==> x in s;
  }
}
