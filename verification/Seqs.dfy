/** Optional values, and the few facts about sequences that the models share. */
module Seqs {

  datatype Option<+T> = None | Some(value: T) {
    function GetOr(default: T): T {
      match this
      case Some(v) => v
      case None => default
    }
  }

  function Elements<T>(s: seq<T>): set<T> { set x | x in s }

  ghost predicate NoDup<T>(s: seq<T>) {
    forall i, j :: 0 <= i < j < |s| ==> s[i] != s[j]
  }

  function RemoveAt<T>(s: seq<T>, i: nat): (r: seq<T>)
    requires i < |s|
    ensures |r| == |s| - 1
  {
    s[..i] + s[i + 1..]
  }

  /** The first position of x, as `iter().position(..)` finds it. */
  function IndexOf<T(==)>(s: seq<T>, x: T): (i: nat)
    requires x in s
    ensures i < |s| && s[i] == x
    ensures forall j :: 0 <= j < i ==> s[j] != x
  {
    if s[0] == x then 0 else 1 + IndexOf(s[1..], x)
  }

  function Without<T(==)>(s: seq<T>, x: T): (r: seq<T>) {
    if x in s then RemoveAt(s, IndexOf(s, x)) else s
  }

  /** The elements satisfying f, in their original order. */
  function Filter<T>(s: seq<T>, f: T -> bool): (r: seq<T>)
    ensures |r| <= |s|
  {
    if s == [] then [] else
      var init := Filter(s[..|s| - 1], f);
      if f(s[|s| - 1]) then init + [s[|s| - 1]] else init
  }

  lemma RemoveAtMembers<T>(s: seq<T>, i: nat)
    requires i < |s| && NoDup(s)
    ensures NoDup(RemoveAt(s, i))
    ensures forall x :: x in RemoveAt(s, i) <==> x in s && x != s[i]
  {
    var r := RemoveAt(s, i);
    assert forall k :: 0 <= k < |r| ==> r[k] == if k < i then s[k] else s[k + 1];
    forall x ensures x in r <==> x in s && x != s[i] {
      if x in s && x != s[i] {
        var k :| 0 <= k < |s| && s[k] == x;
        assert r[if k < i then k else k - 1] == x;
      }
    }
  }

  lemma WithoutMembers<T>(s: seq<T>, x: T)
    requires NoDup(s)
    ensures NoDup(Without(s, x))
    ensures forall y :: y in Without(s, x) <==> y in s && y != x
    ensures x in s ==> |Without(s, x)| == |s| - 1
  {
    if x in s {
      RemoveAtMembers(s, IndexOf(s, x));
    }
  }

  lemma {:induction false} FilterMembers<T>(s: seq<T>, f: T -> bool)
    ensures forall x :: x in Filter(s, f) <==> x in s && f(x)
    ensures NoDup(s) ==> NoDup(Filter(s, f))
  {
    if s != [] {
      var init, last := s[..|s| - 1], s[|s| - 1];
      FilterMembers(init, f);
      assert s == init + [last];
      forall x ensures x in Filter(s, f) <==> x in s && f(x) {
        assert x in s <==> x in init || x == last;
      }
      if NoDup(s) {
        assert last !in init;
      }
    }
  }

  ghost predicate Increasing(places: seq<nat>) {
    forall i, j :: 0 <= i < j < |places| ==> places[i] < places[j]
  }

  /** r is s at exactly the places whose elements satisfy f, in the order of s. */
  ghost predicate KeepsAt<T>(s: seq<T>, f: T -> bool, r: seq<T>, places: seq<nat>) {
    Increasing(places) && |places| == |r|
    && (forall i: nat :: i in places <==> i < |s| && f(s[i]))
    && forall k :: 0 <= k < |r| ==> places[k] < |s| && r[k] == s[places[k]]
  }

  lemma KeepsOneMore<T>(s: seq<T>, x: T, f: T -> bool, r: seq<T>, places: seq<nat>)
    requires KeepsAt(s, f, r, places)
    ensures f(x) ==> KeepsAt(s + [x], f, r + [x], places + [|s|])
    ensures !f(x) ==> KeepsAt(s + [x], f, r, places)
  {
    var n := |s|;
    forall k | 0 <= k < |places| ensures places[k] < n && (s + [x])[places[k]] == r[k] {}
    if f(x) {
      forall i: nat ensures i in places + [n] <==> i < n + 1 && f((s + [x])[i]) {
        assert i in places + [n] <==> i in places || i == n;
      }
    }
  }

  /** Filtering keeps the original order. */
  lemma {:induction false} FilterInOrder<T>(s: seq<T>, f: T -> bool) returns (places: seq<nat>)
    ensures KeepsAt(s, f, Filter(s, f), places)
  {
    places := [];
    if s != [] {
      var init, last := s[..|s| - 1], s[|s| - 1];
      places := FilterInOrder(init, f);
      KeepsOneMore(init, last, f, Filter(init, f), places);
      assert s == init + [last];
      places := if f(last) then places + [|init|] else places;
    }
  }

  lemma {:induction false} FilterAppend<T>(s: seq<T>, t: seq<T>, f: T -> bool)
    ensures Filter(s + t, f) == Filter(s, f) + Filter(t, f)
  {
    if t == [] {
      assert s + t == s;
    } else {
      var init, last := t[..|t| - 1], t[|t| - 1];
      FilterAppend(s, init, f);
      assert (s + t)[..|s + t| - 1] == s + init;
      assert (s + t)[|s + t| - 1] == last;
    }
  }

  lemma {:induction false} FilterAgree<T>(s: seq<T>, f: T -> bool, g: T -> bool)
    requires forall x :: x in s ==> f(x) == g(x)
    ensures Filter(s, f) == Filter(s, g)
  {
    if s != [] {
      assert s[|s| - 1] in s;
      forall x | x in s[..|s| - 1] ensures x in s {}
      FilterAgree(s[..|s| - 1], f, g);
    }
  }

  lemma {:induction false} FilterAll<T>(s: seq<T>, f: T -> bool)
    requires forall x :: x in s ==> f(x)
    ensures Filter(s, f) == s
  {
    if s != [] {
      assert s[|s| - 1] in s;
      forall x | x in s[..|s| - 1] ensures x in s {}
      FilterAll(s[..|s| - 1], f);
      assert s == s[..|s| - 1] + [s[|s| - 1]];
    }
  }

  lemma {:induction false} FilterNone<T>(s: seq<T>, f: T -> bool)
    requires forall x :: x in s ==> !f(x)
    ensures Filter(s, f) == []
  {
    if s != [] {
      assert s[|s| - 1] in s;
      forall x | x in s[..|s| - 1] ensures x in s {}
      FilterNone(s[..|s| - 1], f);
    }
  }

  lemma {:induction false} FilterTwice<T>(s: seq<T>, f: T -> bool, g: T -> bool, h: T -> bool)
    requires forall x :: h(x) == (f(x) && g(x))
    ensures Filter(Filter(s, f), g) == Filter(s, h)
  {
    if s != [] {
      var init, last := s[..|s| - 1], s[|s| - 1];
      FilterTwice(init, f, g, h);
      if f(last) {
        assert Filter(s, f)[..|Filter(s, f)| - 1] == Filter(init, f);
      }
    }
  }

  lemma {:induction false} FilterRemoved<T>(s: seq<T>, i: nat, f: T -> bool)
    requires i < |s| && !f(s[i])
    ensures Filter(RemoveAt(s, i), f) == Filter(s, f)
  {
    var init, last := s[..|s| - 1], s[|s| - 1];
    if i < |s| - 1 {
      FilterRemoved(init, i, f);
      assert RemoveAt(s, i)[..|s| - 2] == RemoveAt(init, i);
      assert RemoveAt(s, i)[|s| - 2] == last;
    } else {
      assert RemoveAt(s, i) == init;
    }
  }

  lemma WithoutLast<T>(s: seq<T>)
    requires s != [] && NoDup(s)
    ensures Without(s, s[|s| - 1]) == s[..|s| - 1]
  {}

  lemma MinusBoth<K, V>(m: map<K, V>, a: set<K>, b: set<K>, all: set<K>)
    requires all == a + b
    ensures m - a - b == m - all
  {}

  lemma MinusNone<K, V>(m: map<K, V>)
    ensures m - {} == m
  {}

  lemma NoDupConcat<T>(a: seq<T>, b: seq<T>)
    requires NoDup(a) && NoDup(b) && forall x :: x in a ==> x !in b
    ensures NoDup(a + b)
  {
    forall i, j | 0 <= i < j < |a + b| ensures (a + b)[i] != (a + b)[j] {
      if i < |a| <= j {
        assert a[i] in a && b[j - |a|] in b;
      }
    }
  }
}
