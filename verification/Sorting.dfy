// A stable descending sort, as Python's `sorted(..., reverse=True)`: elements with equal keys
// keep their order.
module Sorting {

  function Insert<T>(x: (real, T), s: seq<(real, T)>): seq<(real, T)> {
    if s == [] || s[0].0 <= x.0 then [x] + s else [s[0]] + Insert(x, s[1..])
  }

  function SortDesc<T>(s: seq<(real, T)>): seq<(real, T)> {
    if s == [] then [] else Insert(s[0], SortDesc(s[1..]))
  }

  ghost predicate Descending<T>(s: seq<(real, T)>) {
    forall i, j :: 0 <= i < j < |s| ==> s[i].0 >= s[j].0
  }

  /** The elements that carry one key, in order. */
  function WithKey<T>(s: seq<(real, T)>, key: real): seq<(real, T)> {
    if s == [] then [] else (if s[0].0 == key then [s[0]] else []) + WithKey(s[1..], key)
  }

  lemma {:induction false} InsertWithKey<T>(x: (real, T), s: seq<(real, T)>, key: real)
    ensures WithKey(Insert(x, s), key) == WithKey([x] + s, key)
  {
    assert ([x] + s)[1..] == s;
    if s != [] && s[0].0 > x.0 {
      var t := Insert(x, s[1..]);
      InsertWithKey(x, s[1..], key);
      assert ([s[0]] + t)[1..] == t && ([x] + s[1..])[1..] == s[1..];
    }
  }

  lemma {:induction false} InsertAddsOne<T>(x: (real, T), s: seq<(real, T)>)
    ensures multiset(Insert(x, s)) == multiset(s) + multiset{x}
  {
    if s != [] && s[0].0 > x.0 {
      InsertAddsOne(x, s[1..]);
      assert s == [s[0]] + s[1..];
    }
  }

  lemma {:induction false} InsertDescends<T>(x: (real, T), s: seq<(real, T)>)
    requires Descending(s)
    ensures Descending(Insert(x, s))
  {
    if s != [] && s[0].0 > x.0 {
      var t := Insert(x, s[1..]);
      InsertDescends(x, s[1..]);
      InsertAddsOne(x, s[1..]);
      forall j | 0 <= j < |t|
        ensures t[j].0 <= s[0].0
      {
        assert t[j] in multiset(t);
      }
    }
  }

  /** The sort is descending and, key by key, keeps the elements and their order. */
  lemma {:induction false} SortDescIsStable<T>(s: seq<(real, T)>, key: real)
    ensures Descending(SortDesc(s))
    ensures WithKey(SortDesc(s), key) == WithKey(s, key)
    ensures multiset(SortDesc(s)) == multiset(s)
  {
    if s != [] {
      SortDescIsStable(s[1..], key);
      InsertWithKey(s[0], SortDesc(s[1..]), key);
      InsertAddsOne(s[0], SortDesc(s[1..]));
      InsertDescends(s[0], SortDesc(s[1..]));
      assert s == [s[0]] + s[1..];
      assert ([s[0]] + SortDesc(s[1..]))[1..] == SortDesc(s[1..]);
    }
  }

  /** A descending sequence is fixed by its keyed subsequences: the stable sort is the only one. */
  lemma {:induction false} StableSortIsUnique<T>(s: seq<(real, T)>, t: seq<(real, T)>)
    requires Descending(s) && Descending(t)
    requires forall key :: WithKey(s, key) == WithKey(t, key)
    ensures s == t
  {
    if s != [] { HasHead(s, t); }
    if t != [] { HasHead(t, s); }
    if s != [] {
      HeadKey(s, t);
      HeadKey(t, s);
      assert WithKey(s, s[0].0)[0] == WithKey(t, s[0].0)[0];
      forall key
        ensures WithKey(s[1..], key) == WithKey(t[1..], key)
      {
        assert WithKey(s, key) == WithKey(t, key);
        assert WithKey(s[1..], key) == if s[0].0 == key then WithKey(s, key)[1..] else WithKey(s, key);
        assert WithKey(t[1..], key) == if t[0].0 == key then WithKey(t, key)[1..] else WithKey(t, key);
      }
      StableSortIsUnique(s[1..], t[1..]);
      assert s == [s[0]] + s[1..] && t == [t[0]] + t[1..];
    }
  }

  lemma HasHead<T>(s: seq<(real, T)>, t: seq<(real, T)>)
    requires s != [] && WithKey(s, s[0].0) == WithKey(t, s[0].0)
    ensures t != []
  {
  }

  lemma HeadKey<T>(s: seq<(real, T)>, t: seq<(real, T)>)
    requires s != [] && t != [] && Descending(t)
    requires WithKey(s, s[0].0) == WithKey(t, s[0].0)
    ensures s[0].0 <= t[0].0
  {
    if s[0].0 > t[0].0 { NoneAbove(t, s[0].0); }
  }

  lemma {:induction false} NoneAbove<T>(t: seq<(real, T)>, key: real)
    requires Descending(t) && (t == [] || t[0].0 < key)
    ensures WithKey(t, key) == []
  {
    if t != [] { NoneAbove(t[1..], key); }
  }

  function Payloads<T>(rows: seq<(real, T)>): seq<T> {
    if rows == [] then [] else [rows[0].1] + Payloads(rows[1..])
  }

  lemma {:induction false} InsertPayloads<T>(x: (real, T), s: seq<(real, T)>)
    ensures multiset(Payloads(Insert(x, s))) == multiset(Payloads(s)) + multiset{x.1}
  {
    if s != [] && s[0].0 > x.0 {
      InsertPayloads(x, s[1..]);
      assert ([s[0]] + Insert(x, s[1..]))[1..] == Insert(x, s[1..]);
    } else {
      assert ([x] + s)[1..] == s;
    }
  }

  lemma {:induction false} SortPayloads<T>(s: seq<(real, T)>)
    ensures multiset(Payloads(SortDesc(s))) == multiset(Payloads(s))
  {
    if s != [] {
      SortPayloads(s[1..]);
      InsertPayloads(s[0], SortDesc(s[1..]));
    }
  }

  lemma {:induction false} PayloadAt<T>(rows: seq<(real, T)>, i: nat)
    requires i < |rows|
    ensures |Payloads(rows)| == |rows| && Payloads(rows)[i] == rows[i].1
  {
    if i > 0 {
      PayloadAt(rows[1..], i - 1);
    } else if |rows| > 1 {
      PayloadAt(rows[1..], 0);
    }
  }
}
