/** What several modules share: an optional value and a stable sort by a total preorder. */
module Prelude {

  datatype Option<+T> = None | Some(value: T)

  function Max(a: int, b: int): int { if a < b then b else a }

  function Min(a: int, b: int): int { if a < b then a else b }

  ghost predicate TotalPreorder<T(!new)>(le: (T, T) -> bool) {
    && (forall x, y :: le(x, y) || le(y, x))
    && (forall x, y, z :: le(x, y) && le(y, z) ==> le(x, z))
  }

  ghost predicate SortedBy<T>(s: seq<T>, le: (T, T) -> bool) {
    forall i, j :: 0 <= i < j < |s| ==> le(s[i], s[j])
  }

  /** Python's `sorted`: a stable insertion sort stands for the library's. */
  function Sorted<T(!new)>(s: seq<T>, le: (T, T) -> bool): (r: seq<T>)
    requires TotalPreorder(le)
    ensures multiset(r) == multiset(s) && |r| == |s|
    ensures SortedBy(r, le)
  {
    if s == [] then [] else
      var front := Sorted(s[..|s| - 1], le);
      var last := s[|s| - 1];
      assert s == s[..|s| - 1] + [last];
      InsertKeeps(front, last, le);
      InsertSorted(front, last, le);
      Insert(front, last, le)
  }

  function Insert<T>(s: seq<T>, x: T, le: (T, T) -> bool): (r: seq<T>)
    ensures |r| == |s| + 1
  {
    if s == [] || le(s[|s| - 1], x) then s + [x] else Insert(s[..|s| - 1], x, le) + [s[|s| - 1]]
  }

  lemma {:induction false} InsertKeeps<T>(s: seq<T>, x: T, le: (T, T) -> bool)
    ensures multiset(Insert(s, x, le)) == multiset(s) + multiset{x}
  {
    if s != [] && !le(s[|s| - 1], x) {
      InsertKeeps(s[..|s| - 1], x, le);
      assert s == s[..|s| - 1] + [s[|s| - 1]];
    }
  }

  /** Everything in an insertion was there or is the newcomer. */
  lemma {:induction false} InsertFrom<T>(s: seq<T>, x: T, le: (T, T) -> bool, k: nat)
    requires k <= |s|
    ensures Insert(s, x, le)[k] == x || Insert(s, x, le)[k] in s
  {
    if s != [] && !le(s[|s| - 1], x) && k < |s| {
      InsertFrom(s[..|s| - 1], x, le, k);
    }
  }

  lemma {:induction false} InsertSorted<T(!new)>(s: seq<T>, x: T, le: (T, T) -> bool)
    requires TotalPreorder(le) && SortedBy(s, le)
    ensures SortedBy(Insert(s, x, le), le)
  {
    if s != [] {
      var n := |s| - 1;
      if le(s[n], x) {
        forall i | 0 <= i < |s| ensures le(s[i], x) {
          if i < n { assert le(s[i], s[n]); }
        }
      } else {
        InsertSorted(s[..n], x, le);
        forall k | 0 <= k < |s| ensures le(Insert(s[..n], x, le)[k], s[n]) {
          InsertFrom(s[..n], x, le, k);
        }
      }
    }
  }

  /** A set of naturals below `n` has at most `n` members. */
  lemma {:induction false} BoundedCard(s: set<nat>, n: nat)
    requires forall x | x in s :: x < n
    ensures |s| <= n
  {
    if n == 0 {
      assert s == {};
    } else {
      BoundedCard(s - {n - 1}, n - 1);
      assert s <= (s - {n - 1}) + {n - 1};
      if n - 1 in s { assert s == (s - {n - 1}) + {n - 1}; } else { assert s == s - {n - 1}; }
    }
  }

  ghost predicate Injective<K, V>(m: map<K, V>) {
    forall a, b :: a in m && b in m && m[a] == m[b] ==> a == b
  }

  /** A new key adds its value to a map's values. */
  lemma ValuesGain<K, V>(m: map<K, V>, k: K, v: V)
    requires k !in m
    ensures m[k := v].Values == m.Values + {v}
  {
    var t := m[k := v];
    forall x | x in m.Values + {v} ensures x in t.Values {
      if x == v {
        assert k in t && t[k] == x;
      } else {
        var a :| a in m && m[a] == x;
        assert a in t && t[a] == x;
      }
    }
  }

  /** An injective map has as many values as keys. */
  lemma {:induction false} InjectiveCard<K, V>(m: map<K, V>)
    requires Injective(m)
    ensures |m.Values| == |m.Keys|
  {
    if m.Keys == {} {
      assert m.Values == {};
    } else {
      var k :| k in m.Keys;
      var rest := m - {k};
      InjectiveCard(rest);
      assert rest.Keys == m.Keys - {k};
      assert rest.Values == m.Values - {m[k]} by {
        forall v | v in m.Values - {m[k]} ensures v in rest.Values {
          var a :| a in m && m[a] == v;
          assert a in rest && rest[a] == v;
        }
        forall v | v in rest.Values ensures v in m.Values - {m[k]} {
          var a :| a in rest && rest[a] == v;
          assert a in m && m[a] == v && a != k;
        }
      }
      assert k in m && m[k] in m.Values;
    }
  }
}
