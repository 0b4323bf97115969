/**
 * Order-preserving de-duplication by a key, as both search paths do it with a `seen_ids`
 * set: an entry is kept iff its key is neither already seen nor on an earlier entry.
 */
module Dedup {

  /** The keys occurring in `s`. */
  function Keys<T, K(==)>(s: seq<T>, key: T -> K): set<K> {
    set i | 0 <= i < |s| :: key(s[i])
  }

  /** No key occurs twice. */
  predicate Distinct<T, K(==)>(s: seq<T>, key: T -> K) {
    forall i, j | 0 <= i < j < |s| :: key(s[i]) != key(s[j])
  }

  /** The entries of `s` whose key is neither in `seen` nor on an earlier entry. */
  function DedupFrom<T, K(==)>(s: seq<T>, key: T -> K, seen: set<K>): seq<T>
    decreases |s|
  {
    if s == [] then []
    else if key(s[0]) in seen then DedupFrom(s[1..], key, seen)
    else [s[0]] + DedupFrom(s[1..], key, seen + {key(s[0])})
  }

  /** `a` is `b` with some entries left out. */
  predicate IsSubseq<T(==)>(a: seq<T>, b: seq<T>)
    decreases |b|
  {
    if a == [] then true
    else if b == [] then false
    else (a[0] == b[0] && IsSubseq(a[1..], b[1..])) || IsSubseq(a, b[1..])
  }

  lemma KeysAppend<T, K>(a: seq<T>, b: seq<T>, key: T -> K)
    ensures Keys(a + b, key) == Keys(a, key) + Keys(b, key)
  {
    var s := a + b;
    forall k | k in Keys(s, key) ensures k in Keys(a, key) + Keys(b, key) {
      var i :| 0 <= i < |s| && key(s[i]) == k;
      if i >= |a| { assert b[i - |a|] == s[i]; } else { assert a[i] == s[i]; }
    }
    forall k | k in Keys(b, key) ensures k in Keys(s, key) {
      var i :| 0 <= i < |b| && key(b[i]) == k;
      assert s[i + |a|] == b[i];
    }
    forall k | k in Keys(a, key) ensures k in Keys(s, key) {
      var i :| 0 <= i < |a| && key(a[i]) == k;
      assert s[i] == a[i];
    }
  }

  lemma KeysSingle<T, K>(x: T, key: T -> K)
    ensures Keys([x], key) == {key(x)}
  {
    assert [x][0] == x;
  }

  /** The kept entries carry distinct keys, exactly the keys of `s` that were not yet seen. */
  lemma {:induction false} DedupKeys<T, K>(s: seq<T>, key: T -> K, seen: set<K>)
    ensures Keys(DedupFrom(s, key, seen), key) == Keys(s, key) - seen
    ensures Distinct(DedupFrom(s, key, seen), key)
    decreases |s|
  {
    if s != [] {
      assert s == [s[0]] + s[1..];
      KeysAppend([s[0]], s[1..], key);
      KeysSingle(s[0], key);
      if key(s[0]) in seen {
        DedupKeys(s[1..], key, seen);
      } else {
        var t := DedupFrom(s[1..], key, seen + {key(s[0])});
        DedupKeys(s[1..], key, seen + {key(s[0])});
        KeysAppend([s[0]], t, key);
        var d := [s[0]] + t;
        forall i, j | 0 <= i < j < |d| ensures key(d[i]) != key(d[j]) {
          if i == 0 {
            assert d[j] == t[j - 1];
            assert key(t[j - 1]) in Keys(t, key);
          } else {
            assert d[i] == t[i - 1] && d[j] == t[j - 1];
          }
        }
      }
    }
  }

  /** Each not-yet-seen key is represented by its first occurrence in `s`. */
  lemma {:induction false} DedupKeepsFirst<T, K>(s: seq<T>, key: T -> K, seen: set<K>, j: nat)
    requires j < |s| && key(s[j]) !in seen
    requires forall i | 0 <= i < j :: key(s[i]) != key(s[j])
    ensures s[j] in DedupFrom(s, key, seen)
    decreases |s|
  {
    if j > 0 {
      assert s[1..][j - 1] == s[j];
      if key(s[0]) in seen {
        DedupKeepsFirst(s[1..], key, seen, j - 1);
      } else {
        DedupKeepsFirst(s[1..], key, seen + {key(s[0])}, j - 1);
      }
    }
  }

  /** The kept entries appear in their original order. */
  lemma {:induction false} DedupSubseq<T, K>(s: seq<T>, key: T -> K, seen: set<K>)
    ensures IsSubseq(DedupFrom(s, key, seen), s)
    decreases |s|
  {
    if s != [] {
      var d := DedupFrom(s, key, seen);
      if key(s[0]) in seen {
        DedupSubseq(s[1..], key, seen);
      } else {
        DedupSubseq(s[1..], key, seen + {key(s[0])});
        assert d[1..] == DedupFrom(s[1..], key, seen + {key(s[0])});
      }
    }
  }

  /** De-duplicating a concatenation: the first part's survivors, then the second's not seen in the first. */
  lemma {:induction false} DedupAppend<T, K>(a: seq<T>, b: seq<T>, key: T -> K, seen: set<K>)
    ensures DedupFrom(a + b, key, seen) == DedupFrom(a, key, seen) + DedupFrom(b, key, seen + Keys(a, key))
    decreases |a|
  {
    if a == [] {
      assert a + b == b;
      assert Keys(a, key) == {};
      assert seen + Keys(a, key) == seen;
    } else {
      assert (a + b)[0] == a[0] && (a + b)[1..] == a[1..] + b;
      assert a == [a[0]] + a[1..];
      KeysAppend([a[0]], a[1..], key);
      KeysSingle(a[0], key);
      if key(a[0]) in seen {
        DedupAppend(a[1..], b, key, seen);
        assert seen + Keys(a[1..], key) == seen + Keys(a, key);
      } else {
        DedupAppend(a[1..], b, key, seen + {key(a[0])});
        assert seen + {key(a[0])} + Keys(a[1..], key) == seen + Keys(a, key);
      }
    }
  }

  /** One step of the `seen_ids` loop: the entry is kept iff its key is new. */
  lemma DedupSnoc<T, K>(s: seq<T>, x: T, key: T -> K, seen: set<K>)
    ensures DedupFrom(s + [x], key, seen) == DedupFrom(s, key, seen) + (if key(x) in seen + Keys(s, key) then [] else [x])
    ensures Keys(s + [x], key) == Keys(s, key) + {key(x)}
  {
    DedupAppend(s, [x], key, seen);
    assert [x][1..] == [];
    KeysAppend(s, [x], key);
    KeysSingle(x, key);
  }

  /**
   * The whole characterisation: distinct keys, exactly the unseen keys, each by its first
   * occurrence, in order.
   */
  lemma DedupSpec<T, K>(s: seq<T>, key: T -> K, seen: set<K>)
    ensures var d := DedupFrom(s, key, seen);
      && Distinct(d, key)
      && Keys(d, key) == Keys(s, key) - seen
      && IsSubseq(d, s)
      && (forall j | 0 <= j < |s| && key(s[j]) !in seen && (forall i | 0 <= i < j :: key(s[i]) != key(s[j])) :: s[j] in d)
  {
    DedupKeys(s, key, seen);
    DedupSubseq(s, key, seen);
    forall j | 0 <= j < |s| && key(s[j]) !in seen && (forall i | 0 <= i < j :: key(s[i]) != key(s[j]))
      ensures s[j] in DedupFrom(s, key, seen)
    {
      DedupKeepsFirst(s, key, seen, j);
    }
  }
}
