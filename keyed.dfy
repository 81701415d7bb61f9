/**
 * Lists of entries keyed by a product id, as the cart and the receiving list
 * keep them: `filter` by id, `map` over the entries with a given id, and the
 * facts about them both lists rely on.
 */
module Keyed {

  function Keys<T>(s: seq<T>, key: T -> int): (ks: seq<int>)
    ensures |ks| == |s| && forall i :: 0 <= i < |s| ==> ks[i] == key(s[i])
  {
    seq(|s|, i requires 0 <= i < |s| => key(s[i]))
  }

  /** No two entries share an id. */
  predicate UniqueKeys<T>(s: seq<T>, key: T -> int) {
    forall i, j :: 0 <= i < j < |s| ==> key(s[i]) != key(s[j])
  }

  /** `s.filter(x => key(x) !== k)`. */
  function RemoveKey<T(!new)>(s: seq<T>, key: T -> int, k: int): (r: seq<T>)
    ensures |r| <= |s|
  {
    if s == [] then [] else (if key(s[0]) != k then [s[0]] else []) + RemoveKey(s[1..], key, k)
  }

  /** The filter keeps exactly the entries whose id is not `k`. */
  lemma {:induction false} RemoveKeyMembers<T(!new)>(s: seq<T>, key: T -> int, k: int)
    ensures forall x :: x in RemoveKey(s, key, k) <==> x in s && key(x) != k
  {
    if s != [] {
      RemoveKeyMembers(s[1..], key, k);
      assert s == [s[0]] + s[1..];
    }
  }

  /** `s.map(x => key(x) === k ? f(x) : x)`. */
  function UpdateKey<T>(s: seq<T>, key: T -> int, k: int, f: T -> T): (r: seq<T>)
    ensures |r| == |s|
    ensures forall i :: 0 <= i < |s| ==> r[i] == if key(s[i]) == k then f(s[i]) else s[i]
  {
    seq(|s|, i requires 0 <= i < |s| => if key(s[i]) == k then f(s[i]) else s[i])
  }

  /** Filtering out an id that no entry has changes nothing. */
  lemma {:induction false} RemoveAbsentKey<T(!new)>(s: seq<T>, key: T -> int, k: int)
    requires k !in Keys(s, key)
    ensures RemoveKey(s, key, k) == s
  {
    if s != [] {
      assert Keys(s[1..], key) == Keys(s, key)[1..];
      RemoveAbsentKey(s[1..], key, k);
    }
  }

  /**
   * With unique ids, filtering out the id of entry `i` removes exactly that
   * entry: the ones before and after it keep their order.
   */
  lemma {:induction false} RemoveKeyAt<T(!new)>(s: seq<T>, key: T -> int, i: nat)
    requires UniqueKeys(s, key) && i < |s|
    ensures RemoveKey(s, key, key(s[i])) == s[..i] + s[i + 1..]
  {
    var k := key(s[i]);
    var t := s[1..];
    assert RemoveKey(s, key, k) == (if key(s[0]) != k then [s[0]] else []) + RemoveKey(t, key, k);
    if i == 0 {
      assert k !in Keys(t, key) by {
        forall j | 0 <= j < |t| ensures Keys(t, key)[j] != k {
          assert t[j] == s[j + 1];
        }
      }
      RemoveAbsentKey(t, key, k);
      assert s[..i] + s[i + 1..] == t;
    } else {
      assert UniqueKeys(t, key) by {
        forall a, b | 0 <= a < b < |t| ensures key(t[a]) != key(t[b]) {
          assert t[a] == s[a + 1] && t[b] == s[b + 1];
        }
      }
      assert t[i - 1] == s[i];
      assert key(s[0]) != k;
      RemoveKeyAt(t, key, i - 1);
      assert s[..i] == [s[0]] + t[..i - 1];
      assert s[i + 1..] == t[i..];
      assert s[..i] + s[i + 1..] == [s[0]] + (t[..i - 1] + t[i..]);
    }
  }

  lemma RemovedSliceUnique<T>(s: seq<T>, key: T -> int, i: nat)
    requires UniqueKeys(s, key) && i < |s|
    ensures UniqueKeys(s[..i] + s[i + 1..], key)
  {
    var r := s[..i] + s[i + 1..];
    forall a, b | 0 <= a < b < |r| ensures key(r[a]) != key(r[b]) {
      var a' := if a < i then a else a + 1;
      var b' := if b < i then b else b + 1;
      assert r[a] == s[a'] && r[b] == s[b'];
    }
  }

  /** Filtering keeps the ids unique. */
  lemma RemoveKeyKeepsUnique<T(!new)>(s: seq<T>, key: T -> int, k: int)
    requires UniqueKeys(s, key)
    ensures UniqueKeys(RemoveKey(s, key, k), key)
  {
    if k in Keys(s, key) {
      var i :| 0 <= i < |s| && Keys(s, key)[i] == k;
      RemoveKeyAt(s, key, i);
      RemovedSliceUnique(s, key, i);
    } else {
      RemoveAbsentKey(s, key, k);
    }
  }

  /** Updating entries in a way that keeps their id keeps the ids unique. */
  lemma UpdateKeyKeepsUnique<T>(s: seq<T>, key: T -> int, k: int, f: T -> T)
    requires UniqueKeys(s, key)
    requires forall x :: key(f(x)) == key(x)
    ensures Keys(UpdateKey(s, key, k, f), key) == Keys(s, key)
    ensures UniqueKeys(UpdateKey(s, key, k, f), key)
  {
  }

  /** With unique ids, updating the entries with the id of entry `i` updates that entry alone. */
  lemma UpdateKeyAt<T>(s: seq<T>, key: T -> int, i: nat, f: T -> T)
    requires UniqueKeys(s, key) && i < |s|
    ensures UpdateKey(s, key, key(s[i]), f) == s[i := f(s[i])]
  {
    var r := UpdateKey(s, key, key(s[i]), f);
    forall j | 0 <= j < |s| ensures r[j] == s[i := f(s[i])][j] {
      if j != i {
        assert key(s[j]) != key(s[i]) by {
          if j < i {} else {}
        }
      }
    }
  }

  /** Appending an entry whose id is new keeps the ids unique. */
  lemma AppendNewKeepsUnique<T>(s: seq<T>, key: T -> int, x: T)
    requires UniqueKeys(s, key) && key(x) !in Keys(s, key)
    ensures UniqueKeys(s + [x], key)
  {
    var r := s + [x];
    forall a, b | 0 <= a < b < |r| ensures key(r[a]) != key(r[b]) {
      if b == |s| {
        assert key(r[a]) == Keys(s, key)[a];
      }
    }
  }
}
