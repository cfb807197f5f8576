/**
 * The array operations the client uses to keep its lists in step with the
 * server: `filter`, `map` over the elements with a given id, and
 * `findIndex` followed by an update of that one element. Elements are
 * identified by a key function (their `_id`).
 */
module ListOps {

  /** `s.filter(p)`: the elements that pass, in their original order. */
  function Filter<T>(s: seq<T>, p: T -> bool): (r: seq<T>)
    ensures |r| <= |s|
    ensures forall i :: 0 <= i < |r| ==> r[i] in s && p(r[i])
    ensures forall i :: 0 <= i < |s| && p(s[i]) ==> s[i] in r
  {
    if s == [] then [] else (if p(s[0]) then [s[0]] else []) + Filter(s[1..], p)
  }

  /** Filtering distributes over concatenation, so the survivors keep their relative order. */
  lemma {:induction false} FilterAppend<T>(a: seq<T>, b: seq<T>, p: T -> bool)
    ensures Filter(a + b, p) == Filter(a, p) + Filter(b, p)
  {
    if a == [] {
      assert a + b == b;
    } else {
      assert (a + b)[1..] == a[1..] + b;
      FilterAppend(a[1..], b, p);
    }
  }

  /** Every passing element keeps its multiplicity; every failing one is gone. */
  lemma {:induction false} FilterCounts<T>(s: seq<T>, p: T -> bool, x: T)
    ensures multiset(Filter(s, p))[x] == if p(x) then multiset(s)[x] else 0
  {
    if s != [] {
      FilterCounts(s[1..], p, x);
      assert s == [s[0]] + s[1..];
    }
  }

  /** A filter that every element passes returns the list unchanged. */
  lemma {:induction false} FilterKeepsAll<T>(s: seq<T>, p: T -> bool)
    requires forall i :: 0 <= i < |s| ==> p(s[i])
    ensures Filter(s, p) == s
  {
    if s != [] {
      FilterKeepsAll(s[1..], p);
    }
  }

  /**
   * `s.map(x => key(x) === id ? f(x) : x)`: every element with that id is
   * replaced by its image, every other element is left exactly as it was.
   */
  function MapWhere<T>(s: seq<T>, key: T -> string, id: string, f: T -> T): (r: seq<T>)
    ensures |r| == |s|
    ensures forall i :: 0 <= i < |s| ==> r[i] == if key(s[i]) == id then f(s[i]) else s[i]
  {
    if s == [] then [] else [if key(s[0]) == id then f(s[0]) else s[0]] + MapWhere(s[1..], key, id, f)
  }

  /** `s.findIndex(x => key(x) === id)`: the first position with that id, or -1. */
  function FindIndex<T>(s: seq<T>, key: T -> string, id: string): (r: int)
    ensures -1 <= r < |s|
    ensures r == -1 <==> forall i :: 0 <= i < |s| ==> key(s[i]) != id
    ensures r >= 0 ==> key(s[r]) == id && forall i :: 0 <= i < r ==> key(s[i]) != id
  {
    if s == [] then -1
    else if key(s[0]) == id then 0
    else
      var k := FindIndex(s[1..], key, id);
      if k == -1 then -1 else k + 1
  }

  /**
   * `const i = s.findIndex(...); if (i !== -1) s[i] = f(s[i])`: only the
   * first element with that id changes; without one, nothing does.
   */
  function UpdateFirst<T>(s: seq<T>, key: T -> string, id: string, f: T -> T): (r: seq<T>)
    ensures |r| == |s|
    ensures forall i :: 0 <= i < |s| ==>
      r[i] == if key(s[i]) == id && (forall j :: 0 <= j < i ==> key(s[j]) != id) then f(s[i]) else s[i]
    ensures (forall i :: 0 <= i < |s| ==> key(s[i]) != id) ==> r == s
  {
    var i := FindIndex(s, key, id);
    if i == -1 then s else s[i := f(s[i])]
  }

  /** The elements' keys are pairwise distinct. */
  ghost predicate UniqueKeys<T>(s: seq<T>, key: T -> string) {
    forall i, j :: 0 <= i < j < |s| ==> key(s[i]) != key(s[j])
  }

  /** While ids are unique, updating the first match and updating every match agree. */
  lemma UpdateFirstIsMapWhere<T>(s: seq<T>, key: T -> string, id: string, f: T -> T)
    requires UniqueKeys(s, key)
    ensures UpdateFirst(s, key, id, f) == MapWhere(s, key, id, f)
  {
    var a, b := UpdateFirst(s, key, id, f), MapWhere(s, key, id, f);
    forall i | 0 <= i < |s| ensures a[i] == b[i] {
      if key(s[i]) == id {
        forall j | 0 <= j < i ensures key(s[j]) != id {
          assert key(s[j]) != key(s[i]);
        }
      }
    }
  }

  /** Filtering never makes two elements share a key. */
  lemma {:induction false} FilterKeepsUniqueKeys<T>(s: seq<T>, key: T -> string, p: T -> bool)
    requires UniqueKeys(s, key)
    ensures UniqueKeys(Filter(s, p), key)
  {
    if s != [] {
      var tail := s[1..];
      assert UniqueKeys(tail, key) by {
        forall i, j | 0 <= i < j < |tail| ensures key(tail[i]) != key(tail[j]) {
          assert tail[i] == s[i + 1] && tail[j] == s[j + 1];
        }
      }
      FilterKeepsUniqueKeys(tail, key, p);
      var rest := Filter(tail, p);
      if p(s[0]) {
        var r := [s[0]] + rest;
        assert Filter(s, p) == r;
        forall j | 0 <= j < |rest| ensures key(s[0]) != key(rest[j]) {
          var k :| 0 <= k < |tail| && tail[k] == rest[j];
          assert s[k + 1] == rest[j];
        }
        forall i, j | 0 <= i < j < |r| ensures key(r[i]) != key(r[j]) {
          if i > 0 {
            assert r[i] == rest[i - 1] && r[j] == rest[j - 1];
          } else {
            assert r[j] == rest[j - 1];
          }
        }
      } else {
        assert Filter(s, p) == rest;
      }
    }
  }

  /**
   * Mapping the elements with a given id by a function that keeps that id
   * leaves every key where it was, so unique keys stay unique.
   */
  lemma MapWhereKeepsKeys<T>(s: seq<T>, key: T -> string, id: string, f: T -> T)
    requires forall x :: key(x) == id ==> key(f(x)) == id
    ensures forall i :: 0 <= i < |s| ==> key(MapWhere(s, key, id, f)[i]) == key(s[i])
    ensures UniqueKeys(s, key) ==> UniqueKeys(MapWhere(s, key, id, f), key)
  {
  }
}
