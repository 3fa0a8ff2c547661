/** Lists of records keyed by their `_id`, and the three ways the source
    works on them: `find` (locate by id), `filter(x => x._id !== id)`
    (drop by id) and `map(x => x._id === id ? f(x) : x)` (update at id).
    The cart, the admin dashboard and the part store all use them, each
    with its own `idOf`. */
module Keyed {
  import opened Base

  /** Some element of `s` carries the id `id`. */
  predicate HasId<T>(s: seq<T>, idOf: T -> Id, id: Id)
  {
    exists i :: 0 <= i < |s| && idOf(s[i]) == id
  }

  /** No two elements of `s` share an id. */
  predicate UniqueIds<T>(s: seq<T>, idOf: T -> Id)
  {
    forall i, j :: 0 <= i < j < |s| ==> idOf(s[i]) != idOf(s[j])
  }

  /** The index of the first element with id `id`, or None when there is
      none: what `find` and `findById` locate. */
  function Find<T>(s: seq<T>, idOf: T -> Id, id: Id): (r: Option<nat>)
    ensures r.Some? ==> r.value < |s| && idOf(s[r.value]) == id
    ensures r.Some? ==> forall j :: 0 <= j < r.value ==> idOf(s[j]) != id
    ensures r.None? <==> !HasId(s, idOf, id)
  {
    if s == [] then None
    else if idOf(s[0]) == id then Some(0)
    else
      match Find(s[1..], idOf, id)
      case None =>
        assert forall i :: 1 <= i < |s| ==> s[i] == s[1..][i - 1];
        None
      case Some(k) => Some(k + 1)
  }

  /** With unique ids, the first element with a given id is the only one. */
  lemma FindUnique<T>(s: seq<T>, idOf: T -> Id, i: nat)
    requires UniqueIds(s, idOf) && i < |s|
    ensures Find(s, idOf, idOf(s[i])) == Some(i)
  {
  }

  /** `s.filter(x => x._id !== id)`: the elements of `s` whose id differs
      from `id`, in their original order. */
  function Without<T(==)>(s: seq<T>, idOf: T -> Id, id: Id): (r: seq<T>)
    ensures |r| <= |s|
    ensures forall x :: x in r ==> x in s && idOf(x) != id
  {
    if s == [] then []
    else (if idOf(s[0]) == id then [] else [s[0]]) + Without(s[1..], idOf, id)
  }

  /** Filtering distributes over concatenation, so it keeps the relative
      order of the elements it keeps. */
  lemma {:induction false} WithoutAppend<T>(a: seq<T>, b: seq<T>, idOf: T -> Id, id: Id)
    ensures Without(a + b, idOf, id) == Without(a, idOf, id) + Without(b, idOf, id)
  {
    if a == [] {
      assert a + b == b;
    } else {
      assert (a + b)[0] == a[0];
      assert (a + b)[1..] == a[1..] + b;
      WithoutAppend(a[1..], b, idOf, id);
    }
  }

  /** Filtering out an id that does not occur changes nothing. */
  lemma {:induction false} WithoutAbsent<T>(s: seq<T>, idOf: T -> Id, id: Id)
    requires !HasId(s, idOf, id)
    ensures Without(s, idOf, id) == s
  {
    if s != [] {
      assert idOf(s[0]) != id;
      assert !HasId(s[1..], idOf, id) by {
        forall i | 0 <= i < |s[1..]| ensures idOf(s[1..][i]) != id {
          assert s[1..][i] == s[i + 1];
        }
      }
      WithoutAbsent(s[1..], idOf, id);
    }
  }

  /** Every element with id `id` is dropped, every other element keeps its
      number of occurrences. */
  lemma {:induction false} WithoutMultiset<T>(s: seq<T>, idOf: T -> Id, id: Id, x: T)
    ensures multiset(Without(s, idOf, id))[x] == if idOf(x) == id then 0 else multiset(s)[x]
  {
    if s != [] {
      var head := if idOf(s[0]) == id then [] else [s[0]];
      var rest := Without(s[1..], idOf, id);
      WithoutMultiset(s[1..], idOf, id, x);
      assert Without(s, idOf, id) == head + rest;
      assert multiset(head + rest) == multiset(head) + multiset(rest);
      assert s == [s[0]] + s[1..];
      assert multiset(s) == multiset([s[0]]) + multiset(s[1..]);
    }
  }

  /** Filtering keeps ids unique. */
  lemma {:induction false} WithoutUnique<T>(s: seq<T>, idOf: T -> Id, id: Id)
    requires UniqueIds(s, idOf)
    ensures UniqueIds(Without(s, idOf, id), idOf)
  {
    if s != [] {
      var rest := Without(s[1..], idOf, id);
      assert UniqueIds(s[1..], idOf) by {
        forall i, j | 0 <= i < j < |s[1..]| ensures idOf(s[1..][i]) != idOf(s[1..][j]) {
          assert s[1..][i] == s[i + 1] && s[1..][j] == s[j + 1];
        }
      }
      WithoutUnique(s[1..], idOf, id);
      if idOf(s[0]) != id {
        forall k | 0 <= k < |rest| ensures idOf(rest[k]) != idOf(s[0]) {
          assert rest[k] in s[1..];
          var m :| 0 <= m < |s[1..]| && s[1..][m] == rest[k];
          assert s[1..][m] == s[m + 1];
        }
        var r := [s[0]] + rest;
        forall i, j | 0 <= i < j < |r| ensures idOf(r[i]) != idOf(r[j]) {
          if i == 0 {
            assert r[j] == rest[j - 1];
          } else {
            assert r[i] == rest[i - 1] && r[j] == rest[j - 1];
          }
        }
      } else {
        assert Without(s, idOf, id) == rest;
      }
    }
  }

  /** With unique ids, dropping the id of the element at `i` removes exactly
      that element: what deleting one stored record does. */
  lemma {:induction false} RemovesOne<T>(s: seq<T>, idOf: T -> Id, i: nat)
    requires UniqueIds(s, idOf) && i < |s|
    ensures Without(s, idOf, idOf(s[i])) == s[..i] + s[i + 1..]
  {
    var id, pre, post := idOf(s[i]), s[..i], s[i + 1..];
    OthersLackId(s, idOf, i);
    calc {
      Without(s, idOf, id);
      { assert s == pre + ([s[i]] + post); }
      Without(pre + ([s[i]] + post), idOf, id);
      { WithoutAppend(pre, [s[i]] + post, idOf, id); }
      Without(pre, idOf, id) + Without([s[i]] + post, idOf, id);
      { WithoutAppend([s[i]], post, idOf, id); }
      Without(pre, idOf, id) + (Without([s[i]], idOf, id) + Without(post, idOf, id));
      { WithoutAbsent(pre, idOf, id); WithoutAbsent(post, idOf, id); assert Without([s[i]], idOf, id) == []; }
      pre + ([] + post);
      { assert [] + post == post; }
      pre + post;
    }
  }

  /** With unique ids, no element before or after position `i` has the id
      of the element at `i`. */
  lemma OthersLackId<T>(s: seq<T>, idOf: T -> Id, i: nat)
    requires UniqueIds(s, idOf) && i < |s|
    ensures !HasId(s[..i], idOf, idOf(s[i])) && !HasId(s[i + 1..], idOf, idOf(s[i]))
  {
  }

  /** `s.map(x => x._id === id ? f(x) : x)`: the same list, with `f`
      applied to the elements whose id is `id` and to no other. */
  function UpdateWhere<T>(s: seq<T>, idOf: T -> Id, id: Id, f: T -> T): (r: seq<T>)
    ensures |r| == |s|
    ensures forall i :: 0 <= i < |s| ==> r[i] == if idOf(s[i]) == id then f(s[i]) else s[i]
  {
    if s == [] then []
    else [if idOf(s[0]) == id then f(s[0]) else s[0]] + UpdateWhere(s[1..], idOf, id, f)
  }

  /** Updating an id that does not occur changes nothing. */
  lemma UpdateAbsent<T>(s: seq<T>, idOf: T -> Id, id: Id, f: T -> T)
    requires !HasId(s, idOf, id)
    ensures UpdateWhere(s, idOf, id, f) == s
  {
  }

  /** The tail of a list with unique ids has unique ids and lacks the id
      of the head. */
  lemma UniqueTail<T>(s: seq<T>, idOf: T -> Id)
    requires UniqueIds(s, idOf) && s != []
    ensures UniqueIds(s[1..], idOf) && !HasId(s[1..], idOf, idOf(s[0]))
  {
  }

  /** An update that keeps ids keeps them unique. */
  lemma UpdateUnique<T>(s: seq<T>, idOf: T -> Id, id: Id, f: T -> T)
    requires UniqueIds(s, idOf)
    requires forall x :: idOf(f(x)) == idOf(x)
    ensures UniqueIds(UpdateWhere(s, idOf, id, f), idOf)
  {
    var r := UpdateWhere(s, idOf, id, f);
    forall i | 0 <= i < |s| ensures idOf(r[i]) == idOf(s[i]) {
    }
  }
}
