/**
 * The storefront's shared product record and the JavaScript array
 * operations that the client-side contexts and the shop page are built from:
 * `filter(item => item.id !== id)`, `some(item => item.id === id)` and
 * `Array.prototype.slice`.
 */
module Storefront {

  /** A catalogue product as the storefront holds it (prices are whole currency units). */
  datatype Product = Product(
    id: string,
    name: string,
    brand: string,
    description: string,
    price: int,
    category: string,
    gender: string)

  function ProductId(p: Product): string { p.id }

  function Min(a: int, b: int): int { if a <= b then a else b }

  /** `s.filter(x => idOf(x) !== id)` */
  function Without<T>(s: seq<T>, idOf: T -> string, id: string): (r: seq<T>)
    ensures |r| <= |s|
    ensures forall x :: x in r ==> x in s && idOf(x) != id
    ensures forall x :: x in s && idOf(x) != id ==> x in r
  {
    if s == [] then []
    else if idOf(s[0]) == id then Without(s[1..], idOf, id)
    else [s[0]] + Without(s[1..], idOf, id)
  }

  /** `s.some(x => idOf(x) === id)` */
  predicate AnyHas<T>(s: seq<T>, idOf: T -> string, id: string)
  {
    exists i :: 0 <= i < |s| && idOf(s[i]) == id
  }

  /** No two entries share an id. */
  predicate UniqueBy<T>(s: seq<T>, idOf: T -> string)
  {
    forall i, j :: 0 <= i < j < |s| ==> idOf(s[i]) != idOf(s[j])
  }

  /** Filtering keeps the survivors in their original order: it distributes over concatenation. */
  lemma {:induction false} WithoutAppend<T>(a: seq<T>, b: seq<T>, idOf: T -> string, id: string)
    ensures Without(a + b, idOf, id) == Without(a, idOf, id) + Without(b, idOf, id)
  {
    if a == [] {
      assert a + b == b;
    } else {
      assert (a + b)[1..] == a[1..] + b;
      WithoutAppend(a[1..], b, idOf, id);
    }
  }

  /** Removing an id that is absent changes nothing. */
  lemma {:induction false} WithoutAbsent<T>(s: seq<T>, idOf: T -> string, id: string)
    requires !AnyHas(s, idOf, id)
    ensures Without(s, idOf, id) == s
  {
    if s != [] {
      assert idOf(s[0]) != id;
      assert !AnyHas(s[1..], idOf, id) by {
        forall i | 0 <= i < |s[1..]| ensures idOf(s[1..][i]) != id {
          assert s[1..][i] == s[i + 1];
        }
      }
      WithoutAbsent(s[1..], idOf, id);
    }
  }

  /** After removal no entry carries the id. */
  lemma WithoutRemovesId<T>(s: seq<T>, idOf: T -> string, id: string)
    ensures !AnyHas(Without(s, idOf, id), idOf, id)
  {
    var r := Without(s, idOf, id);
    forall i | 0 <= i < |r| ensures idOf(r[i]) != id {
      assert r[i] in r;
    }
  }

  /** Every entry of the result is an entry of the input: removing never invents ids. */
  lemma {:induction false} WithoutIsSubsequence<T>(s: seq<T>, idOf: T -> string, id: string, other: string)
    requires AnyHas(Without(s, idOf, id), idOf, other)
    ensures AnyHas(s, idOf, other)
  {
    var r := Without(s, idOf, id);
    var i :| 0 <= i < |r| && idOf(r[i]) == other;
    assert r[i] in r;
    var j :| 0 <= j < |s| && s[j] == r[i];
  }

  /** Removing entries keeps ids unique. */
  lemma {:induction false} WithoutUnique<T>(s: seq<T>, idOf: T -> string, id: string)
    requires UniqueBy(s, idOf)
    ensures UniqueBy(Without(s, idOf, id), idOf)
  {
    if s != [] {
      assert UniqueBy(s[1..], idOf) by {
        forall i, j | 0 <= i < j < |s[1..]| ensures idOf(s[1..][i]) != idOf(s[1..][j]) {
          assert s[1..][i] == s[i + 1] && s[1..][j] == s[j + 1];
        }
      }
      WithoutUnique(s[1..], idOf, id);
      if idOf(s[0]) != id {
        var t := Without(s[1..], idOf, id);
        forall k | 0 <= k < |t| ensures idOf(t[k]) != idOf(s[0]) {
          assert t[k] in t;
          var m :| 0 <= m < |s[1..]| && s[1..][m] == t[k];
          assert s[1..][m] == s[m + 1];
        }
        assert Without(s, idOf, id) == [s[0]] + t;
      }
    }
  }

  /** Appending an entry whose id is absent keeps ids unique. */
  lemma AppendFreshUnique<T>(s: seq<T>, x: T, idOf: T -> string)
    requires UniqueBy(s, idOf) && !AnyHas(s, idOf, idOf(x))
    ensures UniqueBy(s + [x], idOf)
  {
    var r := s + [x];
    forall i, j | 0 <= i < j < |r| ensures idOf(r[i]) != idOf(r[j]) {
      if j == |s| {
        assert r[i] == s[i];
      } else {
        assert r[i] == s[i] && r[j] == s[j];
      }
    }
  }

  /** ECMAScript's relative index normalisation used by `slice`: negative counts from the end, clamped to [0, len]. */
  function RelativeIndex(k: int, len: nat): (r: nat)
    ensures r <= len
    ensures 0 <= k <= len ==> r == k
    ensures k > len ==> r == len
    ensures k < 0 ==> r == (if len + k < 0 then 0 else len + k)
  {
    if k < 0 then (if len + k < 0 then 0 else len + k)
    else if k > len then len
    else k
  }

  /** `s.slice(start, end)` (both bounds given). */
  function Slice<T>(s: seq<T>, start: int, end: int): (r: seq<T>)
    ensures |r| <= |s|
    ensures 0 <= start <= end ==> |r| <= end - start
    ensures 0 <= start <= |s| && start <= end ==>
              r == s[start..if end <= |s| then end else |s|]
  {
    var from := RelativeIndex(start, |s|);
    var to := RelativeIndex(end, |s|);
    if from < to then s[from..to] else []
  }
}
