/**
 * The array operations the components use (`find`, `filter`) and the two writes
 * of the document store (`setDoc`, `deleteDoc`) over a collection listed in order.
 */
module Lists {
  import opened Common

  /** `findIndex`: the first position whose element satisfies `p`, or `|s|` when there is none. */
  function FirstIndex<T(!new)>(s: seq<T>, p: T -> bool): (i: nat)
    ensures i <= |s|
    ensures i < |s| ==> p(s[i])
    ensures forall j :: 0 <= j < i ==> !p(s[j])
  {
    if s == [] then 0 else if p(s[0]) then 0 else 1 + FirstIndex(s[1..], p)
  }

  /** `Array.prototype.find`: the first element satisfying `p`. */
  function Find<T(!new)>(s: seq<T>, p: T -> bool): (r: Option<T>)
    ensures r.Some? ==> r.value in s && p(r.value)
    ensures r.None? <==> forall x :: x in s ==> !p(x)
  {
    var i := FirstIndex(s, p);
    if i < |s| then Some(s[i]) else None
  }

  /** `Array.prototype.filter`: the elements satisfying `p`, in their order. */
  function Filter<T(!new)>(s: seq<T>, p: T -> bool): (r: seq<T>)
    ensures |r| <= |s|
    ensures forall x :: x in r <==> x in s && p(x)
  {
    if s == [] then [] else (if p(s[0]) then [s[0]] else []) + Filter(s[1..], p)
  }

  /** The three facts of `FirstIndex`'s contract determine the position. */
  lemma FirstIndexIs<T(!new)>(s: seq<T>, p: T -> bool, i: nat)
    requires i <= |s| && (i < |s| ==> p(s[i]))
    requires forall j :: 0 <= j < i ==> !p(s[j])
    ensures FirstIndex(s, p) == i
  {
  }

  /** `find` looks at the head first, then at the rest. */
  lemma FindCons<T(!new)>(s: seq<T>, p: T -> bool)
    requires s != []
    ensures Find(s, p) == if p(s[0]) then Some(s[0]) else Find(s[1..], p)
  {
    if !p(s[0]) {
      var i := FirstIndex(s[1..], p);
      assert FirstIndex(s, p) == 1 + i;
      assert i < |s[1..]| ==> s[1..][i] == s[1 + i];
    }
  }

  /** Overwriting the element `find` returns with another that satisfies `p` makes `find` return the new one. */
  lemma FindAfterReplace<T(!new)>(s: seq<T>, p: T -> bool, j: nat, x: T)
    requires j < |s| && FirstIndex(s, p) == j && p(x)
    ensures Find(s[j := x], p) == Some(x)
  {
    FirstIndexIs(s[j := x], p, j);
  }

  /** When nothing satisfies `p`, an element appended that does is what `find` returns. */
  lemma FindAfterAppend<T(!new)>(s: seq<T>, p: T -> bool, x: T)
    requires Find(s, p).None? && p(x)
    ensures Find(s + [x], p) == Some(x)
  {
    forall j | 0 <= j < |s| ensures !p((s + [x])[j]) {
      assert (s + [x])[j] == s[j] && s[j] in s;
    }
    FirstIndexIs(s + [x], p, |s|);
  }

  /** Looking up in a filtered list is one lookup with both conditions. */
  lemma {:induction false} FindInFilter<T(!new)>(s: seq<T>, p: T -> bool, q: T -> bool, both: T -> bool)
    requires forall x :: both(x) <==> p(x) && q(x)
    ensures Find(Filter(s, p), q) == Find(s, both)
  {
    if s != [] {
      FindInFilter(s[1..], p, q, both);
      FindCons(s, both);
      if p(s[0]) {
        var f := Filter(s, p);
        assert f == [s[0]] + Filter(s[1..], p);
        assert f[1..] == Filter(s[1..], p);
        FindCons(f, q);
      } else {
        assert Filter(s, p) == Filter(s[1..], p);
      }
    }
  }

  /** `r` is `s` with some elements left out and the others kept in order. */
  predicate Subsequence<T(==)>(r: seq<T>, s: seq<T>) {
    if r == [] then true
    else if s == [] then false
    else if r[0] == s[0] then Subsequence(r[1..], s[1..])
    else Subsequence(r, s[1..])
  }

  lemma {:induction false} FilterIsSubsequence<T(!new)>(s: seq<T>, p: T -> bool)
    ensures Subsequence(Filter(s, p), s)
  {
    if s != [] {
      FilterIsSubsequence(s[1..], p);
      if p(s[0]) {
        assert Filter(s, p) == [s[0]] + Filter(s[1..], p);
        assert Filter(s, p)[1..] == Filter(s[1..], p);
      } else {
        assert Filter(s, p) == Filter(s[1..], p);
        SubsequenceSkip(Filter(s[1..], p), s);
      }
    }
  }

  /** Dropping the head of `s` keeps a subsequence of the tail a subsequence of `s`. */
  lemma {:induction false} SubsequenceSkip<T(!new)>(r: seq<T>, s: seq<T>)
    requires s != [] && Subsequence(r, s[1..])
    ensures Subsequence(r, s)
    decreases |s|, |r|
  {
    if r != [] && r[0] == s[0] {
      SubsequenceTail(r, s[1..]);
    }
  }

  /** A subsequence stays one when its head is dropped. */
  lemma {:induction false} SubsequenceTail<T(!new)>(r: seq<T>, s: seq<T>)
    requires r != [] && Subsequence(r, s)
    ensures Subsequence(r[1..], s)
    decreases |s|, |r|
  {
    if s != [] {
      if r[0] == s[0] {
        SubsequenceSkip(r[1..], s);
      } else {
        SubsequenceTail(r, s[1..]);
        SubsequenceSkip(r[1..], s);
      }
    }
  }

  /** A filter that keeps every element is the identity. */
  lemma {:induction false} FilterKeepsAll<T(!new)>(s: seq<T>, p: T -> bool)
    requires forall x :: x in s ==> p(x)
    ensures Filter(s, p) == s
  {
    if s != [] {
      FilterKeepsAll(s[1..], p);
      assert [s[0]] + s[1..] == s;
    }
  }

  /** Two predicates that agree on the elements give the same filter. */
  lemma {:induction false} FilterCongruent<T(!new)>(s: seq<T>, p: T -> bool, q: T -> bool)
    requires forall x :: x in s ==> (p(x) <==> q(x))
    ensures Filter(s, p) == Filter(s, q)
  {
    if s != [] {
      FilterCongruent(s[1..], p, q);
    }
  }

  /** Filtering a listing one element longer: the shorter listing's filter, then the new element if it is kept. */
  lemma {:induction false} FilterSnoc<T(!new)>(s: seq<T>, x: T, p: T -> bool)
    ensures Filter(s + [x], p) == Filter(s, p) + (if p(x) then [x] else [])
  {
    if s != [] {
      assert (s + [x])[1..] == s[1..] + [x];
      FilterSnoc(s[1..], x, p);
    }
  }

  /** The filter of a prefix one element longer, as a loop over the listing sees it. */
  lemma FilterPrefix<T(!new)>(s: seq<T>, i: nat, p: T -> bool)
    requires i < |s|
    ensures |Filter(s[..i + 1], p)| == |Filter(s[..i], p)| + (if p(s[i]) then 1 else 0)
  {
    assert s[..i + 1] == s[..i] + [s[i]];
    FilterSnoc(s[..i], s[i], p);
  }

  // ---------------------------------------------------------------------------
  // A collection of documents keyed by `key`
  // ---------------------------------------------------------------------------

  /** No two documents of the listing share a key. */
  predicate UniqueKeys<T(!new)>(docs: seq<T>, key: T -> string) {
    forall i, j :: 0 <= i < j < |docs| ==> key(docs[i]) != key(docs[j])
  }

  /** Some document of the listing has key `k`. */
  predicate HasKey<T(!new)>(docs: seq<T>, k: string, key: T -> string) {
    exists i :: 0 <= i < |docs| && key(docs[i]) == k
  }

  /**
   * `setDoc`: the document replaces the one stored under its key, or is added
   * at the end of the listing when its key is new.
   */
  function Upsert<T(!new)>(docs: seq<T>, doc: T, key: T -> string): (r: seq<T>)
    ensures doc in r
    ensures forall x :: x in r ==> x == doc || x in docs
  {
    if docs == [] then [doc]
    else if key(docs[0]) == key(doc) then [doc] + docs[1..]
    else [docs[0]] + Upsert(docs[1..], doc, key)
  }

  /** A document under a new key is appended. */
  lemma {:induction false} UpsertNew<T(!new)>(docs: seq<T>, doc: T, key: T -> string)
    requires !HasKey(docs, key(doc), key)
    ensures Upsert(docs, doc, key) == docs + [doc]
  {
    if docs != [] {
      assert key(docs[0]) != key(doc);
      assert !HasKey(docs[1..], key(doc), key) by {
        forall i | 0 <= i < |docs[1..]| ensures key(docs[1..][i]) != key(doc) {
          assert docs[1..][i] == docs[i + 1];
        }
      }
      UpsertNew(docs[1..], doc, key);
      assert [docs[0]] + (docs[1..] + [doc]) == docs + [doc];
    }
  }

  /** A document under the key of position `i` replaces that position and nothing else. */
  lemma {:induction false} UpsertExisting<T(!new)>(docs: seq<T>, i: nat, doc: T, key: T -> string)
    requires UniqueKeys(docs, key) && i < |docs| && key(docs[i]) == key(doc)
    ensures Upsert(docs, doc, key) == docs[i := doc]
  {
    if i == 0 {
      assert [doc] + docs[1..] == docs[0 := doc];
    } else {
      assert key(docs[0]) != key(doc);
      assert UniqueKeys(docs[1..], key) by {
        forall a, b | 0 <= a < b < |docs[1..]| ensures key(docs[1..][a]) != key(docs[1..][b]) {
          assert docs[1..][a] == docs[a + 1] && docs[1..][b] == docs[b + 1];
        }
      }
      UpsertExisting(docs[1..], i - 1, doc, key);
      assert [docs[0]] + docs[1..][i - 1 := doc] == docs[i := doc];
    }
  }

  /** `setDoc` keeps the keys of the listing distinct. */
  lemma {:induction false} UpsertKeepsUnique<T(!new)>(docs: seq<T>, doc: T, key: T -> string)
    requires UniqueKeys(docs, key)
    ensures UniqueKeys(Upsert(docs, doc, key), key)
  {
    if HasKey(docs, key(doc), key) {
      var i :| 0 <= i < |docs| && key(docs[i]) == key(doc);
      UpsertExisting(docs, i, doc, key);
    } else {
      UpsertNew(docs, doc, key);
      var r := docs + [doc];
      forall a, b | 0 <= a < b < |r| ensures key(r[a]) != key(r[b]) {
        if b == |docs| {
          assert key(docs[a]) != key(doc);
        }
      }
    }
  }

  /** After `setDoc`, the lookup by the document's key finds that document. */
  lemma {:induction false} FindAfterUpsert<T(!new)>(docs: seq<T>, doc: T, key: T -> string, p: T -> bool)
    requires forall x :: p(x) <==> key(x) == key(doc)
    ensures Find(Upsert(docs, doc, key), p) == Some(doc)
  {
    if docs != [] && key(docs[0]) != key(doc) {
      FindAfterUpsert(docs[1..], doc, key, p);
    }
  }

  /** A filter keeps the keys of the listing distinct. */
  lemma {:induction false} FilterKeepsUnique<T(!new)>(docs: seq<T>, p: T -> bool, key: T -> string)
    requires UniqueKeys(docs, key)
    ensures UniqueKeys(Filter(docs, p), key)
  {
    if docs != [] {
      var tail := docs[1..];
      assert UniqueKeys(tail, key) by {
        forall a, b | 0 <= a < b < |tail| ensures key(tail[a]) != key(tail[b]) {
          assert tail[a] == docs[a + 1] && tail[b] == docs[b + 1];
        }
      }
      FilterKeepsUnique(tail, p, key);
      if p(docs[0]) {
        var r := Filter(docs, p);
        assert r == [docs[0]] + Filter(tail, p);
        forall a, b | 0 <= a < b < |r| ensures key(r[a]) != key(r[b]) {
          if a == 0 {
            assert r[b] in Filter(tail, p);
            var k :| 0 <= k < |tail| && tail[k] == r[b];
            assert tail[k] == docs[k + 1];
          } else {
            assert r[a] == Filter(tail, p)[a - 1] && r[b] == Filter(tail, p)[b - 1];
          }
        }
      }
    }
  }

  /** `deleteDoc`: the listing without the document stored under `k`. */
  function Delete<T(!new)>(docs: seq<T>, k: string, key: T -> string): (r: seq<T>)
    ensures forall x :: x in r <==> x in docs && key(x) != k
  {
    Filter(docs, x => key(x) != k)
  }

  /** `deleteDoc` keeps the keys of the listing distinct. */
  lemma DeleteKeepsUnique<T(!new)>(docs: seq<T>, k: string, key: T -> string)
    requires UniqueKeys(docs, key)
    ensures UniqueKeys(Delete(docs, k, key), key)
  {
    FilterKeepsUnique(docs, x => key(x) != k, key);
  }

  /** With distinct keys, two documents of the listing under one key are the same document. */
  lemma SameKeySameDoc<T(!new)>(docs: seq<T>, key: T -> string, x: T, y: T)
    requires UniqueKeys(docs, key) && x in docs && y in docs && key(x) == key(y)
    ensures x == y
  {
    var i :| 0 <= i < |docs| && docs[i] == x;
    var j :| 0 <= j < |docs| && docs[j] == y;
    assert i == j;
  }

  /** With distinct keys, deleting a present key removes exactly the one document at its position. */
  lemma {:induction false} DeleteExisting<T(!new)>(docs: seq<T>, i: nat, key: T -> string)
    requires UniqueKeys(docs, key) && i < |docs|
    ensures Delete(docs, key(docs[i]), key) == docs[..i] + docs[i + 1..]
  {
    var k := key(docs[i]);
    if i == 0 {
      assert Delete(docs, k, key) == Filter(docs[1..], x => key(x) != k);
      FilterKeepsAll(docs[1..], x => key(x) != k);
    } else {
      assert key(docs[0]) != k;
      UniqueKeysTail(docs, key);
      DeleteExisting(docs[1..], i - 1, key);
      assert docs[1..][i - 1] == docs[i];
      RemoveAtCons(docs, i);
    }
  }

  lemma UniqueKeysTail<T(!new)>(docs: seq<T>, key: T -> string)
    requires UniqueKeys(docs, key) && docs != []
    ensures UniqueKeys(docs[1..], key)
  {
    forall a, b | 0 <= a < b < |docs[1..]| ensures key(docs[1..][a]) != key(docs[1..][b]) {
      assert docs[1..][a] == docs[a + 1] && docs[1..][b] == docs[b + 1];
    }
  }

  lemma RemoveAtCons<T>(docs: seq<T>, i: nat)
    requires 0 < i < |docs|
    ensures [docs[0]] + (docs[1..][..i - 1] + docs[1..][i..]) == docs[..i] + docs[i + 1..]
  {
  }
}
