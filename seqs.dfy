/** Sequence operations behind the JavaScript array calls the components use:
    `splice` to remove or insert one element, and `filter` on a key. */
module Seqs {

  /** `s` with the element at `i` taken out, as `s.splice(i, 1)` leaves it. */
  function RemoveAt<T>(s: seq<T>, i: nat): (r: seq<T>)
    requires i < |s|
    ensures |r| == |s| - 1
  {
    s[..i] + s[i + 1..]
  }

  /** Where `s.splice(i, 0, x)` puts `x`: a start past the end is clamped to the length. */
  function ClampIndex<T>(s: seq<T>, i: nat): (j: nat)
    ensures j <= |s|
    ensures j == i || (i > |s| && j == |s|)
  {
    if i <= |s| then i else |s|
  }

  /** `s` after `s.splice(i, 0, x)`. */
  function InsertAt<T>(s: seq<T>, i: nat, x: T): (r: seq<T>)
    ensures |r| == |s| + 1
  {
    var j := ClampIndex(s, i);
    s[..j] + [x] + s[j..]
  }

  /** Removing one element takes exactly that element out of the multiset. */
  lemma RemoveAtMultiset<T>(s: seq<T>, i: nat)
    requires i < |s|
    ensures multiset(RemoveAt(s, i)) + multiset{s[i]} == multiset(s)
  {
    assert s == s[..i] + [s[i]] + s[i + 1..];
  }

  /** Inserting one element adds exactly that element to the multiset. */
  lemma InsertAtMultiset<T>(s: seq<T>, i: nat, x: T)
    ensures multiset(InsertAt(s, i, x)) == multiset(s) + multiset{x}
  {
    var j := ClampIndex(s, i);
    assert s == s[..j] + s[j..];
  }

  /** The inserted element sits at the clamped index, and removing it again gives
      back the original sequence: everything else keeps its relative order. */
  lemma InsertAtThenRemove<T>(s: seq<T>, i: nat, x: T)
    ensures InsertAt(s, i, x)[ClampIndex(s, i)] == x
    ensures RemoveAt(InsertAt(s, i, x), ClampIndex(s, i)) == s
  {
    var j := ClampIndex(s, i);
    var r := InsertAt(s, i, x);
    assert r[..j] == s[..j];
    assert r[j + 1..] == s[j..];
  }

  /** `a` can be obtained from `b` by deleting elements: the order of `a` is that of `b`. */
  ghost predicate IsSubsequence<T>(a: seq<T>, b: seq<T>)
    decreases |b|
  {
    if a == [] then true
    else if b == [] then false
    else if a[0] == b[0] then IsSubsequence(a[1..], b[1..])
    else IsSubsequence(a, b[1..])
  }

  /** `s.filter(x => key(x) !== k)`. */
  function RemoveWhere<T, K(==)>(s: seq<T>, key: T -> K, k: K): (r: seq<T>)
  {
    if s == [] then []
    else if key(s[0]) == k then RemoveWhere(s[1..], key, k)
    else [s[0]] + RemoveWhere(s[1..], key, k)
  }

  /** Every element whose key is `k` is gone; every other element stays, as often as before. */
  lemma {:induction false} RemoveWhereContents<T, K>(s: seq<T>, key: T -> K, k: K)
    ensures forall x :: multiset(RemoveWhere(s, key, k))[x] == if key(x) == k then 0 else multiset(s)[x]
  {
    if s != [] {
      RemoveWhereContents(s[1..], key, k);
      assert s == [s[0]] + s[1..];
    }
  }

  /** The kept elements remain in their original order. */
  lemma {:induction false} RemoveWhereSubsequence<T, K>(s: seq<T>, key: T -> K, k: K)
    ensures IsSubsequence(RemoveWhere(s, key, k), s)
  {
    if s != [] {
      RemoveWhereSubsequence(s[1..], key, k);
      var r := RemoveWhere(s, key, k);
      if key(s[0]) == k {
        SubsequenceOfTail(r, s);
      } else {
        assert r[1..] == RemoveWhere(s[1..], key, k);
      }
    }
  }

  /** A subsequence of the tail is a subsequence of the whole. */
  lemma {:induction false} SubsequenceOfTail<T>(a: seq<T>, b: seq<T>)
    requires b != [] && IsSubsequence(a, b[1..])
    ensures IsSubsequence(a, b)
    decreases |b|, 0
  {
    if a != [] && a[0] == b[0] {
      DropHead(a, b[1..]);
    }
  }

  /** Dropping the first element of a subsequence leaves a subsequence. */
  lemma {:induction false} DropHead<T>(a: seq<T>, c: seq<T>)
    requires a != [] && IsSubsequence(a, c)
    ensures IsSubsequence(a[1..], c)
    decreases |c|, 1
  {
    if a[0] == c[0] {
      SubsequenceOfTail(a[1..], c);
    } else {
      DropHead(a, c[1..]);
      SubsequenceOfTail(a[1..], c);
    }
  }

  /** Filtering changes nothing exactly when no element has the key. */
  lemma {:induction false} RemoveWhereUnchangedIff<T, K>(s: seq<T>, key: T -> K, k: K)
    ensures RemoveWhere(s, key, k) == s <==> forall i :: 0 <= i < |s| ==> key(s[i]) != k
  {
    RemoveWhereShorter(s, key, k);
    if s != [] {
      RemoveWhereUnchangedIff(s[1..], key, k);
      if key(s[0]) != k {
        assert s == [s[0]] + s[1..];
        assert forall i :: 1 <= i < |s| ==> s[i] == s[1..][i - 1];
      }
    }
  }

  /** Filtering never lengthens, and it shortens when some element has the key. */
  lemma {:induction false} RemoveWhereShorter<T, K>(s: seq<T>, key: T -> K, k: K)
    ensures |RemoveWhere(s, key, k)| <= |s|
    ensures (exists i :: 0 <= i < |s| && key(s[i]) == k) ==> |RemoveWhere(s, key, k)| < |s|
  {
    if s != [] {
      RemoveWhereShorter(s[1..], key, k);
      if key(s[0]) != k && exists i :: 0 <= i < |s| && key(s[i]) == k {
        var i :| 0 <= i < |s| && key(s[i]) == k;
        assert key(s[1..][i - 1]) == k;
      }
    }
  }

  /** When exactly one element, the one at `i`, has the key, filtering removes just that one. */
  lemma {:induction false} RemoveWhereSingle<T, K>(s: seq<T>, key: T -> K, k: K, i: nat)
    requires i < |s| && key(s[i]) == k
    requires forall j :: 0 <= j < |s| && j != i ==> key(s[j]) != k
    ensures RemoveWhere(s, key, k) == RemoveAt(s, i)
  {
    if i == 0 {
      assert forall j :: 0 <= j < |s[1..]| ==> key(s[1..][j]) != k by {
        forall j | 0 <= j < |s[1..]| ensures key(s[1..][j]) != k {
          assert s[1..][j] == s[j + 1];
        }
      }
      RemoveWhereUnchangedIff(s[1..], key, k);
    } else {
      assert forall j :: 0 <= j < |s[1..]| && j != i - 1 ==> key(s[1..][j]) != k by {
        forall j | 0 <= j < |s[1..]| && j != i - 1 ensures key(s[1..][j]) != k {
          assert s[1..][j] == s[j + 1];
        }
      }
      RemoveWhereSingle(s[1..], key, k, i - 1);
      assert RemoveAt(s, i) == [s[0]] + RemoveAt(s[1..], i - 1);
    }
  }
}
