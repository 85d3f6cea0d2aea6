/** Order-preserving selection and first-seen deduplication over sequences:
    the two list-building patterns (comprehension filters and loop-and-append
    merges) that the line detector and the converters use. */
module Sequences {

  /** `a` can be obtained from `b` by deleting elements: the order of `a` is that of `b`. */
  predicate IsSubsequence<T(==)>(a: seq<T>, b: seq<T>)
    decreases |b|
  {
    if |b| == 0 then
      |a| == 0
    else
      || IsSubsequence(a, b[..|b| - 1])
      || (|a| > 0 && a[|a| - 1] == b[|b| - 1] && IsSubsequence(a[..|a| - 1], b[..|b| - 1]))
  }

  lemma {:induction false} SubsequenceMembers<T>(a: seq<T>, b: seq<T>)
    requires IsSubsequence(a, b)
    ensures |a| <= |b|
    ensures forall x :: x in a ==> x in b
    decreases |b|
  {
    if |b| > 0 {
      var b' := b[..|b| - 1];
      assert b == b' + [b[|b| - 1]];
      if IsSubsequence(a, b') {
        SubsequenceMembers(a, b');
      } else {
        SubsequenceMembers(a[..|a| - 1], b');
        assert a == a[..|a| - 1] + [a[|a| - 1]];
      }
    }
  }

  lemma {:induction false} SubsequenceReflexive<T>(a: seq<T>)
    ensures IsSubsequence(a, a)
    decreases |a|
  {
    if |a| > 0 {
      SubsequenceReflexive(a[..|a| - 1]);
    }
  }

  lemma {:induction false} SubsequenceTransitive<T>(a: seq<T>, b: seq<T>, c: seq<T>)
    requires IsSubsequence(a, b) && IsSubsequence(b, c)
    ensures IsSubsequence(a, c)
    decreases |c|
  {
    if |c| > 0 {
      var c' := c[..|c| - 1];
      if IsSubsequence(b, c') {
        SubsequenceTransitive(a, b, c');
      } else {
        var b' := b[..|b| - 1];
        if IsSubsequence(a, b') {
          SubsequenceTransitive(a, b', c');
        } else {
          SubsequenceTransitive(a[..|a| - 1], b', c');
        }
      }
    }
  }

  /** No element occurs twice. */
  predicate Distinct<T(==)>(s: seq<T>)
  {
    forall i, j :: 0 <= i < j < |s| ==> s[i] != s[j]
  }

  lemma {:induction false} SubsequenceDistinct<T>(a: seq<T>, b: seq<T>)
    requires IsSubsequence(a, b) && Distinct(b)
    ensures Distinct(a)
    decreases |b|
  {
    if |b| > 0 {
      var b' := b[..|b| - 1];
      if IsSubsequence(a, b') {
        SubsequenceDistinct(a, b');
      } else {
        var a' := a[..|a| - 1];
        SubsequenceDistinct(a', b');
        SubsequenceMembers(a', b');
        forall i, j | 0 <= i < j < |a|
          ensures a[i] != a[j]
        {
          if j == |a| - 1 {
            assert a[i] in a';
            var m :| 0 <= m < |b'| && b'[m] == a[i];
            assert b[m] == b'[m];
          } else {
            assert a[i] == a'[i] && a[j] == a'[j];
          }
        }
      }
    }
  }

  lemma DistinctAppend<T>(a: seq<T>, b: seq<T>)
    requires Distinct(a) && Distinct(b)
    requires forall i, j :: 0 <= i < |a| && 0 <= j < |b| ==> a[i] != b[j]
    ensures Distinct(a + b)
  {
  }

  /** The comprehension `[x for x in s if p(x)]`. */
  function Select<T>(s: seq<T>, p: T -> bool): (r: seq<T>)
    ensures IsSubsequence(r, s)
    ensures forall x :: x in r ==> p(x)
    ensures forall x :: x in s && p(x) ==> x in r
    decreases |s|
  {
    if |s| == 0 then []
    else
      var r' := Select(s[..|s| - 1], p);
      assert s == s[..|s| - 1] + [s[|s| - 1]];
      if p(s[|s| - 1]) then
        assert (r' + [s[|s| - 1]])[..|r'|] == r';
        r' + [s[|s| - 1]]
      else r'
  }

  /** An element that passes the condition is kept. */
  lemma SelectMember<T>(s: seq<T>, p: T -> bool, x: T)
    requires x in s && p(x)
    ensures x in Select(s, p)
  {
  }

  /** Selection drops every element that fails the condition, so it shortens
      the sequence as soon as one element fails. */
  lemma {:induction false} SelectShrinks<T>(s: seq<T>, p: T -> bool, x: T)
    requires x in s && !p(x)
    ensures |Select(s, p)| < |s|
    decreases |s|
  {
    var s' := s[..|s| - 1];
    assert s == s' + [s[|s| - 1]];
    SubsequenceMembers(Select(s', p), s');
    if x in s' {
      SelectShrinks(s', p, x);
    }
  }

  /** Some element of `kept` is `same` as `x`: the loop `for k in kept: if same(k, x): return True`. */
  predicate AnyMatch<T(==)>(kept: seq<T>, x: T, same: (T, T) -> bool)
  {
    exists k :: k in kept && same(k, x)
  }

  /** First-seen deduplication: scan `s` in order and append an element
      unless an element already kept is `same` as it. */
  function Dedup<T(==)>(s: seq<T>, same: (T, T) -> bool): seq<T>
    decreases |s|
  {
    if |s| == 0 then []
    else
      var kept := Dedup(s[..|s| - 1], same);
      if AnyMatch(kept, s[|s| - 1], same) then kept else kept + [s[|s| - 1]]
  }

  lemma {:induction false} DedupSubsequence<T>(s: seq<T>, same: (T, T) -> bool)
    ensures IsSubsequence(Dedup(s, same), s)
    decreases |s|
  {
    if |s| > 0 {
      var s' := s[..|s| - 1];
      var kept := Dedup(s', same);
      DedupSubsequence(s', same);
      assert (kept + [s[|s| - 1]])[..|kept|] == kept;
    }
  }

  /** The scan is online: what was kept from a prefix stays kept, at the front. */
  lemma {:induction false} DedupPrefix<T>(s: seq<T>, k: nat, same: (T, T) -> bool)
    requires k <= |s|
    ensures Dedup(s[..k], same) <= Dedup(s, same)
    decreases |s| - k
  {
    if k < |s| {
      DedupPrefix(s, k + 1, same);
      assert s[..k + 1][..k] == s[..k];
    } else {
      assert s[..k] == s;
    }
  }

  /** No kept element is `same` as a later kept element. */
  lemma {:induction false} DedupPairwise<T>(s: seq<T>, same: (T, T) -> bool)
    ensures forall i, j :: 0 <= i < j < |Dedup(s, same)| ==> !same(Dedup(s, same)[i], Dedup(s, same)[j])
    decreases |s|
  {
    if |s| > 0 {
      DedupPairwise(s[..|s| - 1], same);
    }
  }

  /** Every element of `s` was kept, or is `same` as a kept element seen before it. */
  lemma {:induction false} DedupCovers<T>(s: seq<T>, same: (T, T) -> bool)
    ensures forall i :: 0 <= i < |s| ==>
      s[i] in Dedup(s, same) || AnyMatch(Dedup(s[..i], same), s[i], same)
    ensures forall x :: x in s ==> x in Dedup(s, same) || AnyMatch(Dedup(s, same), x, same)
  {
    forall i | 0 <= i < |s|
      ensures s[i] in Dedup(s, same) || AnyMatch(Dedup(s[..i], same), s[i], same)
      ensures s[i] in Dedup(s, same) || AnyMatch(Dedup(s, same), s[i], same)
    {
      assert s[..i + 1][..i] == s[..i];
      DedupPrefix(s, i + 1, same);
      DedupPrefix(s, i, same);
      var before := Dedup(s[..i], same);
      if !AnyMatch(before, s[i], same) {
        assert Dedup(s[..i + 1], same) == before + [s[i]];
        assert s[i] in Dedup(s[..i + 1], same);
      } else {
        var k :| k in before && same(k, s[i]);
        assert k in Dedup(s, same);
      }
    }
  }

  /** The first element is always kept. */
  lemma {:induction false} DedupFirst<T>(s: seq<T>, same: (T, T) -> bool)
    requires |s| > 0
    ensures |Dedup(s, same)| > 0 && Dedup(s, same)[0] == s[0]
  {
    DedupPrefix(s, 1, same);
    assert Dedup(s[..1][..0], same) == [];
  }

  /** A sequence none of whose elements is `same` as a later one is left unchanged. */
  lemma {:induction false} DedupOfDistinct<T>(s: seq<T>, same: (T, T) -> bool)
    requires forall i, j :: 0 <= i < j < |s| ==> !same(s[i], s[j])
    ensures Dedup(s, same) == s
    decreases |s|
  {
    if |s| > 0 {
      var s' := s[..|s| - 1];
      DedupOfDistinct(s', same);
      forall k | k in s'
        ensures !same(k, s[|s| - 1])
      {
        var i :| 0 <= i < |s'| && s'[i] == k;
        assert s[i] == k;
      }
      assert s == s' + [s[|s| - 1]];
    }
  }

  /** Deduplicating twice is deduplicating once. */
  lemma DedupIdempotent<T>(s: seq<T>, same: (T, T) -> bool)
    ensures Dedup(Dedup(s, same), same) == Dedup(s, same)
  {
    DedupPairwise(s, same);
    DedupOfDistinct(Dedup(s, same), same);
  }
}
