/** `Array.prototype.filter` on sequences, the order-preserving
    subsequence relation it produces, and cutting a run of elements from
    either end, which `String.prototype.trim` does for white space. */
module Seqs {

  /** `a` can be obtained from `b` by deleting elements: `a`'s elements occur
      in `b` in the same order. */
  predicate IsSubsequence<T(==)>(a: seq<T>, b: seq<T>)
    decreases |b|
  {
    || |a| == 0
    || (|b| > 0 && ((a[0] == b[0] && IsSubsequence(a[1..], b[1..])) || IsSubsequence(a, b[1..])))
  }

  /** `s.filter(p)`: the elements satisfying `p`, in their original order. */
  function Keep<T(==)>(s: seq<T>, p: T -> bool): (r: seq<T>)
    ensures |r| <= |s|
    ensures forall i :: 0 <= i < |r| ==> r[i] in s && p(r[i])
    ensures forall i :: 0 <= i < |s| && p(s[i]) ==> s[i] in r
    ensures IsSubsequence(r, s)
  {
    if |s| == 0 then []
    else if p(s[0]) then [s[0]] + Keep(s[1..], p)
    else Keep(s[1..], p)
  }

  /** The filter keeps every passing element as many times as it occurs,
      and no other element. */
  lemma {:induction false} KeepCounts<T(!new)>(s: seq<T>, p: T -> bool)
    ensures forall x :: multiset(Keep(s, p))[x] == if p(x) then multiset(s)[x] else 0
  {
    if |s| > 0 {
      KeepCounts(s[1..], p);
      assert s == [s[0]] + s[1..];
    }
  }

  /** Filtering distributes over concatenation. */
  lemma {:induction false} KeepAppend<T>(a: seq<T>, b: seq<T>, p: T -> bool)
    ensures Keep(a + b, p) == Keep(a, p) + Keep(b, p)
  {
    if |a| > 0 {
      assert (a + b)[0] == a[0] && (a + b)[1..] == a[1..] + b;
      KeepAppend(a[1..], b, p);
      if p(a[0]) {
        assert Keep(a + b, p) == [a[0]] + (Keep(a[1..], p) + Keep(b, p));
      } else {
        assert Keep(a + b, p) == Keep(a[1..], p) + Keep(b, p);
      }
    } else {
      assert a + b == b;
    }
  }

  /** A filter every element passes keeps the whole sequence. */
  lemma {:induction false} KeepAll<T>(s: seq<T>, p: T -> bool)
    requires forall i :: 0 <= i < |s| ==> p(s[i])
    ensures Keep(s, p) == s
  {
    if |s| > 0 {
      KeepAll(s[1..], p);
    }
  }

  /** `s` without its leading elements that satisfy `p`: a suffix of `s`
      that does not start with such an element. */
  function DropWhile<T>(s: seq<T>, p: T -> bool): (r: seq<T>)
    ensures |r| <= |s| && r == s[|s| - |r|..]
    ensures r != [] ==> !p(r[0])
  {
    if |s| > 0 && p(s[0]) then DropWhile(s[1..], p) else s
  }

  /** `s` without its trailing elements that satisfy `p`: a prefix of `s`
      that does not end with such an element. */
  function DropLastWhile<T>(s: seq<T>, p: T -> bool): (r: seq<T>)
    ensures |r| <= |s| && r == s[..|r|]
    ensures r != [] ==> !p(r[|r| - 1])
  {
    if |s| > 0 && p(s[|s| - 1]) then DropLastWhile(s[..|s| - 1], p) else s
  }

  /** Everything `DropWhile` cuts off satisfies `p`. */
  lemma {:induction false} DropWhileCuts<T>(s: seq<T>, p: T -> bool)
    ensures forall i :: 0 <= i < |s| - |DropWhile(s, p)| ==> p(s[i])
  {
    if |s| > 0 && p(s[0]) {
      var tail := s[1..];
      DropWhileCuts(tail, p);
      forall i | 1 <= i < |s| - |DropWhile(s, p)|
        ensures p(s[i])
      {
        assert s[i] == tail[i - 1];
      }
    }
  }

  /** Everything `DropLastWhile` cuts off satisfies `p`. */
  lemma {:induction false} DropLastWhileCuts<T>(s: seq<T>, p: T -> bool)
    ensures forall i :: |DropLastWhile(s, p)| <= i < |s| ==> p(s[i])
  {
    if |s| > 0 && p(s[|s| - 1]) {
      DropLastWhileCuts(s[..|s| - 1], p);
    }
  }

  /** `s` without the elements satisfying `p` at either end: a piece of `s`
      that neither starts nor ends with such an element. */
  function Strip<T>(s: seq<T>, p: T -> bool): (r: seq<T>)
    ensures |r| <= |s|
    ensures r != [] ==> !p(r[0]) && !p(r[|r| - 1])
  {
    var t := DropWhile(s, p);
    var r := DropLastWhile(t, p);
    assert r != [] ==> r[0] == t[0];
    r
  }

  /** `r` is the piece of `s` starting at `k`, and every element before
      or after that piece satisfies `p`. */
  ghost predicate Trimmed<T>(s: seq<T>, p: T -> bool, k: int, r: seq<T>)
  {
    && 0 <= k && k + |r| <= |s| && r == s[k..k + |r|]
    && (forall i :: 0 <= i < k ==> p(s[i]))
    && (forall i :: k + |r| <= i < |s| ==> p(s[i]))
  }

  /** `Strip` keeps the contiguous piece of `s` that starts where the
      leading run ends, and cuts only elements satisfying `p`. */
  lemma StripIsSlice<T>(s: seq<T>, p: T -> bool)
    ensures Trimmed(s, p, |s| - |DropWhile(s, p)|, Strip(s, p))
  {
    StripPiece(s, p);
    StripCutsEnd(s, p);
    DropWhileCuts(s, p);
  }

  /** The piece `Strip` keeps lies in `s` where the leading run ends. */
  lemma StripPiece<T>(s: seq<T>, p: T -> bool)
    ensures var k := |s| - |DropWhile(s, p)|; k + |Strip(s, p)| <= |s| && Strip(s, p) == s[k..k + |Strip(s, p)|]
  {
    var t := DropWhile(s, p);
    var r := DropLastWhile(t, p);
    var k := |s| - |t|;
    assert r == t[..|r|] && t == s[k..];
    assert s[k..][..|r|] == s[k..k + |r|];
  }

  /** Everything after the piece `Strip` keeps satisfies `p`. */
  lemma StripCutsEnd<T>(s: seq<T>, p: T -> bool)
    ensures var k := |s| - |DropWhile(s, p)|; forall i :: k + |Strip(s, p)| <= i < |s| ==> p(s[i])
  {
    var t := DropWhile(s, p);
    var k := |s| - |t|;
    var n := |DropLastWhile(t, p)|;
    assert |Strip(s, p)| == n;
    DropLastWhileCuts(t, p);
    assert t == s[k..];
    forall i | k + n <= i < |s|
      ensures p(s[i])
    {
      assert s[i] == t[i - k];
    }
  }

  /** A sequence strips to nothing exactly when all its elements satisfy `p`. */
  lemma StripEmptyIffAll<T>(s: seq<T>, p: T -> bool)
    ensures Strip(s, p) == [] <==> forall i :: 0 <= i < |s| ==> p(s[i])
  {
    var t := DropWhile(s, p);
    if Strip(s, p) == [] {
      DropLastWhileCuts(t, p);
      assert t == [];
      DropWhileCuts(s, p);
    }
    if forall i :: 0 <= i < |s| ==> p(s[i]) {
      assert t == [];
    }
  }
}
