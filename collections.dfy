/** Array helpers the source uses through `Array.prototype`: `filter` and subsequences. */
module Collections {

  /** `s.filter(f)`: the elements that satisfy `f`, in their original order. */
  function Filter<T(==)>(s: seq<T>, f: T -> bool): (r: seq<T>)
    ensures |r| <= |s|
    ensures forall i :: 0 <= i < |r| ==> r[i] in s && f(r[i])
    ensures forall i :: 0 <= i < |s| && f(s[i]) ==> s[i] in r
    ensures IsSubsequence(r, s)
  {
    if s == [] then []
    else if f(s[0]) then [s[0]] + Filter(s[1..], f)
    else Filter(s[1..], f)
  }
  /** Every passing value keeps all its copies and every failing value loses them all. */
  lemma {:induction false} FilterMultiset<T>(s: seq<T>, f: T -> bool, x: T)
    ensures multiset(Filter(s, f))[x] == if f(x) then multiset(s)[x] else 0
  {
    if s != [] {
      FilterMultiset(s[1..], f, x);
      assert s == [s[0]] + s[1..];
    }
  }


  /** `r` is `s` with some elements left out, order kept. */
  predicate IsSubsequence<T(==)>(r: seq<T>, s: seq<T>)
    decreases |s|
  {
    if r == [] then true
    else if s == [] then false
    else if r[0] == s[0] then IsSubsequence(r[1..], s[1..])
    else IsSubsequence(r, s[1..])
  }

  lemma {:induction false} FilterConcat<T>(a: seq<T>, b: seq<T>, f: T -> bool)
    ensures Filter(a + b, f) == Filter(a, f) + Filter(b, f)
  {
    if a == [] {
      assert a + b == b;
    } else {
      assert (a + b)[1..] == a[1..] + b;
      FilterConcat(a[1..], b, f);
    }
  }

  /** Filtering twice is filtering by both conditions. */
  lemma {:induction false} FilterFilter<T>(s: seq<T>, f: T -> bool, g: T -> bool)
    ensures Filter(Filter(s, f), g) == Filter(s, x => f(x) && g(x))
  {
    if s != [] {
      FilterFilter(s[1..], f, g);
    }
  }

  /** Filtering keeps every element exactly when every element passes. */
  lemma {:induction false} FilterKeepsAll<T>(s: seq<T>, f: T -> bool)
    ensures |Filter(s, f)| == |s| <==> forall i :: 0 <= i < |s| ==> f(s[i])
    ensures (forall i :: 0 <= i < |s| ==> f(s[i])) ==> Filter(s, f) == s
  {
    if s != [] {
      FilterKeepsAll(s[1..], f);
      assert forall i :: 1 <= i < |s| ==> s[i] == s[1..][i - 1];
    }
  }

  /** When exactly the element at `i` fails `f`, filtering drops just that one. */
  lemma {:induction false} FilterDropsOne<T>(s: seq<T>, f: T -> bool, i: nat)
    requires i < |s| && !f(s[i])
    requires forall j :: 0 <= j < |s| && j != i ==> f(s[j])
    ensures Filter(s, f) == s[..i] + s[i + 1..]
  {
    if i == 0 {
      FilterTailPasses(s, f);
      assert s[..0] + s[1..] == s[1..];
    } else {
      FilterTailDrops(s, f, i);
      FilterDropsOne(s[1..], f, i - 1);
      SplitShift(s, i);
    }
  }

  /** Dropping position `i` of `s`, seen from `s[1..]`. */
  lemma SplitShift<T>(s: seq<T>, i: nat)
    requires 0 < i < |s|
    ensures [s[0]] + (s[1..][..i - 1] + s[1..][i..]) == s[..i] + s[i + 1..]
  {
    assert s[..i] == [s[0]] + s[1..][..i - 1];
    assert s[i + 1..] == s[1..][i..];
  }

  /** The case `i == 0` of `FilterDropsOne`. */
  lemma FilterTailPasses<T>(s: seq<T>, f: T -> bool)
    requires |s| > 0 && !f(s[0])
    requires forall j :: 0 < j < |s| ==> f(s[j])
    ensures Filter(s, f) == s[1..]
  {
    var t := s[1..];
    assert forall j :: 0 <= j < |t| ==> f(t[j]) by {
      forall j | 0 <= j < |t| ensures f(t[j]) { assert t[j] == s[j + 1]; }
    }
    FilterKeepsAll(t, f);
  }

  /** The first step of `FilterDropsOne` for `i > 0`: the head passes and the rest keeps the pattern. */
  lemma FilterTailDrops<T>(s: seq<T>, f: T -> bool, i: nat)
    requires 0 < i < |s| && !f(s[i])
    requires forall j :: 0 <= j < |s| && j != i ==> f(s[j])
    ensures Filter(s, f) == [s[0]] + Filter(s[1..], f)
    ensures forall j :: 0 <= j < |s| - 1 && j != i - 1 ==> f(s[1..][j])
    ensures !f(s[1..][i - 1])
  {
    var t := s[1..];
    forall j | 0 <= j < |t| && j != i - 1 ensures f(t[j]) { assert t[j] == s[j + 1]; }
  }

  /** Number of elements that satisfy `f`. */
  function Count<T(==)>(s: seq<T>, f: T -> bool): (n: nat)
    ensures n == |Filter(s, f)|
  {
    if s == [] then 0 else (if f(s[0]) then 1 else 0) + Count(s[1..], f)
  }

  /** Elements satisfying `f` plus those failing it make up the whole sequence. */
  lemma {:induction false} CountSplit<T>(s: seq<T>, f: T -> bool)
    ensures Count(s, f) + Count(s, x => !f(x)) == |s|
  {
    if s != [] {
      CountSplit(s[1..], f);
    }
  }

  /** No element occurs twice. */
  predicate NoDuplicates<T(==)>(s: seq<T>) {
    forall i, j :: 0 <= i < j < |s| ==> s[i] != s[j]
  }

  /** `p` lists each of `0 .. n-1` exactly once: the order a shuffle produced. */
  predicate IsPermutation(p: seq<nat>, n: nat) {
    |p| == n && (forall k :: 0 <= k < n ==> p[k] < n) && NoDuplicates(p)
  }
}
