/** Sequence utilities that stand in for the string helpers the system calls:
    Go's `strings.Split`, `strings.Replace(s, old, new, 1)` and JavaScript's
    `String.prototype.split` / `includes`. A string is a `seq<char>`; the
    helpers are generic so that the same `Split` serves decoded bytes. */
module Seqs {
  import opened Wrappers

  /** Index of the first `x` in `s`. */
  function IndexOf<T(==)>(s: seq<T>, x: T): (i: nat)
    requires x in s
    ensures i < |s| && s[i] == x
    ensures x !in s[..i]
  {
    if s[0] == x then 0 else 1 + IndexOf(s[1..], x)
  }

  /** Joins `parts`, putting one `sep` between neighbours (inverse of `Split`). */
  function Join<T>(parts: seq<seq<T>>, sep: T): seq<T>
  {
    if |parts| == 0 then []
    else if |parts| == 1 then parts[0]
    else parts[0] + [sep] + Join(parts[1..], sep)
  }

  /** Joining a non-empty head, one middle piece and a non-empty tail puts
      a separator on each side of the middle piece. */
  lemma JoinAround<T>(head: seq<seq<T>>, mid: seq<T>, tail: seq<seq<T>>, sep: T)
    requires |head| >= 1 && |tail| >= 1
    ensures Join(head + [mid] + tail, sep) == (Join(head, sep) + [sep]) + mid + ([sep] + Join(tail, sep))
    decreases |head|
  {
    var all := head + [mid] + tail;
    if |head| == 1 {
      assert all[1..] == [mid] + tail;
      assert ([mid] + tail)[1..] == tail;
    } else {
      assert all[1..] == head[1..] + [mid] + tail;
      JoinAround(head[1..], mid, tail, sep);
    }
  }

  /** Splits `s` around every occurrence of the one-element separator `sep`,
      as Go's `strings.Split` and JavaScript's `split` do: the empty input
      gives one empty piece, and adjacent separators give empty pieces. */
  function Split<T(==)>(s: seq<T>, sep: T): (parts: seq<seq<T>>)
    ensures |parts| >= 1
    ensures forall k :: 0 <= k < |parts| ==> sep !in parts[k]
    ensures Join(parts, sep) == s
    decreases |s|
  {
    if sep !in s then [s]
    else
      var i := IndexOf(s, sep);
      var rest := Split(s[i + 1..], sep);
      assert s == s[..i] + [sep] + s[i + 1..];
      [s[..i]] + rest
  }

  /** Number of occurrences of `x` in `s`. */
  function Count<T(==)>(s: seq<T>, x: T): nat
  {
    if |s| == 0 then 0 else (if s[0] == x then 1 else 0) + Count(s[1..], x)
  }

  lemma {:induction false} CountAppend<T>(a: seq<T>, b: seq<T>, x: T)
    ensures Count(a + b, x) == Count(a, x) + Count(b, x)
  {
    if |a| > 0 {
      assert (a + b)[1..] == a[1..] + b;
      CountAppend(a[1..], b, x);
    } else {
      assert a + b == b;
    }
  }

  lemma {:induction false} CountAbsent<T>(s: seq<T>, x: T)
    requires x !in s
    ensures Count(s, x) == 0
  {
    if |s| > 0 {
      CountAbsent(s[1..], x);
    }
  }

  /** The number of pieces is one more than the number of separators. */
  lemma {:induction false} SplitCount<T>(s: seq<T>, sep: T)
    ensures |Split(s, sep)| == Count(s, sep) + 1
    decreases |s|
  {
    if sep in s {
      var i := IndexOf(s, sep);
      SplitCount(s[i + 1..], sep);
      assert s == s[..i] + ([sep] + s[i + 1..]);
      CountAppend(s[..i], [sep] + s[i + 1..], sep);
      CountAppend([sep], s[i + 1..], sep);
      CountAbsent(s[..i], sep);
    } else {
      CountAbsent(s, sep);
    }
  }

  /** The first index of `x` is the one position holding `x` with no `x` before it. */
  lemma IndexOfUnique<T>(s: seq<T>, x: T, k: nat)
    requires k < |s| && s[k] == x && x !in s[..k]
    ensures IndexOf(s, x) == k
  {
  }

  /** Splitting a joined list of separator-free pieces gives the pieces back. */
  lemma {:induction false} SplitJoin<T>(parts: seq<seq<T>>, sep: T)
    requires |parts| >= 1
    requires forall k :: 0 <= k < |parts| ==> sep !in parts[k]
    ensures Split(Join(parts, sep), sep) == parts
    decreases |parts|
  {
    if |parts| == 1 {
    } else {
      var s := Join(parts, sep);
      assert s == parts[0] + [sep] + Join(parts[1..], sep);
      assert s[|parts[0]|] == sep;
      assert s[..|parts[0]|] == parts[0];
      assert sep in s;
      IndexOfUnique(s, sep, |parts[0]|);
      var i := IndexOf(s, sep);
      assert s[i + 1..] == Join(parts[1..], sep);
      SplitJoin(parts[1..], sep);
    }
  }

  /** `a ++ sep ++ b` with separator-free `a`, `b` splits into exactly `[a, b]`. */
  lemma SplitPair<T>(a: seq<T>, b: seq<T>, sep: T)
    requires sep !in a && sep !in b
    ensures Split(a + [sep] + b, sep) == [a, b]
  {
    assert Join([a, b], sep) == a + [sep] + Join([b], sep);
    SplitJoin([a, b], sep);
  }

  /** `pat` occurs in `s` starting at index `i`. */
  predicate OccursAt<T(==)>(s: seq<T>, pat: seq<T>, i: int)
  {
    0 <= i && i + |pat| <= |s| && s[i..i + |pat|] == pat
  }

  /** Substring test (JavaScript's `includes`). */
  predicate HasInfix<T(==)>(s: seq<T>, pat: seq<T>)
  {
    exists i | 0 <= i <= |s| :: OccursAt(s, pat, i)
  }

  /** The first index at which `pat` occurs in `s`, searching from `from`. */
  function FindFirstFrom<T(==)>(s: seq<T>, pat: seq<T>, from: nat): (r: Option<nat>)
    ensures r.Some? ==> from <= r.value && OccursAt(s, pat, r.value)
    ensures r.Some? ==> forall j :: from <= j < r.value ==> !OccursAt(s, pat, j)
    ensures r.None? ==> forall j :: from <= j ==> !OccursAt(s, pat, j)
    decreases |s| - from
  {
    if from + |pat| > |s| then None
    else if s[from..from + |pat|] == pat then Some(from)
    else FindFirstFrom(s, pat, from + 1)
  }

  /** The first index at which `pat` occurs in `s`, if any. */
  function FindFirst<T(==)>(s: seq<T>, pat: seq<T>): (r: Option<nat>)
    ensures r.Some? <==> HasInfix(s, pat)
    ensures r.Some? ==> OccursAt(s, pat, r.value)
    ensures r.Some? ==> forall j :: 0 <= j < r.value ==> !OccursAt(s, pat, j)
  {
    FindFirstFrom(s, pat, 0)
  }

  /** Go's `strings.Replace(s, pat, rep, 1)`: only the first occurrence of
      `pat` is replaced; without one the input comes back unchanged. An
      empty `pat` matches at the start, as in Go. */
  function ReplaceFirst<T(==)>(s: seq<T>, pat: seq<T>, rep: seq<T>): (r: seq<T>)
    ensures !HasInfix(s, pat) ==> r == s
    ensures HasInfix(s, pat) ==>
              exists i | 0 <= i <= |s| :: OccursAt(s, pat, i)
                          && (forall j :: 0 <= j < i ==> !OccursAt(s, pat, j))
                          && r == s[..i] + rep + s[i + |pat|..]
  {
    match FindFirst(s, pat)
    case None => s
    case Some(i) => s[..i] + rep + s[i + |pat|..]
  }

  /** When the first element of `pat` does not occur in `p`, the first
      occurrence of `pat` in `p + pat + q` is the one right after `p`, so
      replacing the first occurrence rewrites exactly that one. */
  lemma ReplaceFirstAt<T>(p: seq<T>, pat: seq<T>, rep: seq<T>, q: seq<T>)
    requires |pat| > 0 && pat[0] !in p
    ensures ReplaceFirst(p + pat + q, pat, rep) == p + rep + q
  {
    var s := p + pat + q;
    assert s[|p|..|p| + |pat|] == pat;
    assert OccursAt(s, pat, |p|);
    forall j | 0 <= j < |p|
      ensures !OccursAt(s, pat, j)
    {
      assert s[j] == p[j];
    }
    var r := FindFirst(s, pat);
    assert r.Some? && r.value == |p|;
    assert s[..|p|] == p;
    assert s[|p| + |pat|..] == q;
  }

  /** Applies `f` to every element. */
  function Map<T, U>(s: seq<T>, f: T -> U): (r: seq<U>)
    ensures |r| == |s|
    ensures forall k :: 0 <= k < |s| ==> r[k] == f(s[k])
  {
    if |s| == 0 then [] else [f(s[0])] + Map(s[1..], f)
  }

  /** Concatenates a list of lists in order. */
  function Flatten<T>(ss: seq<seq<T>>): seq<T>
  {
    if |ss| == 0 then [] else ss[0] + Flatten(ss[1..])
  }

  lemma FlattenAppend<T>(a: seq<seq<T>>, b: seq<seq<T>>)
    ensures Flatten(a + b) == Flatten(a) + Flatten(b)
  {
    if |a| > 0 {
      assert (a + b)[1..] == a[1..] + b;
      FlattenAppend(a[1..], b);
    } else {
      assert a + b == b;
    }
  }

  lemma MapAppend<T, U>(a: seq<T>, b: seq<T>, f: T -> U)
    ensures Map(a + b, f) == Map(a, f) + Map(b, f)
  {
  }
}
