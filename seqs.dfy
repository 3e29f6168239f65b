/** Sequence helpers shared by the stores. */
module Seqs {
  import opened Options

  /** The first element of `s` for which `p` holds, or `None` (the behaviour
      of `Array.prototype.find`). */
  function Find<T>(s: seq<T>, p: T -> bool): (r: Option<T>)
    ensures r.Some? ==> r.value in s && p(r.value)
    ensures r.None? <==> forall i :: 0 <= i < |s| ==> !p(s[i])
  {
    if s == [] then None
    else if p(s[0]) then Some(s[0])
    else Find(s[1..], p)
  }

  /** The element found is the first one satisfying `p`: one at index `k`
      with no earlier match is exactly what `Find` returns. */
  lemma {:induction false} FindIsFirst<T>(s: seq<T>, p: T -> bool, k: nat)
    requires k < |s| && p(s[k])
    requires forall j :: 0 <= j < k ==> !p(s[j])
    ensures Find(s, p) == Some(s[k])
  {
    if k > 0 {
      FindIsFirst(s[1..], p, k - 1);
    }
  }

  /** An element appended after elements that do not match is the one found. */
  lemma FindAppended<T>(s: seq<T>, x: T, p: T -> bool)
    requires forall i :: 0 <= i < |s| ==> !p(s[i])
    requires p(x)
    ensures Find(s + [x], p) == Some(x)
  {
    FindIsFirst(s + [x], p, |s|);
  }

  /** The elements of `s` for which `keep` holds, in their original order
      (the behaviour of `Array.prototype.filter`). */
  function Filter<T>(s: seq<T>, keep: T -> bool): (r: seq<T>)
    ensures |r| <= |s|
    ensures forall i :: 0 <= i < |r| ==> r[i] in s && keep(r[i])
    ensures forall i :: 0 <= i < |s| && keep(s[i]) ==> s[i] in r
  {
    if s == [] then []
    else if keep(s[0]) then [s[0]] + Filter(s[1..], keep)
    else Filter(s[1..], keep)
  }

  /** Filtering distributes over concatenation, so it keeps relative order. */
  lemma {:induction false} FilterAppend<T>(a: seq<T>, b: seq<T>, keep: T -> bool)
    ensures Filter(a + b, keep) == Filter(a, keep) + Filter(b, keep)
  {
    if a == [] {
      assert a + b == b;
    } else {
      assert (a + b)[0] == a[0];
      assert (a + b)[1..] == a[1..] + b;
      FilterAppend(a[1..], b, keep);
    }
  }

  /** A filter whose predicate holds everywhere keeps the whole sequence. */
  lemma {:induction false} FilterKeepsAll<T>(s: seq<T>, keep: T -> bool)
    requires forall i :: 0 <= i < |s| ==> keep(s[i])
    ensures Filter(s, keep) == s
  {
    if s != [] {
      FilterKeepsAll(s[1..], keep);
    }
  }

  /** A filter keeps everything exactly when its predicate holds everywhere. */
  lemma {:induction false} FilterKeepsAllIff<T>(s: seq<T>, keep: T -> bool)
    ensures |Filter(s, keep)| == |s| <==> forall i :: 0 <= i < |s| ==> keep(s[i])
  {
    if s == [] {
    } else if forall i :: 0 <= i < |s| ==> keep(s[i]) {
      FilterKeepsAll(s, keep);
    } else {
      FilterKeepsAllIff(s[1..], keep);
      if keep(s[0]) {
        assert !forall i :: 0 <= i < |s[1..]| ==> keep(s[1..][i]) by {
          var k :| 0 <= k < |s| && !keep(s[k]);
          assert s[1..][k - 1] == s[k];
        }
      }
    }
  }

  /** Filtering an updated slot: the slot's old element is dropped or kept by
      `keep`, and likewise its new one, while every other element is filtered
      as before. */
  lemma FilterUpdate<T>(s: seq<T>, i: nat, x: T, keep: T -> bool)
    requires i < |s|
    ensures |Filter(s[i := x], keep)| + (if keep(s[i]) then 1 else 0)
         == |Filter(s, keep)| + (if keep(x) then 1 else 0)
  {
    assert s == s[..i] + [s[i]] + s[i+1..];
    assert s[i := x] == s[..i] + [x] + s[i+1..];
    FilterAppend(s[..i] + [s[i]], s[i+1..], keep);
    FilterAppend(s[..i], [s[i]], keep);
    FilterAppend(s[..i] + [x], s[i+1..], keep);
    FilterAppend(s[..i], [x], keep);
  }
}
