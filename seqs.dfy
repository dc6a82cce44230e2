/** Order-preserving filtering of a list: the `Array.prototype.filter` step
    that the uploader (remove a row by id) and the chat (drop the typing
    placeholder) both apply to their state. */
module Seqs {

  /** The elements of `s` for which `keep` holds, in their original order. */
  function Filter<T>(s: seq<T>, keep: T -> bool): (r: seq<T>)
    ensures |r| <= |s|
    ensures forall i :: 0 <= i < |r| ==> keep(r[i])
  {
    if s == [] then []
    else
      (if keep(s[0]) then [s[0]] else []) + Filter(s[1..], keep)
  }

  /** Filtering keeps exactly the elements that pass the test: everything in
      the result comes from `s`, and every element of `s` that passes is in
      the result. */
  lemma {:induction false} FilterMembers<T>(s: seq<T>, keep: T -> bool)
    ensures forall i :: 0 <= i < |Filter(s, keep)| ==> Filter(s, keep)[i] in s
    ensures forall i :: 0 <= i < |s| && keep(s[i]) ==> s[i] in Filter(s, keep)
  {
    if s != [] {
      FilterMembers(s[1..], keep);
      var r, rest := Filter(s, keep), Filter(s[1..], keep);
      assert r == (if keep(s[0]) then [s[0]] else []) + rest;
      forall i | 0 <= i < |r| ensures r[i] in s {
        if !keep(s[0]) || i > 0 {
          var j := if keep(s[0]) then i - 1 else i;
          assert r[i] == rest[j] && rest[j] in s[1..];
        }
      }
      forall i | 0 <= i < |s| && keep(s[i]) ensures s[i] in r {
        if i > 0 {
          assert s[i] == s[1..][i - 1] && s[i] in rest;
        }
      }
    }
  }

  /** Appending two elements one after the other appends the pair. */
  lemma SnocSnoc<T>(s: seq<T>, x: T, y: T)
    ensures s + [x] + [y] == s + [x, y]
  {
  }

  /** Filtering a concatenation filters each part and keeps them in order. */
  lemma {:induction false} FilterConcat<T>(a: seq<T>, b: seq<T>, keep: T -> bool)
    ensures Filter(a + b, keep) == Filter(a, keep) + Filter(b, keep)
  {
    if a == [] {
      assert a + b == b;
    } else {
      assert (a + b)[0] == a[0];
      assert (a + b)[1..] == a[1..] + b;
      FilterConcat(a[1..], b, keep);
    }
  }

  /** A list whose every element is kept comes back unchanged. */
  lemma {:induction false} FilterKeepsAll<T>(s: seq<T>, keep: T -> bool)
    requires forall i :: 0 <= i < |s| ==> keep(s[i])
    ensures Filter(s, keep) == s
  {
    if s != [] {
      FilterKeepsAll(s[1..], keep);
    }
  }

  /** When `keep` rejects exactly the element at `k`, filtering cuts out that
      element and keeps the others in order. */
  lemma {:induction false} FilterDropsOne<T>(s: seq<T>, keep: T -> bool, k: nat)
    requires k < |s| && !keep(s[k])
    requires forall i :: 0 <= i < |s| && i != k ==> keep(s[i])
    ensures Filter(s, keep) == s[..k] + s[k + 1..]
  {
    var pre, post := s[..k], s[k + 1..];
    assert s == pre + [s[k]] + post;
    forall i | 0 <= i < |pre| ensures keep(pre[i]) {
      assert pre[i] == s[i];
    }
    forall i | 0 <= i < |post| ensures keep(post[i]) {
      assert post[i] == s[k + 1 + i];
    }
    FilterConcat(pre + [s[k]], post, keep);
    FilterConcat(pre, [s[k]], keep);
    FilterKeepsAll(pre, keep);
    FilterKeepsAll(post, keep);
    assert Filter([s[k]], keep) == [];
  }

  /** Filtering twice with the same test is filtering once. */
  lemma {:induction false} FilterIdempotent<T>(s: seq<T>, keep: T -> bool)
    ensures Filter(Filter(s, keep), keep) == Filter(s, keep)
  {
    FilterKeepsAll(Filter(s, keep), keep);
  }

  /** A relation that holds between every earlier and later element of `s`
      still holds after filtering: filtering keeps the relative order. */
  lemma {:induction false} FilterPairwise<T>(s: seq<T>, keep: T -> bool, ok: (T, T) -> bool)
    requires forall i, j :: 0 <= i < j < |s| ==> ok(s[i], s[j])
    ensures forall i, j :: 0 <= i < j < |Filter(s, keep)| ==> ok(Filter(s, keep)[i], Filter(s, keep)[j])
  {
    if s != [] {
      var rest := Filter(s[1..], keep);
      FilterPairwise(s[1..], keep, ok);
      FilterMembers(s[1..], keep);
      forall j | 0 <= j < |rest| ensures ok(s[0], rest[j]) {
        var m :| 0 <= m < |s[1..]| && s[1..][m] == rest[j];
        assert s[1 + m] == rest[j];
      }
    }
  }
}
