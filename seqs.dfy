/** Sequence helpers shared by the reason-code list and the critical-supplier
    filter: no-duplicates, order-preserving sublists and masked selection. */
module Seqs {

  /** No element occurs twice. */
  ghost predicate Distinct<T>(s: seq<T>) {
    forall i, j :: 0 <= i < j < |s| ==> s[i] != s[j]
  }

  /** `r` can be obtained from `s` by deleting elements, keeping the order. */
  ghost predicate IsSubsequence<T>(r: seq<T>, s: seq<T>)
    decreases |s|
  {
    if r == [] then true
    else if s == [] then false
    else (r[0] == s[0] && IsSubsequence(r[1..], s[1..])) || IsSubsequence(r, s[1..])
  }

  /** The elements of `xs` whose flag in `keep` is set, in their original order
      (a Python list comprehension with an `if` clause). */
  function Select<T>(xs: seq<T>, keep: seq<bool>): (r: seq<T>)
    requires |keep| == |xs|
    ensures |r| <= |xs|
  {
    if xs == [] then []
    else (if keep[0] then [xs[0]] else []) + Select(xs[1..], keep[1..])
  }

  /** Extending the input by one position extends the selection by that
      element when it is flagged. */
  lemma {:induction false} SelectSnoc<T>(xs: seq<T>, keep: seq<bool>, k: int)
    requires |keep| == |xs| && 0 <= k < |xs|
    ensures Select(xs[..k + 1], keep[..k + 1]) == Select(xs[..k], keep[..k]) + (if keep[k] then [xs[k]] else [])
  {
    if k == 0 {
      assert xs[..1][1..] == [] && keep[..1][1..] == [];
    } else {
      assert xs[..k + 1][1..] == xs[1..][..k] && keep[..k + 1][1..] == keep[1..][..k];
      assert xs[..k][1..] == xs[1..][..k - 1] && keep[..k][1..] == keep[1..][..k - 1];
      SelectSnoc(xs[1..], keep[1..], k - 1);
    }
  }

  /** The list built by examining positions 0 .. k-1 in turn and appending
      each flagged element: the imperative counterpart of `Select`. */
  function AppendFlagged<T>(xs: seq<T>, keep: seq<bool>, k: nat): seq<T>
    requires |keep| == |xs| && k <= |xs|
  {
    if k == 0 then [] else AppendFlagged(xs, keep, k - 1) + (if keep[k - 1] then [xs[k - 1]] else [])
  }

  /** Appending one flagged element at a time builds the same list as the
      comprehension over the examined prefix. */
  lemma {:induction false} AppendFlaggedIsSelect<T>(xs: seq<T>, keep: seq<bool>, k: nat)
    requires |keep| == |xs| && k <= |xs|
    ensures AppendFlagged(xs, keep, k) == Select(xs[..k], keep[..k])
  {
    if k == 0 {
      assert xs[..0] == [] && keep[..0] == [];
    } else {
      AppendFlaggedIsSelect(xs, keep, k - 1);
      SelectSnoc(xs, keep, k - 1);
    }
  }

  lemma {:induction false} SelectIsSubsequence<T>(xs: seq<T>, keep: seq<bool>)
    requires |keep| == |xs|
    ensures IsSubsequence(Select(xs, keep), xs)
  {
    if xs != [] {
      SelectIsSubsequence(xs[1..], keep[1..]);
      var rest := Select(xs[1..], keep[1..]);
      if keep[0] {
        assert Select(xs, keep) == [xs[0]] + rest;
        assert ([xs[0]] + rest)[1..] == rest;
      } else {
        assert Select(xs, keep) == rest;
        if rest != [] {
          assert IsSubsequence(rest, xs[1..]);
        }
      }
    }
  }

  /** An element is selected exactly when some occurrence of it is flagged. */
  lemma {:induction false} SelectContains<T>(xs: seq<T>, keep: seq<bool>, x: T)
    requires |keep| == |xs|
    ensures x in Select(xs, keep) <==> exists i :: 0 <= i < |xs| && keep[i] && xs[i] == x
  {
    if xs != [] {
      SelectContains(xs[1..], keep[1..], x);
      var rest := Select(xs[1..], keep[1..]);
      assert Select(xs, keep) == (if keep[0] then [xs[0]] else []) + rest;
      if x in rest {
        var i :| 0 <= i < |xs| - 1 && keep[1..][i] && xs[1..][i] == x;
        assert keep[i + 1] && xs[i + 1] == x;
      }
      if exists i :: 0 <= i < |xs| && keep[i] && xs[i] == x {
        var i :| 0 <= i < |xs| && keep[i] && xs[i] == x;
        if i > 0 {
          assert keep[1..][i - 1] && xs[1..][i - 1] == x;
        }
      }
    }
  }

  /** Over distinct elements, position `i` is selected exactly when it is flagged. */
  lemma SelectMember<T>(xs: seq<T>, keep: seq<bool>, i: int)
    requires |keep| == |xs| && Distinct(xs) && 0 <= i < |xs|
    ensures xs[i] in Select(xs, keep) <==> keep[i]
  {
    SelectContains(xs, keep, xs[i]);
  }

  lemma {:induction false} SelectDistinct<T>(xs: seq<T>, keep: seq<bool>)
    requires |keep| == |xs| && Distinct(xs)
    ensures Distinct(Select(xs, keep))
  {
    if xs != [] {
      assert Distinct(xs[1..]);
      SelectDistinct(xs[1..], keep[1..]);
      var rest := Select(xs[1..], keep[1..]);
      if keep[0] {
        SelectContains(xs[1..], keep[1..], xs[0]);
        assert xs[0] !in rest;
        var r := [xs[0]] + rest;
        assert Select(xs, keep) == r;
        forall i, j | 0 <= i < j < |r| ensures r[i] != r[j] {
          if i == 0 { assert r[j] == rest[j - 1]; }
          else { assert r[i] == rest[i - 1] && r[j] == rest[j - 1]; }
        }
      } else {
        assert Select(xs, keep) == rest;
      }
    }
  }

  /** Nothing is selected exactly when no flag is set. */
  lemma {:induction false} SelectEmpty<T>(xs: seq<T>, keep: seq<bool>)
    requires |keep| == |xs|
    ensures Select(xs, keep) == [] <==> forall i :: 0 <= i < |keep| ==> !keep[i]
  {
    if xs != [] {
      SelectEmpty(xs[1..], keep[1..]);
      if forall i :: 0 <= i < |keep| - 1 ==> !keep[1..][i] {
        if !keep[0] {
          forall i | 0 <= i < |keep| ensures !keep[i] {
            if i > 0 { assert !keep[1..][i - 1]; }
          }
        }
      } else {
        var i :| 0 <= i < |keep| - 1 && keep[1..][i];
        assert keep[i + 1];
      }
    }
  }

  /** A sequence without duplicates has as many distinct elements as positions. */
  lemma {:induction false} DistinctCardinality<T>(s: seq<T>)
    requires Distinct(s)
    ensures |set x | x in s| == |s|
  {
    if s != [] {
      assert Distinct(s[1..]);
      DistinctCardinality(s[1..]);
      var tail := set x | x in s[1..];
      assert s[0] !in tail;
      assert (set x | x in s) == {s[0]} + tail;
    }
  }
}
