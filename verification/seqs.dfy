/** A filter followed by a map over a sequence: the shape shared by the
    null-row drop of asset ingestion and the ticker filter of the symbol
    loader. Defined once here, with the facts both callers rely on. */
module Seqs {

  /** Keeps the elements `keep` accepts, in order, and applies `f` to each. */
  function FilterMap<A, B>(s: seq<A>, keep: A -> bool, f: A -> B): (r: seq<B>)
    ensures |r| <= |s|
    ensures |r| == |s| - Dropped(s, keep)
  {
    if |s| == 0 then []
    else (if keep(s[0]) then [f(s[0])] else []) + FilterMap(s[1..], keep, f)
  }

  /** Number of elements of `s` that `keep` rejects. */
  function Dropped<A>(s: seq<A>, keep: A -> bool): nat
  {
    if |s| == 0 then 0
    else (if keep(s[0]) then 0 else 1) + Dropped(s[1..], keep)
  }

  /** Filtering distributes over concatenation: relative order is kept. */
  lemma {:induction false} FilterMapAppend<A, B>(a: seq<A>, b: seq<A>, keep: A -> bool, f: A -> B)
    ensures FilterMap(a + b, keep, f) == FilterMap(a, keep, f) + FilterMap(b, keep, f)
  {
    if |a| == 0 {
      assert a + b == b;
    } else {
      assert (a + b)[1..] == a[1..] + b;
      FilterMapAppend(a[1..], b, keep, f);
    }
  }

  /** An element is in the output exactly when it is the image of an
      accepted input element. */
  lemma {:induction false} FilterMapMembership<A, B>(s: seq<A>, keep: A -> bool, f: A -> B, y: B)
    ensures y in FilterMap(s, keep, f) <==> exists i :: 0 <= i < |s| && keep(s[i]) && f(s[i]) == y
  {
    if |s| > 0 {
      FilterMapMembership(s[1..], keep, f, y);
      if exists i :: 0 <= i < |s| && keep(s[i]) && f(s[i]) == y {
        var i :| 0 <= i < |s| && keep(s[i]) && f(s[i]) == y;
        if i > 0 {
          assert s[1..][i - 1] == s[i];
        }
      }
      if exists j :: 0 <= j < |s[1..]| && keep(s[1..][j]) && f(s[1..][j]) == y {
        var j :| 0 <= j < |s[1..]| && keep(s[1..][j]) && f(s[1..][j]) == y;
        assert s[j + 1] == s[1..][j];
      }
    }
  }

  /** When nothing is rejected, the output is the pointwise image. */
  lemma {:induction false} FilterMapAllKept<A, B>(s: seq<A>, keep: A -> bool, f: A -> B)
    requires forall i :: 0 <= i < |s| ==> keep(s[i])
    ensures Dropped(s, keep) == 0
    ensures |FilterMap(s, keep, f)| == |s|
    ensures forall i :: 0 <= i < |s| ==> FilterMap(s, keep, f)[i] == f(s[i])
  {
    if |s| > 0 {
      assert keep(s[0]);
      assert forall i :: 0 <= i < |s[1..]| ==> keep(s[1..][i]) by {
        forall i | 0 <= i < |s[1..]| ensures keep(s[1..][i]) {
          assert s[1..][i] == s[i + 1];
        }
      }
      FilterMapAllKept(s[1..], keep, f);
    }
  }

  /** Nothing is rejected exactly when every element is accepted. */
  lemma {:induction false} DroppedZeroIff<A>(s: seq<A>, keep: A -> bool)
    ensures Dropped(s, keep) == 0 <==> forall i :: 0 <= i < |s| ==> keep(s[i])
  {
    if |s| > 0 {
      DroppedZeroIff(s[1..], keep);
      if forall i :: 0 <= i < |s[1..]| ==> keep(s[1..][i]) {
        forall i | 0 <= i < |s| ensures keep(s[0]) ==> keep(s[i]) {
          if i > 0 { assert s[i] == s[1..][i - 1]; }
        }
      } else {
        var j :| 0 <= j < |s[1..]| && !keep(s[1..][j]);
        assert s[j + 1] == s[1..][j];
      }
    }
  }
}
