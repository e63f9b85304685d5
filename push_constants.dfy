/**
  The kinds of implicit per-dispatch values ("push constants") that the
  DeclarePushConstants pass may declare, and the fixed order in which it
  considers them.
 */
module PushConstants {

  /** The six kinds the pass considers. The integer code of each kind is the
      value of the source's enumeration, which is not part of this model; it
      is a parameter wherever it is needed. */
  datatype PushConstant =
    | GlobalOffset
    | EnqueuedLocalSize
    | GlobalSize
    | RegionOffset
    | NumWorkgroups
    | RegionGroupOffset

  /** The order in which the pass tests the kinds, and so the order of the
      fields it lays out. */
  const CanonicalOrder: seq<PushConstant> :=
    [GlobalOffset, EnqueuedLocalSize, GlobalSize, RegionOffset, NumWorkgroups, RegionGroupOffset]

  /** Position of a kind in CanonicalOrder. */
  function Rank(k: PushConstant): (r: nat)
    ensures r < |CanonicalOrder| && CanonicalOrder[r] == k
  {
    match k
    case GlobalOffset => 0
    case EnqueuedLocalSize => 1
    case GlobalSize => 2
    case RegionOffset => 3
    case NumWorkgroups => 4
    case RegionGroupOffset => 5
  }

  /** Every two entries of `s` are in canonical order, strictly. */
  ghost predicate StrictlyRanked(s: seq<PushConstant>) {
    forall i, j :: 0 <= i < j < |s| ==> Rank(s[i]) < Rank(s[j])
  }

  ghost predicate NoDuplicates(s: seq<PushConstant>) {
    forall i, j :: 0 <= i < j < |s| ==> s[i] != s[j]
  }

  /** `s` can be obtained from `t` by deleting entries. */
  ghost predicate IsSubsequence(s: seq<PushConstant>, t: seq<PushConstant>)
    decreases |t|
  {
    if t == [] then s == []
    else (s != [] && s[0] == t[0] && IsSubsequence(s[1..], t[1..])) || IsSubsequence(s, t[1..])
  }

  lemma CanonicalOrderIsStrictlyRanked()
    ensures StrictlyRanked(CanonicalOrder)
  {
    forall i, j | 0 <= i < j < |CanonicalOrder|
      ensures Rank(CanonicalOrder[i]) < Rank(CanonicalOrder[j])
    {
      assert Rank(CanonicalOrder[i]) == i && Rank(CanonicalOrder[j]) == j;
    }
  }

  /** Canonical order forbids repeating a kind. */
  lemma StrictlyRankedHasNoDuplicates(s: seq<PushConstant>)
    requires StrictlyRanked(s)
    ensures NoDuplicates(s)
  {
  }

  /** Two sequences in canonical order that hold the same kinds are equal:
      the set of selected kinds determines the layout. */
  lemma {:induction false} StrictlyRankedDeterminedByElements(s: seq<PushConstant>, t: seq<PushConstant>)
    requires StrictlyRanked(s) && StrictlyRanked(t)
    requires forall k :: k in s <==> k in t
    ensures s == t
  {
    if t != [] {
      assert t[0] in t;
    }
    if s != [] {
      assert s[0] in t;
      assert t != [];
      assert t[0] in s;
      var i :| 0 <= i < |s| && s[i] == t[0];
      var j :| 0 <= j < |t| && t[j] == s[0];
      assert Rank(s[0]) <= Rank(s[i]) == Rank(t[0]) <= Rank(t[j]) == Rank(s[0]);
      assert s[0] == t[0];
      forall k
        ensures k in s[1..] <==> k in t[1..]
      {
        InTailOfStrictlyRanked(s, k);
        InTailOfStrictlyRanked(t, k);
      }
      StrictlyRankedDeterminedByElements(s[1..], t[1..]);
    }
  }

  lemma InTailOfStrictlyRanked(s: seq<PushConstant>, k: PushConstant)
    requires StrictlyRanked(s) && s != []
    ensures k in s[1..] <==> k in s && k != s[0]
  {
    if k in s[1..] {
      var i :| 0 <= i < |s[1..]| && s[1..][i] == k;
      assert s[i + 1] == k;
    }
    if k in s && k != s[0] {
      var i :| 0 <= i < |s| && s[i] == k;
      assert i > 0 && s[1..][i - 1] == k;
    }
  }

}
