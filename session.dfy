/**
 * The network held in the session (`st.session_state`) and the callbacks
 * that edit it: series segments before and after the parallel group, and
 * the insertion-ordered dictionary of parallel branches.
 */
module Session {
  import opened Network

  /** The decimal digit for `d`. */
  function Digit(d: nat): (c: char)
    requires d < 10
    ensures '0' <= c <= '9'
  {
    "0123456789"[d]
  }

  /** `str(n)`: decimal notation without leading zeros. */
  function NatToString(n: nat): (s: string)
    ensures |s| >= 1
    ensures n >= 10 ==> |s| >= 2
    decreases n
  {
    if n < 10 then [Digit(n)] else NatToString(n / 10) + [Digit(n % 10)]
  }

  /** Distinct numbers are written differently. */
  lemma {:induction false} NatToStringInjective(a: nat, b: nat)
    requires NatToString(a) == NatToString(b)
    ensures a == b
    decreases a
  {
    var s := NatToString(a);
    if a >= 10 && b >= 10 {
      assert s[..|s| - 1] == NatToString(a / 10);
      assert NatToString(b)[..|s| - 1] == NatToString(b / 10);
      NatToStringInjective(a / 10, b / 10);
      assert Digit(a % 10) == s[|s| - 1] == Digit(b % 10);
      assert "0123456789"[a % 10] == "0123456789"[b % 10];
    } else if a < 10 && b < 10 {
      assert "0123456789"[a] == "0123456789"[b];
    }
  }

  /** The key `f"Ramal {n}"` of the n-th parallel branch: "Ramal " followed by at least one digit. */
  function BranchName(n: nat): (s: string)
    ensures |s| > 6 && s[..6] == "Ramal "
  {
    "Ramal " + NatToString(n)
  }

  lemma BranchNameInjective(a: nat, b: nat)
    requires BranchName(a) == BranchName(b)
    ensures a == b
  {
    assert NatToString(a) == BranchName(a)[6..];
    assert NatToString(b) == BranchName(b)[6..];
    NatToStringInjective(a, b);
  }

  /** The branches are "Ramal 1", "Ramal 2", ... in order, and there is at least one. */
  predicate CanonicalBranches(t: BranchTable) {
    && |t| >= 1
    && forall i :: 0 <= i < |t| ==> t[i].name == BranchName(i + 1)
  }

  /** Canonical keys are pairwise distinct, as the keys of a dictionary must be. */
  lemma CanonicalBranchesAreDistinct(t: BranchTable)
    requires CanonicalBranches(t)
    ensures DistinctNames(t)
  {
    forall i, j | 0 <= i < j < |t|
      ensures t[i].name != t[j].name
    {
      if t[i].name == t[j].name {
        BranchNameInjective(i + 1, j + 1);
      }
    }
  }

  /** The name the add-branch callback picks for a canonical table is not taken yet. */
  lemma NextBranchNameIsFresh(t: BranchTable)
    requires CanonicalBranches(t)
    ensures BranchName(|t| + 1) !in Names(t)
  {
    if BranchName(|t| + 1) in Names(t) {
      var i :| 0 <= i < |t| && Names(t)[i] == BranchName(|t| + 1);
      BranchNameInjective(i + 1, |t| + 1);
      assert false;
    }
  }

  /** The segment `adicionar_item` appends: 10 m of 100 mm pipe, roughness 0.15 mm. */
  function NewSeriesSegment(id: real): Segment {
    Segment(id, 10.0, 100.0, 0.15, [])
  }

  /** The segment a new branch starts with: 50 m of 80 mm pipe, roughness 0.15 mm. */
  function NewBranchSegment(id: real): Segment {
    Segment(id, 50.0, 80.0, 0.15, [])
  }

  /** Which series list a callback edits: "trechos_antes" or "trechos_depois". */
  datatype SeriesList = Before | After

  class NetworkSession {
    var before: seq<Segment>
    var after: seq<Segment>
    var parallel: BranchTable

    predicate Valid()
      reads this
    {
      CanonicalBranches(parallel)
    }

    /** The initial session: no series segments, two identical branches with the segment ids given. */
    constructor(firstId: real, secondId: real)
      ensures Valid()
      ensures before == [] && after == []
      ensures parallel == [Branch("Ramal 1", [NewBranchSegment(firstId)]), Branch("Ramal 2", [NewBranchSegment(secondId)])]
    {
      before := [];
      after := [];
      parallel := [Branch("Ramal 1", [NewBranchSegment(firstId)]), Branch("Ramal 2", [NewBranchSegment(secondId)])];
      assert BranchName(1) == "Ramal 1" && BranchName(2) == "Ramal 2";
    }

    /** `adicionar_item`: appends a default segment to the chosen list. */
    method AddItem(which: SeriesList, id: real)
      requires Valid()
      modifies this
      ensures Valid()
      ensures which == Before ==> before == old(before) + [NewSeriesSegment(id)] && after == old(after)
      ensures which == After ==> after == old(after) + [NewSeriesSegment(id)] && before == old(before)
      ensures parallel == old(parallel)
    {
      if which == Before {
        before := before + [NewSeriesSegment(id)];
      } else {
        after := after + [NewSeriesSegment(id)];
      }
    }

    /** `remover_ultimo_item`: drops the last segment of the chosen list, if it has one. */
    method RemoveLastItem(which: SeriesList)
      requires Valid()
      modifies this
      ensures Valid()
      ensures which == Before && |old(before)| > 0 ==> before + [old(before)[|old(before)| - 1]] == old(before)
      ensures which == Before && |old(before)| == 0 ==> before == []
      ensures which == After && |old(after)| > 0 ==> after + [old(after)[|old(after)| - 1]] == old(after)
      ensures which == After && |old(after)| == 0 ==> after == []
      ensures which == Before ==> after == old(after)
      ensures which == After ==> before == old(before)
      ensures parallel == old(parallel)
    {
      if which == Before {
        if |before| > 0 {
          before := before[..|before| - 1];
        }
      } else {
        if |after| > 0 {
          after := after[..|after| - 1];
        }
      }
    }

    /**
     * `adicionar_ramal_paralelo`: assigns a one-segment branch to the key
     * "Ramal n+1". Since the keys are canonical that key is new, so the
     * assignment appends and nothing is overwritten.
     */
    method AddParallelBranch(id: real)
      requires Valid()
      modifies this
      ensures Valid()
      ensures parallel == Assign(old(parallel), BranchName(|old(parallel)| + 1), [NewBranchSegment(id)])
      ensures parallel == old(parallel) + [Branch(BranchName(|old(parallel)| + 1), [NewBranchSegment(id)])]
      ensures before == old(before) && after == old(after)
    {
      NextBranchNameIsFresh(parallel);
      parallel := Assign(parallel, BranchName(|parallel| + 1), [NewBranchSegment(id)]);
    }

    /** `remover_ultimo_ramal`: drops the newest branch, but never the only one. */
    method RemoveLastBranch()
      requires Valid()
      modifies this
      ensures Valid()
      ensures |old(parallel)| > 1 ==> parallel == PopItem(old(parallel))
      ensures |old(parallel)| <= 1 ==> parallel == old(parallel)
      ensures before == old(before) && after == old(after)
    {
      if |parallel| > 1 {
        parallel := PopItem(parallel);
      }
    }
  }

  /** Removing the newest branch keeps the remaining keys canonical and at least one of them. */
  lemma PopKeepsCanonical(t: BranchTable)
    requires CanonicalBranches(t) && |t| > 1
    ensures CanonicalBranches(PopItem(t))
    ensures |PopItem(t)| == |t| - 1
  {
    var r := PopItem(t);
    assert forall i :: 0 <= i < |r| ==> r[i] == (r + [t[|t| - 1]])[i];
  }

  /** Adding a branch to a canonical table keeps it canonical and makes it one longer. */
  lemma AddKeepsCanonical(t: BranchTable, path: seq<Segment>)
    requires CanonicalBranches(t)
    ensures CanonicalBranches(Assign(t, BranchName(|t| + 1), path))
    ensures |Assign(t, BranchName(|t| + 1), path)| == |t| + 1
  {
    NextBranchNameIsFresh(t);
  }
}
