/**
  The tier-transition tracker: remembers the last observed tier and reports a
  change only when a new observation differs from it, so a stable tier does
  not trigger the wallpaper action again on every tick.
 */
module Tracker {
  import opened Wrappers
  import opened Classifier

  /** The tracker's single piece of state: the last observed tier, absent
      before the first observation. */
  class LevelTracker {
    var lastLevel: Option<Tier>

    /** Monitoring starts with no tier observed. */
    constructor ()
      ensures lastLevel == None
    {
      lastLevel := None;
    }

    /** Records one classified tier; `changed` reports whether it differs from
        the previous one (always so on the first call). Afterwards the tracker
        holds the observed tier. */
    method Observe(level: Tier) returns (changed: bool)
      modifies this
      ensures changed <==> old(lastLevel) != Some(level)
      ensures lastLevel == Some(level)
    {
      changed := lastLevel != Some(level);
      if changed {
        lastLevel := Some(level);
      }
    }
  }

  /** Position i of a tier sequence is a transition when it is the first
      position or its tier differs from the one before it. */
  predicate IsChangeAt(tiers: seq<Tier>, i: nat)
    requires i < |tiers|
  {
    i == 0 || tiers[i] != tiers[i - 1]
  }

  /** The positions of a tier sequence at which a transition occurs, built
      position by position, as the loop meets them. */
  function ChangePoints(tiers: seq<Tier>): seq<nat> {
    if |tiers| == 0 then []
    else
      var n := |tiers| - 1;
      ChangePoints(tiers[..n]) + (if IsChangeAt(tiers, n) then [n] else [])
  }

  /** The transitions of a tier sequence are exactly its change positions, in
      strictly increasing order, so their number is the number of positions
      whose tier differs from the previous one, the first position always
      counting. */
  lemma {:induction false} ChangePointsSpec(tiers: seq<Tier>)
    ensures forall i: nat :: i in ChangePoints(tiers) <==> i < |tiers| && IsChangeAt(tiers, i)
    ensures forall k :: 0 <= k < |ChangePoints(tiers)| - 1 ==> ChangePoints(tiers)[k] < ChangePoints(tiers)[k + 1]
    ensures |ChangePoints(tiers)| <= |tiers|
    ensures |tiers| > 0 ==> |ChangePoints(tiers)| > 0 && ChangePoints(tiers)[0] == 0
  {
    if |tiers| > 0 {
      var n := |tiers| - 1;
      var prefix := tiers[..n];
      ChangePointsSpec(prefix);
      assert forall i :: 0 <= i < n ==> prefix[i] == tiers[i];
      var earlier := ChangePoints(prefix);
      assert |earlier| > 0 ==> earlier[|earlier| - 1] in earlier;
    }
  }

  /** Observing one more tier adds its position to the transitions exactly
      when it is the first tier or differs from the last one. */
  lemma ChangePointsSnoc(tiers: seq<Tier>, level: Tier)
    ensures ChangePoints(tiers + [level])
         == ChangePoints(tiers) + (if tiers == [] || tiers[|tiers| - 1] != level then [|tiers|] else [])
  {
    var extended := tiers + [level];
    assert extended[..|tiers|] == tiers;
  }

  /** Feeding the same tier n > 0 times reports exactly one transition, at
      the first position. */
  lemma {:induction false} SteadyLevelChangesOnce(level: Tier, n: nat)
    requires n > 0
    ensures ChangePoints(seq(n, _ => level)) == [0]
  {
    var tiers := seq(n, _ => level);
    if n > 1 {
      SteadyLevelChangesOnce(level, n - 1);
      assert tiers[..n - 1] == seq(n - 1, _ => level);
      assert !IsChangeAt(tiers, n - 1);
    }
  }
}
