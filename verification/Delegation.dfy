/** Where the next delegated range starts, in terms of the heads and the cursors they met alone. */
module Delegation {
  import opened Types
  import opened RealtimeWorkers
  import opened Runs

  ghost function RangesOf(sightings: seq<Sighting>, n: nat): seq<Range>
    requires n <= |sightings|
  {
    DelegateAll(sightings[..n]).ranges
  }

  /** Sighting `d` delegates a range, and none after it up to but excluding `j` does. */
  ghost predicate LastDelegation(sightings: seq<Sighting>, d: nat, j: nat)
    requires d < j <= |sightings|
  {
    && |RangesOf(sightings, d + 1)| > |RangesOf(sightings, d)|
    && RangesOf(sightings, j) == RangesOf(sightings, d + 1)
  }

  /** Some head after `d` and up to but excluding `j` met a cursor that had reached head `d`. */
  ghost predicate Reached(sightings: seq<Sighting>, d: nat, j: nat)
    requires d < j <= |sightings|
  {
    exists i :: d < i < j && EffectiveBlock(sightings[i].cps) >= sightings[d].head
  }

  lemma OneMore(sightings: seq<Sighting>, n: nat)
    requires n < |sightings|
    ensures sightings[..n + 1][..n] == sightings[..n] && sightings[..n + 1][n] == sightings[n]
    ensures |RangesOf(sightings, n)| <= |RangesOf(sightings, n + 1)| <= |RangesOf(sightings, n)| + 1
  {
    hide Decide, GapAt;
  }

  /** A sighting that delegates leaves its own head as the marker, and that head lies beyond block 1. */
  lemma DelegationMarks(sightings: seq<Sighting>, d: nat)
    requires d < |sightings| && |RangesOf(sightings, d + 1)| > |RangesOf(sightings, d)|
    ensures DelegateAll(sightings[..d + 1]).gap == Some(sightings[d].head) && sightings[d].head > 1
  {
    OneMore(sightings, d);
  }

  lemma {:induction false} PrefixRanges(sightings: seq<Sighting>, m: nat, n: nat)
    requires m <= n <= |sightings|
    ensures RangesOf(sightings, m) <= RangesOf(sightings, n)
    decreases n
  {
    hide Decide, GapAt;
    if m < n {
      PrefixRanges(sightings, m, n - 1);
      OneMore(sightings, n - 1);
    }
  }

  lemma SameBetween(sightings: seq<Sighting>, d: nat, j: nat)
    requires d + 1 < j <= |sightings| && LastDelegation(sightings, d, j)
    ensures LastDelegation(sightings, d, j - 1)
  {
    PrefixRanges(sightings, d + 1, j - 1);
    PrefixRanges(sightings, j - 1, j);
  }

  /** A sighting that delegates nothing drops the marker if its cursor has reached it. */
  lemma Undelegated(sightings: seq<Sighting>, n: nat)
    requires n < |sightings| && RangesOf(sightings, n + 1) == RangesOf(sightings, n)
    ensures var gap, at := DelegateAll(sightings[..n]).gap, EffectiveBlock(sightings[n].cps);
            gap.Some? && gap.value > 0 ==>
              DelegateAll(sightings[..n + 1]).gap == if at >= gap.value then None else gap
    ensures DelegateAll(sightings[..n]).gap == None ==> DelegateAll(sightings[..n + 1]).gap == None
  {
    OneMore(sightings, n);
    hide Decide;
  }

  lemma ReachedByOneMore(sightings: seq<Sighting>, d: nat, j: nat)
    requires d < j < |sightings|
    ensures Reached(sightings, d, j + 1)
            <==> Reached(sightings, d, j) || EffectiveBlock(sightings[j].cps) >= sightings[d].head
  {
    hide EffectiveBlock;
  }

  lemma LastIsQuiet(sightings: seq<Sighting>, d: nat, j: nat)
    requires d + 1 < j <= |sightings| && LastDelegation(sightings, d, j) && LastDelegation(sightings, d, j - 1)
    ensures RangesOf(sightings, j) == RangesOf(sightings, j - 1)
  {
    hide DelegateAll;
  }

  /** What the marker is as long as nothing more is delegated. */
  lemma {:induction false} MarkerUntil(sightings: seq<Sighting>, d: nat, j: nat)
    requires d < j <= |sightings| && LastDelegation(sightings, d, j)
    ensures DelegateAll(sightings[..j]).gap
         == if Reached(sightings, d, j) then None else Some(sightings[d].head)
    decreases j
  {
    if j == d + 1 {
      DelegationMarks(sightings, d);
    } else {
      SameBetween(sightings, d, j);
      LastIsQuiet(sightings, d, j);
      hide RangesOf, LastDelegation, Reached, EffectiveBlock;
      MarkerUntil(sightings, d, j - 1);
      Undelegated(sightings, j - 1);
      ReachedByOneMore(sightings, d, j - 1);
      HeadBeyondOne(sightings, d, j);
    }
  }

  lemma HeadBeyondOne(sightings: seq<Sighting>, d: nat, j: nat)
    requires d < j <= |sightings| && LastDelegation(sightings, d, j)
    ensures sightings[d].head > 1
  {
    DelegationMarks(sightings, d);
  }

  /** What a head delegates when nothing was delegated before: all above the cursor it meets, if it does
      not follow that cursor directly. */
  lemma FirstDelegation(sightings: seq<Sighting>, j: nat)
    requires j < |sightings| && RangesOf(sightings, j) == []
    ensures var now, at := sightings[j], EffectiveBlock(sightings[j].cps);
            RangesOf(sightings, j + 1)
            == if Effective(now.cps).Some? && now.head > at + 1 then [Range(at + 1, now.head)] else []
  {
    OneMore(sightings, j);
    NoRangeNoMarker(sightings[..j]);
  }

  /** What a head delegates after head `d` did: all above head `d`, unless a head since, this one
      included, met a cursor that had reached head `d`. Then it is all above the cursor it meets itself,
      even if that has been rewound in between. */
  lemma NextDelegation(sightings: seq<Sighting>, d: nat, j: nat)
    requires d < j < |sightings| && LastDelegation(sightings, d, j)
    ensures var now, at := sightings[j], EffectiveBlock(sightings[j].cps);
            var start := if Reached(sightings, d, j + 1) then at + 1 else sightings[d].head + 1;
            RangesOf(sightings, j + 1)
            == RangesOf(sightings, j)
               + if Effective(now.cps).Some? && now.head > at + 1 && start <= now.head
                 then [Range(start, now.head)] else []
  {
    OneMore(sightings, j);
    DelegationMarks(sightings, d);
    MarkerUntil(sightings, d, j);
    ReachedByOneMore(sightings, d, j);
    hide LastDelegation, Reached;
  }

  /** In a run such a range is on record from then on. */
  lemma RunNextDelegation(cfg: Config, acts: seq<Action>, d: nat, j: nat)
    requires var sightings := Sightings(cfg, acts);
             && d < j < |sightings| && LastDelegation(sightings, d, j)
             && Effective(sightings[j].cps).Some? && sightings[j].head > EffectiveBlock(sightings[j].cps) + 1
    ensures var sightings := Sightings(cfg, acts);
            var at := EffectiveBlock(sightings[j].cps);
            var start := if Reached(sightings, d, j + 1) then at + 1 else sightings[d].head + 1;
            start <= sightings[j].head ==> Range(start, sightings[j].head) in Run(START, cfg, acts).db.jobs
  {
    hide Run, Sightings, LastDelegation, Reached, DelegateAll, Effective, EffectiveBlock;
    var sightings := Sightings(cfg, acts);
    RunDelegates(cfg, acts);
    NextDelegation(sightings, d, j);
    PrefixRanges(sightings, j + 1, |sightings|);
    assert sightings[..|sightings|] == sightings;
    var at := EffectiveBlock(sightings[j].cps);
    var start := if Reached(sightings, d, j + 1) then at + 1 else sightings[d].head + 1;
    if start <= sightings[j].head {
      var before, after := RangesOf(sightings, j), RangesOf(sightings, j + 1);
      assert after[|before|] == Range(start, sightings[j].head);
      assert DelegateAll(sightings).ranges[|before|] == after[|before|];
    }
  }
}
