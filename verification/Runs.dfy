/** Whole runs: realtime heads and backfilled blocks interleaved in any order, each step under
    the cursor lock and each with its own view of the chain. */
module Runs {
  import opened Types
  import opened Checkpoints
  import opened Jobs
  import opened ReorgDetection
  import opened ReorgRecovery
  import opened Domain
  import opened Orchestrator
  import opened RealtimeWorkers

  datatype Action =
    | Head(number: nat, view: View)        // the consume loop takes a head and gets the lock
    | Replayed(number: nat, view: View)    // backfill_default gets the lock for a block
    | LockRefused                          // either worker finds the lock taken
    | Requested(range: Range)              // a range asked for from outside

  /** `highest` remembers the greatest head `handle` has returned from under the lock. */
  datatype System = System(db: Db, gap: Option<nat>, highest: nat)

  const START := System(EMPTY_DB, None, 0)

  ghost function Step(s: System, cfg: Config, a: Action): System {
    match a
    case Head(number, view) =>
      var h := ConsumeHead(s.db, s.gap, cfg, view, number);
      System(h.db, h.gap, if h.error == None then Max(s.highest, number) else s.highest)
    case Replayed(number, view) =>
      (match Process(s.db, cfg, view, number, BACKFILL_DEFAULT, true)
       case Ok(db) => s.(db := db)
       case Thrown(_) => s.(db := LeftByThrow(s.db, cfg, view, number, BACKFILL_DEFAULT, true)))
    case LockRefused => s
    case Requested(range) => s.(db := s.db.(jobs := Enqueued(s.db.jobs, cfg, range)))
  }

  ghost function Run(s: System, cfg: Config, acts: seq<Action>): System {
    if acts == [] then s else Step(Run(s, cfg, acts[..|acts| - 1]), cfg, acts[|acts| - 1])
  }

  // ------------------------------------------------- what a step can do

  ghost predicate Accepts(before: Db, after: Db, w: Worker, b: Block) {
    && b.number != 0
    && after.blocks == StoreBlock(before.blocks, b)
    && after.checkpoints == Advance(before.checkpoints, w, b)
    && after.jobs == before.jobs
  }

  ghost predicate Recovers(before: Db, after: Db, w: Worker, current: nat, ancestor: nat, hash: Hash) {
    && Last(before.checkpoints, w).Some?
    && current == Last(before.checkpoints, w).value.block + 1
    && ancestor < current
    && after.blocks == Orphan(before.blocks, ancestor)
    && after.checkpoints == Rewind(before.checkpoints, w, ancestor, hash)
    && Range(ancestor + 1, current) in after.jobs
    && before.jobs.Keys <= after.jobs.Keys
  }

  /** A recovery is always found by comparing the cursor with its exact successor. */
  lemma ProcessAcceptsOrRecovers(db: Db, cfg: Config, view: View, number: nat, w: Worker, backfill: bool, after: Db)
    requires Process(db, cfg, view, number, w, backfill) == Ok(after)
    requires !backfill && Last(db.checkpoints, w).Some? ==> number == Last(db.checkpoints, w).value.block + 1
    ensures number != 0 && number in view
    ensures var d := Detect(db, cfg.maxReorgDepth, view, view[number], w, backfill);
            if d.Valid? then Accepts(db, after, w, view[number])
            else d.Reorg? && d.ancestor in view && Recovers(db, after, w, number, d.ancestor, view[d.ancestor].hash)
  {
    ProcessOutcome(db, cfg, view, number, w, backfill);
    hide Process, Ancestor;
  }

  // ----------------------------------------------------------- invariants

  ghost predicate OnRecord(db: Db, highest: nat) {
    forall n :: EffectiveBlock(db.checkpoints) < n <= highest ==> InSomeRange(db.jobs, n)
  }

  /** Every number above the effective cursor and up to the highest head is on record. */
  ghost predicate NothingLost(s: System) {
    OnRecord(s.db, s.highest) && (s.gap.Some? ==> s.gap.value <= s.highest)
  }

  /** No canonical row lies above the effective cursor. */
  ghost predicate NothingAbove(db: Db) {
    forall n: nat :: Live(db.blocks, n) ==> n <= EffectiveBlock(db.checkpoints)
  }

  lemma RangesGrow(before: map<Range, Job>, after: map<Range, Job>, n: nat)
    requires before.Keys <= after.Keys && InSomeRange(before, n)
    ensures InSomeRange(after, n)
  {
    var r :| r in before && r.start <= n <= r.end;
    assert r in after;
  }

  lemma AcceptKeeps(db: Db, after: Db, w: Worker, b: Block, highest: nat)
    requires w == Realtime || w == BACKFILL_DEFAULT
    requires Accepts(db, after, w, b) && NothingAbove(db) && OnRecord(db, highest)
    ensures NothingAbove(after) && OnRecord(after, Max(highest, b.number))
    ensures Max(EffectiveBlock(db.checkpoints), b.number) == EffectiveBlock(after.checkpoints)
  {
    forall n: nat | Live(after.blocks, n)
      ensures n <= EffectiveBlock(after.checkpoints)
    {
      assert n != b.number ==> Live(db.blocks, n);
    }
  }

  lemma RecoverKeeps(db: Db, after: Db, w: Worker, current: nat, ancestor: nat, hash: Hash, highest: nat)
    requires w == Realtime || w == BACKFILL_DEFAULT
    requires Recovers(db, after, w, current, ancestor, hash) && NothingAbove(db) && OnRecord(db, highest)
    ensures NothingAbove(after) && OnRecord(after, Max(highest, current))
  {
    var asked := Range(ancestor + 1, current);
    forall n | EffectiveBlock(after.checkpoints) < n <= Max(highest, current)
      ensures InSomeRange(after.jobs, n)
    {
      if n <= current {
        assert asked in after.jobs && asked.start <= n <= asked.end;
      } else {
        RangesGrow(db.jobs, after.jobs, n);
      }
    }
  }

  lemma MoreRangesKeep(db: Db, cfg: Config, range: Range, highest: nat)
    requires OnRecord(db, highest)
    ensures OnRecord(db.(jobs := Enqueued(db.jobs, cfg, range)), highest)
    ensures range.start <= Max(EffectiveBlock(db.checkpoints), highest) + 1 ==>
              OnRecord(db.(jobs := Enqueued(db.jobs, cfg, range)), Max(highest, range.end))
  {
    var after := Enqueued(db.jobs, cfg, range);
    forall n | EffectiveBlock(db.checkpoints) < n <= Max(highest, range.end)
      ensures n <= highest || range.start <= Max(EffectiveBlock(db.checkpoints), highest) + 1 ==> InSomeRange(after, n)
    {
      if n <= highest {
        RangesGrow(db.jobs, after, n);
      } else if range.start <= n {
        assert range in after && range.start <= n <= range.end;
      }
    }
  }

  lemma ThrownKeeps(db: Db, cfg: Config, view: View, number: nat, w: Worker, backfill: bool, highest: nat)
    requires NothingAbove(db) && OnRecord(db, highest)
    ensures var after := LeftByThrow(db, cfg, view, number, w, backfill);
            NothingAbove(after) && OnRecord(after, highest)
  {
    LeftFrame(db, cfg, view, number, w, backfill);
    hide LeftByThrow, InSomeRange;
  }

  lemma HandOffKeepsCursor(cps: map<Worker, Checkpoint>)
    ensures EffectiveBlock(HandedOff(cps)) == EffectiveBlock(cps)
    ensures Effective(cps).Some? ==>
              Last(HandedOff(cps), Realtime).Some? && HandedOff(cps)[Realtime].block == EffectiveBlock(cps)
    ensures Effective(cps).None? ==> HandedOff(cps) == cps && Last(cps, Realtime).None?
  {
  }

  lemma HandledKeeps(ready: Db, cfg: Config, number: nat, view: View, after: Db, highest: nat)
    requires NothingAbove(ready) && OnRecord(ready, highest)
    requires Last(ready.checkpoints, Realtime).Some? ==> number == Last(ready.checkpoints, Realtime).value.block + 1
    requires Process(ready, cfg, view, number, Realtime, false) == Ok(after)
    ensures NothingAbove(after) && OnRecord(after, Max(highest, number))
  {
    hide Process, Detect;
    ProcessAcceptsOrRecovers(ready, cfg, view, number, Realtime, false, after);
    var d := Detect(ready, cfg.maxReorgDepth, view, view[number], Realtime, false);
    if d.Valid? {
      AcceptKeeps(ready, after, Realtime, view[number], highest);
    } else {
      RecoverKeeps(ready, after, Realtime, number, d.ancestor, view[d.ancestor].hash, highest);
    }
  }

  lemma HeadKeeps(s: System, cfg: Config, number: nat, view: View)
    requires NothingLost(s) && NothingAbove(s.db)
    ensures var t := Step(s, cfg, Head(number, view)); NothingLost(t) && NothingAbove(t.db)
  {
    hide Process, LeftByThrow, HandedOff, Enqueued, InSomeRange;
    var cps := s.db.checkpoints;
    var marker := GapAt(s.gap, cps);
    match Decide(cps, marker, number)
    case Ignore =>
    case Delegate(range) =>
      MoreRangesKeep(s.db, cfg, range, s.highest);
    case Handle =>
      var ready := s.db.(checkpoints := HandedOff(cps));
      HandOffKeepsCursor(cps);
      match Process(ready, cfg, view, number, Realtime, false)
      case Ok(after) => HandledKeeps(ready, cfg, number, view, after, s.highest);
      case Thrown(_) =>
        var left := LeftByThrow(ready, cfg, view, number, Realtime, false);
        ThrownKeeps(ready, cfg, view, number, Realtime, false, s.highest);
        MoreRangesKeep(left, cfg, Range(number, number), s.highest);
  }

  lemma StepKeeps(s: System, cfg: Config, a: Action)
    requires NothingLost(s) && NothingAbove(s.db)
    ensures NothingLost(Step(s, cfg, a)) && NothingAbove(Step(s, cfg, a).db)
  {
    hide Process, LeftByThrow;
    match a
    case Head(number, view) => HeadKeeps(s, cfg, number, view);
    case Replayed(number, view) =>
      match Process(s.db, cfg, view, number, BACKFILL_DEFAULT, true) {
        case Ok(after) =>
          ProcessAcceptsOrRecovers(s.db, cfg, view, number, BACKFILL_DEFAULT, true, after);
          var d := Detect(s.db, cfg.maxReorgDepth, view, view[number], BACKFILL_DEFAULT, true);
          if d.Valid? {
            AcceptKeeps(s.db, after, BACKFILL_DEFAULT, view[number], s.highest);
          } else {
            RecoverKeeps(s.db, after, BACKFILL_DEFAULT, number, d.ancestor, view[d.ancestor].hash, s.highest);
          }
        case Thrown(_) => ThrownKeeps(s.db, cfg, view, number, BACKFILL_DEFAULT, true, s.highest);
      }
    case LockRefused =>
    case Requested(range) => MoreRangesKeep(s.db, cfg, range, s.highest);
  }

  /** In every interleaving no number above the effective cursor and up to the highest handled
      head is ever missing from the recorded ranges, and nothing canonical lies above the cursor. */
  lemma {:induction false} RunKeeps(cfg: Config, acts: seq<Action>)
    ensures NothingLost(Run(START, cfg, acts)) && NothingAbove(Run(START, cfg, acts).db)
  {
    if acts != [] {
      RunKeeps(cfg, acts[..|acts| - 1]);
      StepKeeps(Run(START, cfg, acts[..|acts| - 1]), cfg, acts[|acts| - 1]);
    }
  }

  /** A head that throws is put on record by itself. */
  lemma ThrownHeadOnRecord(s: System, cfg: Config, number: nat, view: View)
    requires HandleHead(s.db, s.gap, cfg, view, number).error.Some?
    ensures InSomeRange(Step(s, cfg, Head(number, view)).db.jobs, number)
  {
    hide HandleHead;
    var r := Range(number, number);
    assert r in Step(s, cfg, Head(number, view)).db.jobs && r.start <= number <= r.end;
  }

  /** After any run, whatever a completed recovery in the realtime worker orphans lies in the range
      that this recovery asks to have replayed. */
  lemma RealtimeReplayCoversOrphans(cfg: Config, acts: seq<Action>, number: nat, view: View, n: nat)
    requires var s := Run(START, cfg, acts);
             && HandleHead(s.db, s.gap, cfg, view, number).error == None
             && Live(s.db.blocks, n)
             && !Live(Step(s, cfg, Head(number, view)).db.blocks, n)
    ensures number in view
    ensures var s := Run(START, cfg, acts);
            var ready := s.db.(checkpoints := HandedOff(s.db.checkpoints));
            var d := Detect(ready, cfg.maxReorgDepth, view, view[number], Realtime, false);
            && d.Reorg? && d.ancestor < n <= number
            && Range(d.ancestor + 1, number) in Step(s, cfg, Head(number, view)).db.jobs
  {
    hide Process, Run, Detect, HandedOff, Enqueued, LeftByThrow;
    RunKeeps(cfg, acts);
    var s := Run(START, cfg, acts);
    var ready := s.db.(checkpoints := HandedOff(s.db.checkpoints));
    HandOffKeepsCursor(s.db.checkpoints);
    var after := Process(ready, cfg, view, number, Realtime, false).value;
    ProcessAcceptsOrRecovers(ready, cfg, view, number, Realtime, false, after);
  }

  // ----------------------------------------------------------- delegations

  /** The heads of a run, each with the cursors it met. */
  ghost function Sightings(cfg: Config, acts: seq<Action>): seq<Sighting> {
    if acts == [] then []
    else
      var earlier, a := acts[..|acts| - 1], acts[|acts| - 1];
      var before := Sightings(cfg, earlier);
      if a.Head? then before + [Sighting(Run(START, cfg, earlier).db.checkpoints, a.number)] else before
  }

  lemma ProcessKeepsRanges(db: Db, cfg: Config, view: View, number: nat, w: Worker, backfill: bool)
    requires Process(db, cfg, view, number, w, backfill).Ok?
    ensures db.jobs.Keys <= Process(db, cfg, view, number, w, backfill).value.jobs.Keys
  {
    ProcessOutcome(db, cfg, view, number, w, backfill);
    hide Process, Detect;
  }

  lemma EnqueuedGrows(jobs: map<Range, Job>, cfg: Config, r: Range)
    ensures Enqueued(jobs, cfg, r).Keys == jobs.Keys + {r}
  {
  }

  /** What a head handled under the lock does to the gap marker and the recorded ranges. */
  lemma HeadDelegates(db: Db, gap: Option<nat>, cfg: Config, number: nat, view: View)
    ensures var h := HandleHead(db, gap, cfg, view, number);
            && db.jobs.Keys <= h.db.jobs.Keys
            && match Decide(db.checkpoints, GapAt(gap, db.checkpoints), number)
               case Delegate(range) => h.gap == Some(number) && range in h.db.jobs
               case Ignore => h.gap == GapAt(gap, db.checkpoints)
               case Handle => h.gap == GapAt(gap, db.checkpoints)
  {
    hide Process, LeftByThrow, HandedOff, GapAt, Decide, Enqueued;
    match Decide(db.checkpoints, GapAt(gap, db.checkpoints), number)
    case Ignore =>
    case Delegate(range) => EnqueuedGrows(db.jobs, cfg, range);
    case Handle =>
      var ready := db.(checkpoints := HandedOff(db.checkpoints));
      match Process(ready, cfg, view, number, Realtime, false) {
        case Ok(_) => ProcessKeepsRanges(ready, cfg, view, number, Realtime, false);
        case Thrown(_) => LeftFrame(ready, cfg, view, number, Realtime, false);
      }
  }

  /** A head that throws adds its own range on top of that. */
  lemma ConsumedDelegates(s: System, cfg: Config, number: nat, view: View)
    ensures var h, after := HandleHead(s.db, s.gap, cfg, view, number), Step(s, cfg, Head(number, view));
            after.gap == h.gap && h.db.jobs.Keys <= after.db.jobs.Keys
  {
    hide HandleHead, Enqueued;
    EnqueuedGrows(HandleHead(s.db, s.gap, cfg, view, number).db.jobs, cfg, Range(number, number));
  }

  lemma StepKeepsRanges(s: System, cfg: Config, a: Action)
    requires !a.Head?
    ensures s.db.jobs.Keys <= Step(s, cfg, a).db.jobs.Keys && Step(s, cfg, a).gap == s.gap
  {
    hide Process, LeftByThrow;
    if a.Replayed? {
      if Process(s.db, cfg, a.view, a.number, BACKFILL_DEFAULT, true).Ok? {
        ProcessKeepsRanges(s.db, cfg, a.view, a.number, BACKFILL_DEFAULT, true);
      } else {
        LeftFrame(s.db, cfg, a.view, a.number, BACKFILL_DEFAULT, true);
      }
    }
  }

  /** The gap marker of a run is the one its heads leave, and every range delegated on the way is
      on record. */
  lemma {:induction false} RunDelegates(cfg: Config, acts: seq<Action>)
    ensures var d, s := DelegateAll(Sightings(cfg, acts)), Run(START, cfg, acts);
            s.gap == d.gap && forall r :: r in d.ranges ==> r in s.db.jobs
  {
    hide Step, Decide, GapAt, HandleHead;
    if acts != [] {
      var earlier, a := acts[..|acts| - 1], acts[|acts| - 1];
      var s, before := Run(START, cfg, earlier), Sightings(cfg, earlier);
      RunDelegates(cfg, earlier);
      if a.Head? {
        assert Sightings(cfg, acts)[..|before|] == before;
        HeadDelegates(s.db, s.gap, cfg, a.number, a.view);
        ConsumedDelegates(s, cfg, a.number, a.view);
      } else {
        StepKeepsRanges(s, cfg, a);
      }
    }
  }

  /** While the cursor a head meets stays below the marker, the ranges a run delegates are adjacent,
      without overlap or hole, end at the marker and are all on record. */
  lemma RunDelegationsTile(cfg: Config, acts: seq<Action>)
    requires StaysBelow(Sightings(cfg, acts))
    ensures var d, s := DelegateAll(Sightings(cfg, acts)), Run(START, cfg, acts);
            && (forall r :: r in d.ranges ==> r in s.db.jobs)
            && (d.ranges != [] ==> s.gap.Some? && Tiles(d.ranges, d.ranges[0].start, s.gap.value))
  {
    hide *;
    RunDelegates(cfg, acts);
    DelegatedRangesTile(Sightings(cfg, acts));
  }
}
