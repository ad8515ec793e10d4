/** The worker that follows new heads: it ignores, delegates a gap, or hands off and processes. */
module RealtimeWorkers {
  import opened Types
  import opened Stores
  import opened Candidates
  import opened Checkpoints
  import opened Jobs
  import opened Orchestrator

  // ------------------------------------------------------------- decision

  datatype Cursor = Cursor(worker: Worker, checkpoint: Checkpoint)

  /** The higher of the two canonical cursors, the realtime one when they are level. */
  function Effective(cps: map<Worker, Checkpoint>): Option<Cursor> {
    var r, b := Last(cps, Realtime), Last(cps, BACKFILL_DEFAULT);
    if r.Some? && (b.None? || b.value.block <= r.value.block) then Some(Cursor(Realtime, r.value))
    else if b.Some? then Some(Cursor(BACKFILL_DEFAULT, b.value))
    else None
  }

  function EffectiveBlock(cps: map<Worker, Checkpoint>): nat {
    match Effective(cps)
    case Some(c) => c.checkpoint.block
    case None => 0
  }

  /** The gap marker is dropped once the cursor has caught up with it. */
  function GapAt(gap: Option<nat>, cps: map<Worker, Checkpoint>): Option<nat> {
    if gap.Some? && Effective(cps).Some? && EffectiveBlock(cps) >= gap.value then None else gap
  }

  datatype Decision = Ignore | Delegate(range: Range) | Handle

  function Decide(cps: map<Worker, Checkpoint>, gap: Option<nat>, number: nat): Decision {
    if Effective(cps).None? then Handle
    else
      var at := EffectiveBlock(cps);
      if number <= at then Ignore
      else if number > at + 1 then
        var start := if gap.Some? && gap.value >= at + 1 then gap.value + 1 else at + 1;
        if start > number then Ignore else Delegate(Range(start, number))
      else Handle
  }

  function SyncRealtime(cps: map<Worker, Checkpoint>, c: Checkpoint): map<Worker, Checkpoint> {
    if Realtime in cps && cps[Realtime].block > c.block then cps
    else cps[Realtime := Checkpoint(c.block, c.hash, Running)]
  }

  function HandedOff(cps: map<Worker, Checkpoint>): map<Worker, Checkpoint> {
    match Effective(cps)
    case Some(c) => if c.worker != Realtime then SyncRealtime(cps, c.checkpoint) else cps
    case None => cps
  }

  // ----------------------------------------------------------------- step

  datatype Handled = Handled(db: Db, gap: Option<nat>, error: Option<Error>)

  /** One head handled under the cursor lock. */
  ghost function HandleHead(db: Db, gap: Option<nat>, cfg: Config, view: View, number: nat): Handled {
    var marker := GapAt(gap, db.checkpoints);
    match Decide(db.checkpoints, marker, number)
    case Ignore => Handled(db, marker, None)
    case Delegate(range) => Handled(db.(jobs := Enqueued(db.jobs, cfg, range)), Some(number), None)
    case Handle =>
      var ready := db.(checkpoints := HandedOff(db.checkpoints));
      match Process(ready, cfg, view, number, Realtime, false)
      case Ok(after) => Handled(after, marker, None)
      case Thrown(e) => Handled(LeftByThrow(ready, cfg, view, number, Realtime, false), marker, Some(e))
  }

  /** One turn of the consume loop that got the lock: a head that throws is left to backfill. */
  ghost function ConsumeHead(db: Db, gap: Option<nat>, cfg: Config, view: View, number: nat): Handled {
    var h := HandleHead(db, gap, cfg, view, number);
    if h.error.Some? then h.(db := h.db.(jobs := Enqueued(h.db.jobs, cfg, Range(number, number)))) else h
  }

  class RealtimeWorker {
    const store: Store
    const registry: Registry
    const lock: CursorLock
    const cfg: Config
    var queue: seq<nat>
    var delegatedGapEnd: Option<nat>
    var processing: bool

    constructor (store: Store, registry: Registry, lock: CursorLock, cfg: Config)
      ensures this.store == store && this.registry == registry && this.lock == lock && this.cfg == cfg
      ensures queue == [] && delegatedGapEnd == None && !processing
    {
      this.store, this.registry, this.lock, this.cfg := store, registry, lock, cfg;
      queue, delegatedGapEnd, processing := [], None, false;
    }

    method GetEffectiveCheckpoint() returns (cursor: Option<Cursor>)
      ensures cursor == Effective(store.checkpoints)
    {
      cursor := None;
      if Realtime in store.checkpoints && store.checkpoints[Realtime].block > 0 {
        cursor := Some(Cursor(Realtime, store.checkpoints[Realtime]));
      }
      if BACKFILL_DEFAULT in store.checkpoints && store.checkpoints[BACKFILL_DEFAULT].block > 0 {
        var row := store.checkpoints[BACKFILL_DEFAULT];
        if cursor.None? || row.block > cursor.value.checkpoint.block {
          cursor := Some(Cursor(BACKFILL_DEFAULT, row));
        }
      }
    }

    method SyncRealtimeCheckpoint(c: Checkpoint)
      modifies store`checkpoints
      ensures store.checkpoints == SyncRealtime(old(store.checkpoints), c)
    {
      if Realtime !in store.checkpoints || store.checkpoints[Realtime].block <= c.block {
        store.checkpoints := store.checkpoints[Realtime := Checkpoint(c.block, c.hash, Running)];
      }
    }

    /** Everything before the pipeline: the marker, the gap and the hand-off. */
    method Triage(number: nat) returns (run: bool)
      modifies this`delegatedGapEnd, store`jobs, store`checkpoints
      ensures var cps := old(store.checkpoints);
              var marker := GapAt(old(delegatedGapEnd), cps);
              match Decide(cps, marker, number)
              case Ignore => !run && delegatedGapEnd == marker && store.Db() == old(store.Db())
              case Delegate(range) =>
                && !run && delegatedGapEnd == Some(number)
                && store.Db() == old(store.Db()).(jobs := Enqueued(old(store.jobs), cfg, range))
              case Handle =>
                && run && delegatedGapEnd == marker
                && store.Db() == old(store.Db()).(checkpoints := HandedOff(cps))
      ensures Effective(old(store.checkpoints)).Some? && delegatedGapEnd.Some? ==>
                delegatedGapEnd.value > EffectiveBlock(old(store.checkpoints))
    {
      var cursor := GetEffectiveCheckpoint();
      if cursor.Some? {
        var at := cursor.value.checkpoint.block;
        if delegatedGapEnd.Some? && at >= delegatedGapEnd.value {
          delegatedGapEnd := None;
        }
        if number <= at {
          return false;
        }
        if number > at + 1 {
          var delegated := delegatedGapEnd.Some? && delegatedGapEnd.value >= at + 1;
          var start := if delegated then delegatedGapEnd.value + 1 else at + 1;
          if start > number {
            return false;
          }
          var queued := EnqueueBackfillRange(store, cfg, Range(start, number));
          delegatedGapEnd := Some(number);
          return false;
        }
        if cursor.value.worker != Realtime {
          SyncRealtimeCheckpoint(cursor.value.checkpoint);
        }
      }
      return true;
    }

    /** The body run while the lock is held. */
    method HandleLocked(view: View, number: nat) returns (error: Option<Error>)
      requires store.CacheAgrees(cfg.prices)
      modifies this`delegatedGapEnd, store, registry
      ensures store.CacheAgrees(cfg.prices)
      ensures Handled(store.Db(), delegatedGapEnd, error)
           == HandleHead(old(store.Db()), old(delegatedGapEnd), cfg, view, number)
    {
      error := None;
      var run := Triage(number);
      if run {
        error := ProcessBlock(store, registry, cfg, view, number, Realtime, false);
      }
    }

    /** A head whose lock request is refused is skipped without any effect. */
    method HandleBlock(view: View, number: nat) returns (error: Option<Error>)
      requires store.CacheAgrees(cfg.prices)
      modifies this`delegatedGapEnd, store, registry, lock
      ensures store.CacheAgrees(cfg.prices)
      ensures lock.holder == old(lock.holder)
      ensures Handled(store.Db(), delegatedGapEnd, error)
           == if old(lock.holder) == null then HandleHead(old(store.Db()), old(delegatedGapEnd), cfg, view, number)
              else Handled(old(store.Db()), old(delegatedGapEnd), None)
    {
      var manager := new CheckpointManager(lock);
      var granted := manager.AcquireLock();
      if !granted {
        return None;
      }
      error := HandleLocked(view, number);
      manager.ReleaseLock();
    }

    method ConsumeNext(view: View)
      requires store.CacheAgrees(cfg.prices)
      modifies this, store, registry, lock
      ensures store.CacheAgrees(cfg.prices) && lock.holder == old(lock.holder)
      ensures old(queue) == [] ==>
                queue == [] && store.Db() == old(store.Db()) && delegatedGapEnd == old(delegatedGapEnd)
      ensures old(queue) != [] ==>
                && queue == old(queue)[1..]
                && !processing
                && var h := if old(lock.holder) == null
                            then ConsumeHead(old(store.Db()), old(delegatedGapEnd), cfg, view, old(queue)[0])
                            else Handled(old(store.Db()), old(delegatedGapEnd), None);
                   store.Db() == h.db && delegatedGapEnd == h.gap
    {
      if queue == [] {
        return;
      }
      var number := queue[0];
      queue := queue[1..];
      processing := true;
      var error := HandleBlock(view, number);
      if error.Some? {
        var queued := EnqueueBackfillRange(store, cfg, Range(number, number));
      }
      processing := false;
    }
  }

  // ----------------------------------------------------------- properties

  /** The effective cursor is one of the two that are above block 0, at least as high as the other; on
      one level it is the realtime cursor. */
  lemma EffectiveIsHighest(cps: map<Worker, Checkpoint>, w: Worker, c: Checkpoint)
    ensures Effective(cps) == Some(Cursor(w, c))
            <==> (&& (w == Realtime || w == BACKFILL_DEFAULT)
                  && w in cps && cps[w] == c && c.block > 0
                  && forall v :: v in {Realtime, BACKFILL_DEFAULT} && v in cps && v != w ==>
                       cps[v].block < c.block || (w == Realtime && cps[v].block == c.block))
    ensures Effective(cps) == None
            <==> forall v :: v in {Realtime, BACKFILL_DEFAULT} && v in cps ==> cps[v].block == 0
  {
  }

  /** A head reaches the pipeline beside an existing cursor only as its exact successor, and by
      then the realtime cursor is the higher of the two. */
  lemma HandOffIsExact(cps: map<Worker, Checkpoint>, gap: Option<nat>, number: nat)
    requires Effective(cps).Some?
    ensures var at := Effective(cps).value.checkpoint;
            && (Decide(cps, gap, number) == Handle <==> number == at.block + 1)
            && Last(HandedOff(cps), Realtime).Some?
            && HandedOff(cps)[Realtime].block == at.block && HandedOff(cps)[Realtime].hash == at.hash
            && HandedOff(cps) == (if Effective(cps).value.worker == Realtime then cps
                                  else cps[Realtime := Checkpoint(at.block, at.hash, Running)])
            && Last(HandedOff(cps), BACKFILL_DEFAULT) == Last(cps, BACKFILL_DEFAULT)
            && forall w :: w in {Realtime, BACKFILL_DEFAULT} && Last(cps, w).Some? ==>
                 Last(cps, w).value.block <= at.block
  {
  }

  /** One observed cursor table and the head that arrived with it. */
  datatype Sighting = Sighting(cps: map<Worker, Checkpoint>, head: nat)

  datatype Delegations = Delegations(ranges: seq<Range>, gap: Option<nat>)

  /** The ranges delegated while a list of heads arrives. */
  function DelegateAll(sightings: seq<Sighting>): Delegations {
    if sightings == [] then Delegations([], None)
    else
      var before := DelegateAll(sightings[..|sightings| - 1]);
      var now := sightings[|sightings| - 1];
      var marker := GapAt(before.gap, now.cps);
      match Decide(now.cps, marker, now.head)
      case Delegate(range) => Delegations(before.ranges + [range], Some(now.head))
      case Ignore => before.(gap := marker)
      case Handle => before.(gap := marker)
  }

  /** Every cursor seen after a delegation is still below the marker. */
  ghost predicate StaysBelow(sightings: seq<Sighting>) {
    forall i :: 0 <= i < |sightings| ==>
      var gap := DelegateAll(sightings[..i]).gap;
      gap.Some? ==> EffectiveBlock(sightings[i].cps) < gap.value
  }

  lemma {:induction false} DelegatedRangesTile(sightings: seq<Sighting>)
    requires StaysBelow(sightings)
    ensures var d := DelegateAll(sightings);
            && (d.ranges == [] <==> d.gap == None)
            && (d.ranges != [] ==> Tiles(d.ranges, d.ranges[0].start, d.gap.value))
  {
    if sightings != [] {
      var earlier := sightings[..|sightings| - 1];
      var now := sightings[|sightings| - 1];
      assert forall i :: 0 <= i <= |earlier| ==> sightings[..i] == earlier[..i];
      DelegatedRangesTile(earlier);
      var before := DelegateAll(earlier);
      assert before.gap.Some? ==> EffectiveBlock(now.cps) < before.gap.value;
      assert GapAt(before.gap, now.cps) == before.gap;
      hide StaysBelow, DelegateAll, Effective, EffectiveBlock, GapAt, Tiles;
      match Decide(now.cps, before.gap, now.head)
      case Ignore =>
      case Handle =>
      case Delegate(range) => NextRangeTiles(before.ranges, before.gap, now, range);
    }
  }

  /** The range delegated next starts right after the marker. */
  lemma NextRangeTiles(ranges: seq<Range>, gap: Option<nat>, now: Sighting, range: Range)
    requires ranges == [] <==> gap == None
    requires gap.Some? ==> Tiles(ranges, ranges[0].start, gap.value) && EffectiveBlock(now.cps) < gap.value
    requires Decide(now.cps, gap, now.head) == Delegate(range)
    ensures Tiles(ranges + [range], (ranges + [range])[0].start, now.head)
  {
  }

  /** The first range starts right above the cursor that was seen when it was delegated. */
  lemma {:induction false} FirstRangeStartsAboveCursor(sightings: seq<Sighting>) returns (i: nat)
    requires DelegateAll(sightings).ranges != []
    ensures i < |sightings| && DelegateAll(sightings[..i]).ranges == []
    ensures DelegateAll(sightings).ranges[0].start == EffectiveBlock(sightings[i].cps) + 1
  {
    var earlier := sightings[..|sightings| - 1];
    if DelegateAll(earlier).ranges != [] {
      i := FirstRangeStartsAboveCursor(earlier);
      assert sightings[..i] == earlier[..i];
    } else {
      i := |sightings| - 1;
      NoRangeNoMarker(earlier);
    }
  }

  lemma {:induction false} NoRangeNoMarker(sightings: seq<Sighting>)
    requires DelegateAll(sightings).ranges == []
    ensures DelegateAll(sightings).gap == None
  {
    if sightings != [] {
      NoRangeNoMarker(sightings[..|sightings| - 1]);
    }
  }
}
