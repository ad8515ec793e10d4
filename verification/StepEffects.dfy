/** What one step of a run does to the tables: nothing, an accepted block or a recovery. */
module StepEffects {
  import opened Types
  import opened Candidates
  import opened Jobs
  import opened ReorgDetection
  import opened ReorgRecovery
  import opened Orchestrator
  import opened RealtimeWorkers
  import opened Runs

  /** Only cursors and recorded ranges may differ. */
  ghost predicate SameTables(before: Db, after: Db) {
    after == before.(checkpoints := after.checkpoints, jobs := after.jobs)
  }

  datatype Effect =
    | Untouched
    | Accepted(block: Block, worker: Worker)
    | Recovered(view: View, current: nat, ancestor: nat, worker: Worker)
    | Stuck(ancestor: nat)  // a recovery to the ancestor could not delete the evidence

  /** The store as the pipeline finds it. */
  ghost function ReadyFor(s: System, a: Action): Db {
    if a.Head? then s.db.(checkpoints := HandedOff(s.db.checkpoints)) else s.db
  }

  ghost function PipelineEffect(db: Db, cfg: Config, view: View, number: nat, w: Worker, backfill: bool): Effect {
    if number == 0 || number !in view then Untouched
    else match Detect(db, cfg.maxReorgDepth, view, view[number], w, backfill)
      case Valid => if Fetchable(cfg, view[number]) then Accepted(view[number], w) else Untouched
      case Reorg(_, _, _, a) => if Blocked(db, a) then Stuck(a) else Recovered(view, number, a, w)
      case Failed(_) => Untouched
  }

  ghost function EffectOf(s: System, cfg: Config, a: Action): Effect {
    match a
    case Head(number, view) =>
      if Decide(s.db.checkpoints, GapAt(s.gap, s.db.checkpoints), number) == Handle
      then PipelineEffect(ReadyFor(s, a), cfg, view, number, Realtime, false) else Untouched
    case Replayed(number, view) => PipelineEffect(ReadyFor(s, a), cfg, view, number, BACKFILL_DEFAULT, true)
    case LockRefused => Untouched
    case Requested(_) => Untouched
  }

  /** `after` holds the tables that the effect leaves behind. */
  ghost predicate Produces(before: Db, cfg: Config, e: Effect, after: Db) {
    match e
    case Untouched => SameTables(before, after)
    case Accepted(b, w) => SameTables(Accept(before, cfg, b, w), after)
    case Recovered(view, current, ancestor, w) =>
      ancestor in view && ancestor < current && SameTables(Recover(before, cfg, view, current, ancestor, w), after)
    case Stuck(ancestor) => Blocked(before, ancestor) && SameTables(PartlyUndone(before, ancestor), after)
  }

  lemma ProcessProduces(db: Db, cfg: Config, view: View, number: nat, w: Worker, backfill: bool)
    ensures var e := PipelineEffect(db, cfg, view, number, w, backfill);
            match Process(db, cfg, view, number, w, backfill)
            case Ok(after) => (e.Accepted? || e.Recovered?) && Produces(db, cfg, e, after)
            case Thrown(_) =>
              (e.Untouched? || e.Stuck?)
              && Produces(db, cfg, e, LeftByThrow(db, cfg, view, number, w, backfill))
  {
    hide Detect, Accept, Recover, PartlyUndone, Blocked;
    if number != 0 && number in view {
      AncestorInView(db, cfg.maxReorgDepth, view, view[number], w, backfill);
    }
  }

  lemma StepProduces(s: System, cfg: Config, a: Action)
    ensures SameTables(s.db, ReadyFor(s, a))
    ensures Produces(ReadyFor(s, a), cfg, EffectOf(s, cfg, a), Step(s, cfg, a).db)
  {
    hide Process, LeftByThrow, PipelineEffect, Accept, Recover, PartlyUndone, Blocked, HandedOff, Decide;
    match a
    case Head(number, view) => ProcessProduces(ReadyFor(s, a), cfg, view, number, Realtime, false);
    case Replayed(number, view) => ProcessProduces(s.db, cfg, view, number, BACKFILL_DEFAULT, true);
    case LockRefused =>
    case Requested(_) =>
  }

  /** No recovery of the run finds evidence it may not delete. */
  ghost predicate NeverStuck(cfg: Config, acts: seq<Action>) {
    acts != [] ==>
      var earlier := acts[..|acts| - 1];
      NeverStuck(cfg, earlier) && !EffectOf(Run(START, cfg, earlier), cfg, acts[|acts| - 1]).Stuck?
  }

  lemma AcceptRaises(db: Db, cfg: Config, b: Block, mover: Worker, w: Worker)
    requires w in db.checkpoints
    ensures var after := Accept(db, cfg, b, mover).checkpoints; w in after && after[w].block >= db.checkpoints[w].block
  {
  }

  lemma RecoverLowersOnlyItsOwn(db: Db, cfg: Config, view: View, current: nat, a: nat, mover: Worker, w: Worker)
    requires w in db.checkpoints && a in view && a < current
    ensures var after := Recover(db, cfg, view, current, a, mover).checkpoints;
            w in after && (w != mover ==> after[w] == db.checkpoints[w])
  {
  }

  lemma ProcessLowersByRecovery(db: Db, cfg: Config, view: View, number: nat, mover: Worker, backfill: bool, w: Worker)
    requires w in db.checkpoints && Process(db, cfg, view, number, mover, backfill).Ok?
    ensures var e := PipelineEffect(db, cfg, view, number, mover, backfill);
            var after := Process(db, cfg, view, number, mover, backfill).value;
            && w in after.checkpoints
            && (after.checkpoints[w].block < db.checkpoints[w].block ==> e.Recovered? && e.worker == w)
  {
    hide Detect, Accept, Recover;
    var b := view[number];
    AcceptRaises(db, cfg, b, mover, w);
    AncestorInView(db, cfg.maxReorgDepth, view, b, mover, backfill);
    var d := Detect(db, cfg.maxReorgDepth, view, b, mover, backfill);
    if d.Reorg? {
      RecoverLowersOnlyItsOwn(db, cfg, view, number, d.ancestor, mover, w);
    }
  }

  lemma HandOffRaises(cps: map<Worker, Checkpoint>, w: Worker)
    requires w in cps
    ensures w in HandedOff(cps) && HandedOff(cps)[w].block >= cps[w].block
  {
  }

  /** The cursors after a head: as handed off, unless the pipeline ran and completed. */
  lemma HeadCursors(s: System, cfg: Config, number: nat, view: View)
    ensures var cps, after := s.db.checkpoints, ConsumeHead(s.db, s.gap, cfg, view, number).db.checkpoints;
            if Decide(cps, GapAt(s.gap, cps), number) != Handle then after == cps
            else match Process(s.db.(checkpoints := HandedOff(cps)), cfg, view, number, Realtime, false)
              case Ok(d) => after == d.checkpoints
              case Thrown(_) => after == HandedOff(cps)
  {
    hide Process, HandedOff, Decide, GapAt, Enqueued, Detect;
  }

  lemma HeadLowersByRecovery(s: System, cfg: Config, number: nat, view: View, w: Worker)
    requires w in s.db.checkpoints
    ensures var e := EffectOf(s, cfg, Head(number, view));
            var after := ConsumeHead(s.db, s.gap, cfg, view, number).db.checkpoints;
            && w in after
            && (after[w].block < s.db.checkpoints[w].block ==> e.Recovered? && e.worker == w)
  {
    hide Process, PipelineEffect, HandedOff, Decide, GapAt, ConsumeHead;
    HandOffRaises(s.db.checkpoints, w);
    HeadCursors(s, cfg, number, view);
    var ready := s.db.(checkpoints := HandedOff(s.db.checkpoints));
    if Process(ready, cfg, view, number, Realtime, false).Ok? {
      ProcessLowersByRecovery(ready, cfg, view, number, Realtime, false, w);
    }
  }

  /** A step lowers a cursor only by recovering for the worker that owns it, and removes none. */
  lemma OnlyRecoveryLowersACursor(s: System, cfg: Config, a: Action, w: Worker)
    requires w in s.db.checkpoints
    ensures var e, after := EffectOf(s, cfg, a), Step(s, cfg, a).db.checkpoints;
            && w in after
            && (after[w].block < s.db.checkpoints[w].block ==> e.Recovered? && e.worker == w)
  {
    hide Process, PipelineEffect, HandedOff, Decide, GapAt, ConsumeHead;
    match a
    case Head(number, view) => HeadLowersByRecovery(s, cfg, number, view, w);
    case Replayed(number, view) =>
      if Process(s.db, cfg, view, number, BACKFILL_DEFAULT, true).Ok? {
        ProcessLowersByRecovery(s.db, cfg, view, number, BACKFILL_DEFAULT, true, w);
      }
    case LockRefused =>
    case Requested(_) =>
  }

  /** After a recovery to block `a`, the successor of `a` on the same view of a linked chain is
      accepted for that worker, so replaying from there meets no second recovery at once. */
  lemma RecoveryAcceptsSuccessor(db: Db, cfg: Config, view: View, current: nat, a: nat, w: Worker, backfill: bool)
    requires a in view && a < current && a + 1 in view && view[a + 1].parent == view[a].hash
    requires w in db.checkpoints
    ensures Detect(Recover(db, cfg, view, current, a, w), cfg.maxReorgDepth, view, view[a + 1], w, backfill) == Valid
  {
    hide Ancestor;
    RecoverFrame(db, cfg, view, current, a, w);
    hide Recover;
  }
}
