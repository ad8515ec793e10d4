/** When a block is taken as the next one and when it makes a worker recover, in terms of the cursor
    row, the stored hashes and the node's blocks alone. */
module ForkChecks {
  import opened Types
  import opened Candidates
  import opened Checkpoints
  import opened Jobs
  import opened ReorgDetection
  import opened ReorgRecovery
  import opened Orchestrator
  import opened BlockEffects
  import opened Confluence
  import opened RealtimeWorkers
  import opened Runs
  import opened Integrity
  import opened PaymentLogs
  import opened IndexedBlocks

  /** There is nothing to compare the block with, or it names the cursor's hash as its parent. */
  predicate Continues(cps: map<Worker, Checkpoint>, w: Worker, b: Block, backfill: bool) {
    || w !in cps || cps[w].block == 0
    || b.parent == cps[w].hash
    || (backfill && b.number != cps[w].block + 1)
  }

  ghost predicate TxsKnown(cfg: Config, b: Block) {
    forall t :: t in b.transfers && Registered(cfg.registry, t.asset, AssetKind, b.number) ==> t.tx in b.txs
  }

  /** The worker's cursor stands on the block, unless it already was beyond it. */
  ghost predicate CursorMoved(before: map<Worker, Checkpoint>, after: map<Worker, Checkpoint>, w: Worker, b: Block) {
    && w in after && after - {w} == before - {w}
    && after[w] == if w in before && before[w].block > b.number
                   then Checkpoint(before[w].block, before[w].hash, Running)
                   else Checkpoint(b.number, b.hash, Running)
  }

  /** A block that continues is indexed, or throws when the node lacks a transaction. */
  lemma ContinuingIsIndexed(db: Db, cfg: Config, view: View, n: nat, w: Worker, backfill: bool)
    requires n != 0 && n in view && Continues(db.checkpoints, w, view[n], backfill)
    requires HeightsStored(CoreOf(db)) && LogsDistinct(view[n])
    ensures match Process(db, cfg, view, n, w, backfill)
            case Ok(after) =>
              && TxsKnown(cfg, view[n])
              && Indexed(CoreOf(db), CoreOf(after), cfg, view[n])
              && CursorMoved(db.checkpoints, after.checkpoints, w, view[n])
              && after.jobs == db.jobs
            case Thrown(e) => !TxsKnown(cfg, view[n]) && e == MissingTransaction
  {
    ContinuingIsAccepted(db, cfg, view, n, w, backfill);
    AcceptAdvances(db, cfg, view[n], w);
    hide Process, Accept, Indexed, HeightsStored, LogsDistinct, Fetchable, Continues, TxsKnown, CoreOf;
    AcceptIsIndexed(db, cfg, view[n], w);
    assert TxsKnown(cfg, view[n]) <==> Fetchable(cfg, view[n]) by { KnownIsFetchable(cfg, view[n]); }
  }

  lemma KnownIsFetchable(cfg: Config, b: Block)
    ensures TxsKnown(cfg, b) <==> Fetchable(cfg, b)
  {
    FetchableIff(cfg, b);
    hide Fetchable, Registered;
  }

  lemma ContinuingIsAccepted(db: Db, cfg: Config, view: View, n: nat, w: Worker, backfill: bool)
    requires n != 0 && n in view && Continues(db.checkpoints, w, view[n], backfill)
    ensures Process(db, cfg, view, n, w, backfill)
         == if Fetchable(cfg, view[n]) then Ok(Accept(db, cfg, view[n], w)) else Thrown(MissingTransaction)
  {
    hide Ancestor, Accept, Fetchable, Recover;
  }

  // -------------------------------------------------------------- recovery

  predicate SameBlock(blocks: map<nat, BlockRow>, view: View, n: nat) {
    n in blocks && !blocks[n].orphaned && n in view && blocks[n].hash == view[n].hash
  }

  /** The store and the node share block `a` and no block between it and `n`, all known to the node. */
  ghost predicate ForkedAfter(blocks: map<nat, BlockRow>, view: View, a: nat, n: nat) {
    && a < n && SameBlock(blocks, view, a)
    && forall m :: a < m < n ==> m in view && !SameBlock(blocks, view, m)
  }

  /** A payment that stays has its record above the ancestor. */
  ghost predicate Held(db: Db, a: nat) {
    exists k :: k in db.payments && db.payments[k].block <= a && k in db.evidence && db.evidence[k].block > a
  }

  ghost predicate RowsOrphaned(before: map<nat, BlockRow>, after: map<nat, BlockRow>, a: nat) {
    && after.Keys == before.Keys
    && forall m :: m in before ==> after[m] == if m > a then before[m].(orphaned := true) else before[m]
  }

  ghost predicate CutAt<K(!new), V(!new)>(before: map<K, V>, after: map<K, V>, height: V -> nat, a: nat) {
    && (forall k :: k in after <==> k in before && height(before[k]) <= a)
    && (forall k :: k in after ==> after[k] == before[k])
  }

  /** Everything above the ancestor is undone, the cursor stands on it and the blocks from its successor
      up to the worker's old head or the block at hand are on record for replay. */
  ghost predicate Undone(db: Db, after: Db, cfg: Config, view: View, n: nat, a: nat, w: Worker)
    requires a in view && w in db.checkpoints
  {
    && RowsOrphaned(db.blocks, after.blocks, a)
    && CutAt(db.evidence, after.evidence, (e: Evidence) => e.block, a)
    && CutAt(db.payments, after.payments, (p: Payment) => p.block, a)
    && CutAt(db.interactions, after.interactions, (m: Moment) => m.block, a)
    && after.txs == db.txs && after.agents == db.agents && after.services == db.services
    && after.checkpoints == db.checkpoints[w := Checkpoint(a, view[a].hash, Reorged)]
    && var end := if db.checkpoints[w].block > n then db.checkpoints[w].block else n;
       after.jobs == db.jobs[Range(a + 1, end) := Job(if cfg.queueEnabled then Queued else PendingManual, 0)]
  }

  /** Only what is deleted before the evidence is undone. */
  ghost predicate HalfUndone(db: Db, after: Db, a: nat) {
    && RowsOrphaned(db.blocks, after.blocks, a)
    && CutAt(db.payments, after.payments, (p: Payment) => p.block, a)
    && CutAt(db.interactions, after.interactions, (m: Moment) => m.block, a)
    && after == db.(blocks := after.blocks, payments := after.payments, interactions := after.interactions)
  }

  /** The search finds the last shared block within its window. */
  lemma SharedIsFound(blocks: map<nat, BlockRow>, view: View, n: nat, a: nat, maxDepth: nat)
    requires ForkedAfter(blocks, view, a, n) && n - 1 - a <= maxDepth
    ensures Ancestor(blocks, view, n - 1, maxDepth) == Ok(a)
  {
    AncestorIsGreatestMatch(blocks, view, n - 1, maxDepth, a);
    assert forall m :: Matches(blocks, view, m) <==> SameBlock(blocks, view, m);
    hide Ancestor, Matches, SameBlock;
    assert Reached(blocks, view, n - 1, maxDepth, a);
  }

  /** A block that does not name the cursor's hash as its parent makes its worker recover to the last
      block the store and the node share: the realtime worker for any block, a backfill worker for the
      successor of its cursor. */
  lemma ForkIsRecovered(db: Db, cfg: Config, view: View, n: nat, a: nat, w: Worker, backfill: bool)
    requires n in view && !Continues(db.checkpoints, w, view[n], backfill)
    requires ForkedAfter(db.blocks, view, a, n) && n - 1 - a <= cfg.maxReorgDepth
    ensures match Process(db, cfg, view, n, w, backfill)
            case Ok(after) => !Held(db, a) && Undone(db, after, cfg, view, n, a, w)
            case Thrown(e) =>
              && Held(db, a) && e == StillReferenced
              && HalfUndone(db, LeftByThrow(db, cfg, view, n, w, backfill), a)
  {
    ForkIsDetected(db, cfg, view, n, a, w, backfill);
    assert Held(db, a) <==> Blocked(db, a);
    hide Detect, Accept, Fetchable, Held, Blocked, ForkedAfter, Continues, Undone, HalfUndone, Recover, PartlyUndone;
    if Blocked(db, a) {
      PartlyUndoneIsHalf(db, a);
    } else {
      RecoverFrame(db, cfg, view, n, a, w);
      RecoveredIsUndone(db, Recover(db, cfg, view, n, a, w), cfg, view, n, a, w);
    }
  }

  lemma ForkIsDetected(db: Db, cfg: Config, view: View, n: nat, a: nat, w: Worker, backfill: bool)
    requires n in view && !Continues(db.checkpoints, w, view[n], backfill)
    requires ForkedAfter(db.blocks, view, a, n) && n - 1 - a <= cfg.maxReorgDepth
    ensures w in db.checkpoints && db.checkpoints[w].block != 0 && a in view
    ensures Detect(db, cfg.maxReorgDepth, view, view[n], w, backfill)
         == Reorg(n, db.checkpoints[w].hash, view[n].parent, a)
  {
    SharedIsFound(db.blocks, view, n, a, cfg.maxReorgDepth);
    hide Ancestor;
  }

  lemma PartlyUndoneIsHalf(db: Db, a: nat)
    ensures HalfUndone(db, PartlyUndone(db, a), a)
  {
  }

  lemma RecoveredIsUndone(db: Db, after: Db, cfg: Config, view: View, n: nat, a: nat, w: Worker)
    requires a in view && w in db.checkpoints && db.checkpoints[w].block != 0
    requires after.blocks == Orphan(db.blocks, a)
    requires after.checkpoints == Rewind(db.checkpoints, w, a, view[a].hash)
    requires after.jobs == Enqueued(db.jobs, cfg, Range(a + 1, ReplayEnd(Last(db.checkpoints, w), n)))
    requires after.evidence == EvidenceUpTo(db.evidence, a) && after.payments == PaymentsUpTo(db.payments, a)
    requires after.interactions == InteractionsUpTo(db.interactions, a)
    requires after.txs == db.txs && after.agents == db.agents && after.services == db.services
    ensures Undone(db, after, cfg, view, n, a, w)
  {
  }

  // ------------------------------------------------------------------ runs

  /** The row at the cursor names `parent` as its parent. */
  ghost predicate RowNames(db: Db, at: Checkpoint, parent: Hash) {
    && at.block in db.blocks && !db.blocks[at.block].orphaned
    && db.blocks[at.block].hash == at.hash && db.blocks[at.block].parent == parent
  }

  /** A step that moves the cursor to its exact successor has stored a child of the block it was on. */
  lemma SuccessorIsChild(db: Db, cfg: Config, view: View, n: nat, w: Worker, backfill: bool, after: Db)
    requires Process(db, cfg, view, n, w, backfill) == Ok(after)
    requires w in db.checkpoints && db.checkpoints[w].block != 0
    requires backfill || n == db.checkpoints[w].block + 1
    requires w in after.checkpoints && after.checkpoints[w].block == db.checkpoints[w].block + 1
    ensures RowNames(after, after.checkpoints[w], db.checkpoints[w].hash)
  {
    ProcessOutcome(db, cfg, view, n, w, backfill);
    hide Process, Ancestor;
  }

  /** The cursor a step of the run goes on from. */
  function Standpoint(s: System, a: Action): Option<Checkpoint> {
    match a
    case Head(_, _) => (match Effective(s.db.checkpoints) case Some(c) => Some(c.checkpoint) case None => None)
    case Replayed(_, _) => Last(s.db.checkpoints, BACKFILL_DEFAULT)
    case LockRefused => None
    case Requested(_) => None
  }

  /** If the step left its worker's cursor right above that, the row there is its child. */
  ghost predicate BuildsOnCursor(s: System, t: System, a: Action) {
    var w := if a.Head? then Realtime else BACKFILL_DEFAULT;
    Standpoint(s, a).Some? && w in t.db.checkpoints
      && t.db.checkpoints[w].block == Standpoint(s, a).value.block + 1 ==>
      RowNames(t.db, t.db.checkpoints[w], Standpoint(s, a).value.hash)
  }

  lemma ReplayLinks(s: System, cfg: Config, n: nat, view: View)
    ensures BuildsOnCursor(s, Step(s, cfg, Replayed(n, view)), Replayed(n, view))
  {
    hide Process, LeftByThrow, RowNames;
    var a, db := Replayed(n, view), s.db;
    match Process(db, cfg, view, n, BACKFILL_DEFAULT, true)
    case Ok(after) =>
      if Standpoint(s, a).Some? && BACKFILL_DEFAULT in after.checkpoints
         && after.checkpoints[BACKFILL_DEFAULT].block == db.checkpoints[BACKFILL_DEFAULT].block + 1 {
        SuccessorIsChild(db, cfg, view, n, BACKFILL_DEFAULT, true, after);
      }
    case Thrown(_) => LeftFrame(db, cfg, view, n, BACKFILL_DEFAULT, true);
  }

  lemma HandledChild(ready: Db, cfg: Config, n: nat, view: View)
    requires Realtime in ready.checkpoints && ready.checkpoints[Realtime].block + 1 == n != 1
    ensures match Process(ready, cfg, view, n, Realtime, false)
            case Ok(after) =>
              Realtime in after.checkpoints && after.checkpoints[Realtime].block == n ==>
                RowNames(after, after.checkpoints[Realtime], ready.checkpoints[Realtime].hash)
            case Thrown(_) => LeftByThrow(ready, cfg, view, n, Realtime, false).checkpoints == ready.checkpoints
  {
    hide Process, LeftByThrow, RowNames;
    match Process(ready, cfg, view, n, Realtime, false)
    case Ok(after) =>
      if Realtime in after.checkpoints && after.checkpoints[Realtime].block == n {
        SuccessorIsChild(ready, cfg, view, n, Realtime, false, after);
      }
    case Thrown(_) => LeftFrame(ready, cfg, view, n, Realtime, false);
  }

  /** What a head leaves of rows and cursors. */
  lemma HeadStep(s: System, cfg: Config, n: nat, view: View)
    ensures var cps, after := s.db.checkpoints, Step(s, cfg, Head(n, view)).db;
            if Decide(cps, GapAt(s.gap, cps), n) == Handle then
              var ready := s.db.(checkpoints := HandedOff(cps));
              match Process(ready, cfg, view, n, Realtime, false)
              case Ok(done) => after == done
              case Thrown(_) => after.checkpoints == LeftByThrow(ready, cfg, view, n, Realtime, false).checkpoints
            else after.checkpoints == cps
  {
    hide Process, LeftByThrow, Enqueued, HandedOff, GapAt, Decide;
  }

  lemma HeadLinks(s: System, cfg: Config, n: nat, view: View)
    ensures BuildsOnCursor(s, Step(s, cfg, Head(n, view)), Head(n, view))
  {
    hide Process, LeftByThrow, RowNames, HandedOff, GapAt, Decide, Effective, Step;
    var cps := s.db.checkpoints;
    HeadStep(s, cfg, n, view);
    if Effective(cps).Some? {
      HandOffIsExact(cps, GapAt(s.gap, cps), n);
      StandsOn(cps);
      if Decide(cps, GapAt(s.gap, cps), n) == Handle {
        HandledChild(s.db.(checkpoints := HandedOff(cps)), cfg, n, view);
      }
    }
  }

  lemma StandsOn(cps: map<Worker, Checkpoint>)
    requires Effective(cps).Some?
    ensures var at := Effective(cps).value.checkpoint;
            at.block != 0 && (Realtime in cps ==> cps[Realtime].block <= at.block)
  {
  }

  ghost predicate BuildsOnCursorThroughout(cfg: Config, acts: seq<Action>) {
    acts != [] ==>
      var earlier, a := acts[..|acts| - 1], acts[|acts| - 1];
      var s := Run(START, cfg, earlier);
      BuildsOnCursorThroughout(cfg, earlier) && BuildsOnCursor(s, Step(s, cfg, a), a)
  }

  /** In every run, whichever worker takes the exact successor of the cursor it goes on from, that block
      is a child of the one the cursor was on: neither worker builds on a block of another fork. */
  lemma {:induction false} RunLinks(cfg: Config, acts: seq<Action>)
    ensures BuildsOnCursorThroughout(cfg, acts)
  {
    hide Step, BuildsOnCursor;
    if acts != [] {
      var earlier, a := acts[..|acts| - 1], acts[|acts| - 1];
      var s := Run(START, cfg, earlier);
      RunLinks(cfg, earlier);
      match a
      case Head(n, view) => HeadLinks(s, cfg, n, view);
      case Replayed(n, view) => ReplayLinks(s, cfg, n, view);
      case LockRefused => IdleLinks(s, cfg, a);
      case Requested(_) => IdleLinks(s, cfg, a);
    }
  }

  lemma IdleLinks(s: System, cfg: Config, a: Action)
    requires a.LockRefused? || a.Requested?
    ensures BuildsOnCursor(s, Step(s, cfg, a), a)
  {
  }
}
