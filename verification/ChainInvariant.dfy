/** Runs in which only the realtime worker writes: the canonical rows are always one linked
    segment that ends at the realtime cursor. */
module ChainInvariants {
  import opened Types
  import opened Candidates
  import opened Domain
  import opened BlockEffects
  import opened Confluence
  import opened Integrity
  import opened ReorgRecovery
  import opened StepEffects
  import opened Checkpoints
  import opened ReorgDetection
  import opened Orchestrator
  import opened RealtimeWorkers
  import opened Runs

  /** From `lo` up to the cursor, and nowhere else, rows are canonical, linked, and the last one
      carries the cursor's hash. */
  ghost predicate SegmentTo(blocks: map<nat, BlockRow>, lo: nat, c: Checkpoint) {
    && 0 < lo <= c.block
    && (forall n: nat :: Live(blocks, n) <==> lo <= n <= c.block)
    && Segment(blocks, lo, c.block)
    && c.block in blocks && blocks[c.block].hash == c.hash
  }

  ghost predicate OneSegment(db: Db) {
    && BACKFILL_DEFAULT !in db.checkpoints
    && (Last(db.checkpoints, Realtime).None? ==> forall n: nat :: !Live(db.blocks, n))
    && (Last(db.checkpoints, Realtime).Some?
        ==> exists lo: nat :: SegmentTo(db.blocks, lo, Last(db.checkpoints, Realtime).value))
  }

  lemma AcceptExtends(db: Db, after: Db, b: Block)
    requires OneSegment(db) && Accepts(db, after, Realtime, b)
    requires Last(db.checkpoints, Realtime).Some? ==>
               b.number == Last(db.checkpoints, Realtime).value.block + 1
               && b.parent == Last(db.checkpoints, Realtime).value.hash
    ensures OneSegment(after)
  {
    var now := Last(after.checkpoints, Realtime).value;
    if Last(db.checkpoints, Realtime).None? {
      assert forall n: nat :: n != b.number ==> (Live(after.blocks, n) <==> Live(db.blocks, n));
      assert SegmentTo(after.blocks, b.number, now);
    } else {
      var lo: nat :| SegmentTo(db.blocks, lo, Last(db.checkpoints, Realtime).value);
      assert forall n: nat :: n != b.number ==> (Live(after.blocks, n) <==> Live(db.blocks, n));
      assert SegmentTo(after.blocks, lo, now);
    }
  }

  lemma RecoverShortens(db: Db, after: Db, view: View, current: nat, ancestor: nat)
    requires OneSegment(db) && ancestor in view
    requires Recovers(db, after, Realtime, current, ancestor, view[ancestor].hash)
    requires Matches(db.blocks, view, ancestor) || ancestor == 0
    ensures OneSegment(after)
  {
    var lo: nat :| SegmentTo(db.blocks, lo, Last(db.checkpoints, Realtime).value);
    assert forall n: nat :: Live(after.blocks, n) <==> Live(db.blocks, n) && n <= ancestor;
    if ancestor != 0 {
      assert Live(db.blocks, ancestor);
      assert SegmentTo(after.blocks, lo, Last(after.checkpoints, Realtime).value);
    }
  }

  /** The realtime worker accepts a block only above every live row. */
  lemma HeadAcceptsAbove(s: System, cfg: Config, number: nat, view: View)
    requires OneSegment(s.db)
    ensures var e := EffectOf(s, cfg, Head(number, view));
            e.Accepted? ==> e.block.number == number && forall n: nat :: Live(s.db.blocks, n) ==> n < number
  {
    hide Detect, Fetchable, Segment;
    var cps := s.db.checkpoints;
    if Last(cps, Realtime).Some? {
      var lo: nat :| SegmentTo(s.db.blocks, lo, Last(cps, Realtime).value);
    }
  }

  lemma HeadKeepsSegment(s: System, cfg: Config, number: nat, view: View)
    requires OneSegment(s.db) && forall a :: !Blocked(s.db, a)
    ensures OneSegment(Step(s, cfg, Head(number, view)).db)
  {
    hide Process, SegmentTo, Blocked;
    var db := s.db;
    var cps := db.checkpoints;
    assert HandedOff(cps) == cps;
    assert db.(checkpoints := cps) == db;
    assert LeftByThrow(db, cfg, view, number, Realtime, false) == db;
    hide LeftByThrow;
    if Decide(cps, GapAt(s.gap, cps), number) == Handle && Process(db, cfg, view, number, Realtime, false).Ok? {
      var after := Process(db, cfg, view, number, Realtime, false).value;
      ProcessAcceptsOrRecovers(db, cfg, view, number, Realtime, false, after);
      var d := Detect(db, cfg.maxReorgDepth, view, view[number], Realtime, false);
      if d.Valid? {
        AcceptExtends(db, after, view[number]);
      } else {
        AncestorFound(db.blocks, view, number - 1, cfg.maxReorgDepth, d.ancestor);
        RecoverShortens(db, after, view, number, d.ancestor);
      }
    }
  }

  // ------------------------------------------------ recoveries complete

  /** Every payment has its evidence, at its height or below. */
  ghost predicate Ordered(db: Db) {
    forall k :: k in db.payments ==> k in db.evidence && db.evidence[k].block <= db.payments[k].block
  }

  lemma OrderedNotBlocked(db: Db, a: nat)
    requires Ordered(db)
    ensures !Blocked(db, a)
  {
  }

  /** A block above all evidence puts its payments at or above their evidence. */
  lemma AcceptKeepsOrdered(db: Db, cfg: Config, b: Block, w: Worker)
    requires Ordered(db) && OnCanonical(db) && forall n: nat :: Live(db.blocks, n) ==> n < b.number
    ensures Ordered(Accept(db, cfg, b, w))
  {
    hide Accept, DeltaOf, BlockTxs;
    DeltaKeysAreBlockTxs(cfg, b);
    var after := Accept(db, cfg, b, w);
    forall k | k in after.payments ensures k in after.evidence && after.evidence[k].block <= after.payments[k].block {
      AcceptedRow(db, cfg, b, w, k);
      PaidAtNumber(cfg, b, k);
    }
  }

  lemma PaidAtNumber(cfg: Config, b: Block, k: Key)
    ensures k in DeltaOf(cfg, b).payments ==> DeltaOf(cfg, b).payments[k].block == b.number
  {
    BlockRowsFit(cfg, b);
    AddedPaymentRows(PromotedOf(cfg, b), b.time, b.number);
    hide PaymentsAdded, PromotedOf, EvidenceAdded, InteractionsAdded, TxRows, See, BlockEvidence;
  }

  lemma RecoverKeepsOrdered(db: Db, cfg: Config, view: View, current: nat, a: nat, w: Worker)
    requires Ordered(db) && a in view && a < current
    ensures Ordered(Recover(db, cfg, view, current, a, w))
  {
    RecoverFrame(db, cfg, view, current, a, w);
    hide Recover;
  }

  lemma StepKeepsOrdered(s: System, cfg: Config, a: Action)
    requires !a.Replayed? && OneSegment(s.db) && OnCanonical(s.db) && Ordered(s.db)
    ensures Ordered(Step(s, cfg, a).db) && !EffectOf(s, cfg, a).Stuck?
  {
    hide Step, Accept, Recover, PartlyUndone, Blocked, HandedOff, Decide, PipelineEffect;
    StepProduces(s, cfg, a);
    var ready := ReadyFor(s, a);
    if a.Head? {
      HeadAcceptsAbove(s, cfg, a.number, a.view);
    }
    hide EffectOf;
    match EffectOf(s, cfg, a)
    case Untouched =>
    case Accepted(b, w) => AcceptKeepsOrdered(ready, cfg, b, w);
    case Recovered(view, current, ancestor, w) => RecoverKeepsOrdered(ready, cfg, view, current, ancestor, w);
    case Stuck(ancestor) => OrderedNotBlocked(ready, ancestor);
  }

  /** However often the chain forks, a run of heads keeps the canonical rows one linked segment that
      ends at the cursor, or none at all without a cursor, and each of its recoveries completes. */
  lemma {:induction false} RealtimeRunKeepsOneSegment(cfg: Config, acts: seq<Action>)
    requires forall a :: a in acts ==> !a.Replayed?
    ensures var db := Run(START, cfg, acts).db; OneSegment(db) && Ordered(db) && OnCanonical(db)
    ensures NeverStuck(cfg, acts)
  {
    hide Step, EffectOf, OneSegment, Ordered, OnCanonical, Blocked;
    if acts == [] {
      NothingIsOneSegment();
    } else {
      var earlier, a := acts[..|acts| - 1], acts[|acts| - 1];
      assert a in acts;
      RealtimeRunKeepsOneSegment(cfg, earlier);
      var s := Run(START, cfg, earlier);
      StepKeepsOrdered(s, cfg, a);
      StepKeepsOnCanonicalIff(s, cfg, a);
      forall n { OrderedNotBlocked(s.db, n); }
      if a.Head? {
        HeadKeepsSegment(s, cfg, a.number, a.view);
      } else {
        QuietKeepsSegment(s, cfg, a);
      }
    }
  }

  lemma QuietKeepsSegment(s: System, cfg: Config, a: Action)
    requires OneSegment(s.db) && (a.LockRefused? || a.Requested?)
    ensures OneSegment(Step(s, cfg, a).db)
  {
    hide SegmentTo;
  }

  lemma NothingIsOneSegment()
    ensures OneSegment(EMPTY_DB) && Ordered(EMPTY_DB) && OnCanonical(EMPTY_DB)
  {
  }
}
