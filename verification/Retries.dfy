/** A block whose processing throws part of the way: when a later backfill completes it, and when
    the block is skipped for good. */
module Retries {
  import opened Types
  import opened Candidates
  import opened ReorgDetection
  import opened Domain
  import opened Orchestrator
  import opened BackfillWorkers
  import opened BlockEffects
  import opened Confluence
  import opened Runs
  import opened Samples
  import opened SampleEffects
  import opened SampleRuns
  import opened DailyStats
  import opened Aggregates
  import opened StatsRuns
  import opened ReorgRecovery

  /** The last stage of the pipeline that was completed before the throw. */
  datatype Stage = RawStored | EvidenceStored | DomainDerived | PaymentsValued | Aggregated

  /** What a throw leaves behind: the pipeline is not one transaction. */
  ghost function FailedAfter(db: Db, cfg: Config, b: Block, stage: Stage): Db {
    match stage
    case RawStored => db.(blocks := StoreBlock(db.blocks, b), txs := db.txs + TxRows(BlockCandidates(cfg, b)))
    case EvidenceStored => Stored(db, cfg, b)
    case DomainDerived => Derive(Stored(db, cfg, b), cfg.contracts, PromotedOf(cfg, b))
    case PaymentsValued => Paid(Stored(db, cfg, b), cfg, PromotedOf(cfg, b))
    case Aggregated => Index(db, cfg, b)
  }

  /** The tables at each stage, in terms of what the block contributes. */
  ghost function CoreAt(c: Core, d: Delta, prices: map<Bucket, real>, stage: Stage): Core {
    var raw := c.(blocks := c.blocks[d.number := d.row], txs := c.txs + d.txs);
    match stage
    case RawStored => raw
    case EvidenceStored => raw.(evidence := c.evidence + d.evidence)
    case DomainDerived =>
      Core(raw.blocks, raw.txs, c.evidence + d.evidence, MergePayments(c.payments, d.payments),
           Merge(c.agents, d.agents), c.services + d.services, d.interactions + c.interactions)
    case PaymentsValued => Apply(c, d, prices)
    case Aggregated => Apply(c, d, prices)
  }

  lemma DerivedCore(db: Db, cfg: Config, b: Block)
    requires Joinable(CoreOf(db), cfg, b)
    ensures CoreOf(FailedAfter(db, cfg, b, DomainDerived))
         == CoreAt(CoreOf(db), Placed(CoreOf(db), DeltaOf(cfg, b)), cfg.prices, DomainDerived)
  {
    hide Pay, See, Interact, MergePayments, Merge, InteractionsAdded, TxRows, Persist, EvidenceAdded;
    hide BlockCandidates, BlockEvidence, Joined, Joinable, PaymentsAdded, PlacedPayments, PlacedEvidence;
    var ps, s := PromotedOf(cfg, b), Stored(db, cfg, b);
    StoredRows(db, cfg, b);
    BlockRowsFit(cfg, b);
    SeeIsMerge(db.agents, cfg.contracts, ps);
    PayMerges(db.payments, s.evidence, s.blocks, ps, b.time);
    var rows := TxRows(BlockCandidates(cfg, b));
    assert TxsPresent(ps, rows) by {
      assert forall i :: 0 <= i < |ps| ==> ps[i] in ps;
    }
    InteractAdds(db.interactions, s.txs, rows, s.blocks, ps, b.number, b.time);
  }

  /** A throw moves no cursor, records no range and, before the last stage, changes no daily row. */
  lemma FailedFrame(db: Db, cfg: Config, b: Block, stage: Stage)
    ensures var failed := FailedAfter(db, cfg, b, stage);
            && failed.checkpoints == db.checkpoints && failed.jobs == db.jobs
            && failed.stats == if stage.Aggregated? then Index(db, cfg, b).stats else db.stats
  {
    hide Index, See, Pay, Interact, Convert, TxRows, Persist, PromotedOf, BlockEvidence, BlockCandidates;
    IndexFrame(db, cfg, b);
  }

  lemma FailedCore(db: Db, cfg: Config, b: Block, w: Worker, stage: Stage)
    requires Joinable(CoreOf(db), cfg, b)
    ensures CoreOf(FailedAfter(db, cfg, b, stage))
         == CoreAt(CoreOf(db), Placed(CoreOf(db), DeltaOf(cfg, b)), cfg.prices, stage)
    ensures FailedAfter(db, cfg, b, stage).checkpoints == db.checkpoints
  {
    FailedFrame(db, cfg, b, stage);
    hide Promote, Derive, MergePayments, Merge, TxRows, Persist, BlockCandidates, BlockEvidence, Apply, Joinable;
    hide PlacedPayments, PlacedEvidence, Index, Paid;
    DeriveFrame(Stored(db, cfg, b), cfg.contracts, PromotedOf(cfg, b));
    StoredRows(db, cfg, b);
    match stage
    case RawStored =>
    case EvidenceStored =>
    case DomainDerived => DerivedCore(db, cfg, b);
    case PaymentsValued =>
      IndexIsPaid(db, cfg, b);
      AcceptApplies(db, cfg, b, w);
      assert CoreOf(Index(db, cfg, b)) == CoreOf(Accept(db, cfg, b, w));
    case Aggregated =>
      AcceptApplies(db, cfg, b, w);
      assert CoreOf(Index(db, cfg, b)) == CoreOf(Accept(db, cfg, b, w));
  }

  lemma MergedThenPaid(p: map<Key, Payment>, a: map<Key, Payment>, prices: map<Bucket, real>)
    ensures WithPayments(MergePayments(p, a), a, prices) == WithPayments(p, a, prices)
  {
    assert MergePayments(MergePayments(p, a), a) == MergePayments(p, a);
  }

  /** Whatever stage was reached, applying the whole contribution again gives the same tables. */
  lemma ApplyCompletes(c: Core, d: Delta, prices: map<Bucket, real>, stage: Stage)
    ensures Apply(CoreAt(c, d, prices, stage), d, prices) == Apply(c, d, prices)
  {
    hide WithPayments, MergePayments, Merge;
    UnionIdempotent(c.txs, d.txs);
    UnionIdempotent(c.evidence, d.evidence);
    match stage
    case RawStored =>
    case EvidenceStored =>
    case DomainDerived =>
      UnionIdempotent(c.interactions, d.interactions);
      AgentsCommute(c.agents, d.agents, d.agents);
      MergedThenPaid(c.payments, d.payments, prices);
    case PaymentsValued => ApplyIdempotent(c, d, prices);
    case Aggregated => ApplyIdempotent(c, d, prices);
  }

  /** The evidence and the block rows a throw leaves behind. */
  lemma FailedRows(db: Db, cfg: Config, view: View, n: nat, w: Worker, stage: Stage)
    requires n in view && HeightsStored(CoreOf(db))
    ensures var failed, added := FailedAfter(db, cfg, view[n], stage), DeltaOf(cfg, view[n]).evidence;
            && failed.checkpoints == db.checkpoints
            && failed.blocks == StoreBlock(db.blocks, view[n])
            && (failed.evidence == db.evidence
                || failed.evidence == db.evidence + PlacedEvidence(db.evidence, added, n))
  {
    StoredIsJoinable(CoreOf(db), cfg, view[n]);
    FailedCore(db, cfg, view[n], w, stage);
    DeltaRow(cfg, view[n]);
    hide FailedAfter, DeltaOf, WithPayments, MergePayments, Merge, PlacedEvidence, PlacedPayments, HeightsStored;
    hide Joinable;
  }

  lemma FailedHeights(db: Db, cfg: Config, view: View, n: nat, w: Worker, stage: Stage)
    requires n in view && HeightsStored(CoreOf(db))
    ensures var failed := FailedAfter(db, cfg, view[n], stage);
            && HeightsStored(CoreOf(failed))
            && (forall k :: k in DeltaOf(cfg, view[n]).evidence ==>
                  HeightAt(failed.evidence, k, n) == HeightAt(db.evidence, k, n))
  {
    var failed, d := FailedAfter(db, cfg, view[n], stage), DeltaOf(cfg, view[n]);
    FailedRows(db, cfg, view, n, w, stage);
    hide FailedAfter, DeltaOf, PlacedEvidence;
    forall k | k in failed.evidence ensures failed.evidence[k].block in failed.blocks {
      if k in db.evidence {
        BlockNumberKept(db.evidence, d.evidence, n, k);
      } else {
        AddedHeight(db.evidence, d.evidence, n, k);
      }
    }
    forall k | k in d.evidence ensures HeightAt(failed.evidence, k, n) == HeightAt(db.evidence, k, n) {
      PlacedRow(db.evidence, d.evidence, n, k);
    }
  }

  lemma AddedHeight(table: map<Key, Evidence>, added: map<Key, Evidence>, n: nat, k: Key)
    requires k !in table
    ensures var t := table + PlacedEvidence(table, added, n); k in t ==> t[k].block == n
  {
  }

  /** On the second attempt the block lands where it landed on the first. */
  lemma LandsAgain(db: Db, cfg: Config, view: View, n: nat, w: Worker, stage: Stage)
    requires n in view && HeightsStored(CoreOf(db))
    ensures var failed := FailedAfter(db, cfg, view[n], stage);
            && HeightsStored(CoreOf(failed))
            && Placed(CoreOf(failed), DeltaOf(cfg, view[n])) == Placed(CoreOf(db), DeltaOf(cfg, view[n]))
  {
    var failed, d := FailedAfter(db, cfg, view[n], stage), DeltaOf(cfg, view[n]);
    FailedRows(db, cfg, view, n, w, stage);
    FailedHeights(db, cfg, view, n, w, stage);
    DeltaRow(cfg, view[n]);
    DeltaKeysAreBlockTxs(cfg, view[n]);
    hide FailedAfter, DeltaOf, PaidAt, Placed, BlockTxs, HeightAt, PlacedEvidence, HeightsStored;
    forall k | k in d.payments ensures PaidAt(CoreOf(db), d, k) == PaidAt(CoreOf(failed), d, k) {
      PaidAtHeight(CoreOf(db), cfg, view, n, k);
      PaidAtHeight(CoreOf(failed), cfg, view, n, k);
    }
    PlacedAlike(CoreOf(db), CoreOf(failed), d);
  }

  /** The second attempt leaves the tables of the first, had it not thrown. */
  lemma CoreAgain(db: Db, cfg: Config, view: View, n: nat, w: Worker, stage: Stage)
    requires n in view && HeightsStored(CoreOf(db))
    ensures CoreOf(Index(FailedAfter(db, cfg, view[n], stage), cfg, view[n])) == CoreOf(Index(db, cfg, view[n]))
  {
    var b, failed := view[n], FailedAfter(db, cfg, view[n], stage);
    var d := DeltaOf(cfg, b);
    hide FailedAfter, DeltaOf, Apply, CoreAt, Index, Placed, HeightsStored, Joinable, PlacedEvidence;
    StoredIsJoinable(CoreOf(db), cfg, b);
    FailedCore(db, cfg, b, w, stage);
    LandsAgain(db, cfg, view, n, w, stage);
    StoredIsJoinable(CoreOf(failed), cfg, b);
    AcceptApplies(db, cfg, b, w);
    AcceptApplies(failed, cfg, b, w);
    ApplyCompletes(CoreOf(db), Placed(CoreOf(db), d), cfg.prices, stage);
    assert CoreOf(Index(db, cfg, b)) == CoreOf(Accept(db, cfg, b, w));
    assert CoreOf(Index(failed, cfg, b)) == CoreOf(Accept(failed, cfg, b, w));
  }

  lemma DaysIgnoreStats(d: Db, stats: map<StatKey, StatsRow>, keys: set<Key>)
    ensures PayerDays(d.(stats := stats), keys) == PayerDays(d, keys)
    ensures PayeeDays(d.(stats := stats), keys) == PayeeDays(d, keys)
  {
  }

  /** Valuing leaves ranges, cursors and daily rows alone. */
  lemma PaidFrame(db: Db, cfg: Config, b: Block)
    ensures var d := Paid(Stored(db, cfg, b), cfg, PromotedOf(cfg, b));
            d.checkpoints == db.checkpoints && d.jobs == db.jobs && d.stats == db.stats
  {
    hide See, Pay, Interact, Convert, TxRows, Persist, PromotedOf, BlockEvidence, BlockCandidates;
  }

  /** Indexing the block again gives the same database, daily rows included. */
  lemma IndexAgain(db: Db, cfg: Config, view: View, n: nat, w: Worker, stage: Stage)
    requires n in view && HeightsStored(CoreOf(db))
    ensures Index(FailedAfter(db, cfg, view[n], stage), cfg, view[n]) == Index(db, cfg, view[n])
  {
    var b, failed := view[n], FailedAfter(db, cfg, view[n], stage);
    var ps := PromotedOf(cfg, b);
    CoreAgain(db, cfg, view, n, w, stage);
    FailedFrame(db, cfg, b, stage);
    IndexIsPaid(db, cfg, b);
    IndexIsPaid(failed, cfg, b);
    PaidFrame(db, cfg, b);
    PaidFrame(failed, cfg, b);
    hide FailedAfter, Index, Stored, PromotedOf, Recompute, HeightsStored, PayerDays, PayeeDays, Paid;
    var d, again := Paid(Stored(db, cfg, b), cfg, ps), Paid(Stored(failed, cfg, b), cfg, ps);
    assert again == d.(stats := failed.stats);
    DaysIgnoreStats(d, failed.stats, Keys(ps));
    RecomputeTwice(d, cfg.prices, AffectedDays(Stored(db, cfg, b), cfg, ps));
  }

  /** A backfill that is not skipped completes the block: the whole database, daily rows and
      cursors included, ends as if the first attempt had not thrown. */
  lemma RetryCompletes(db: Db, cfg: Config, view: View, n: nat, w: Worker, stage: Stage)
    requires n != 0 && n in view && Fetchable(cfg, view[n]) && HeightsStored(CoreOf(db))
    requires Detect(db, cfg.maxReorgDepth, view, view[n], w, true) == Valid
    requires w in db.checkpoints ==> db.checkpoints[w].block < n
    ensures JobStep(FailedAfter(db, cfg, view[n], stage), cfg, view, w, n) == Ok(Accept(db, cfg, view[n], w))
  {
    var failed := FailedAfter(db, cfg, view[n], stage);
    FailedFrame(db, cfg, view[n], stage);
    SameCursorStaysValid(db, failed, cfg, view, n, w);
    IndexAgain(db, cfg, view, n, w, stage);
    hide FailedAfter, Index, Detect, Fetchable, HeightsStored, Recover;
  }

  lemma SameCursorStaysValid(db: Db, other: Db, cfg: Config, view: View, n: nat, w: Worker)
    requires n in view && other.checkpoints == db.checkpoints
    requires Detect(db, cfg.maxReorgDepth, view, view[n], w, true) == Valid
    ensures Detect(other, cfg.maxReorgDepth, view, view[n], w, true) == Valid
  {
    hide Ancestor;
  }

  /** When the throw left anything undone, a backfill completes the block if and only if its cursor
      is absent or below the block; with the cursor at or above the block it is skipped for good. */
  lemma RetryCompletesIff(db: Db, cfg: Config, view: View, n: nat, w: Worker, stage: Stage)
    requires n != 0 && n in view && Fetchable(cfg, view[n]) && HeightsStored(CoreOf(db))
    requires Detect(db, cfg.maxReorgDepth, view, view[n], w, true) == Valid
    requires FailedAfter(db, cfg, view[n], stage) != Index(db, cfg, view[n])
    ensures var retried := JobStep(FailedAfter(db, cfg, view[n], stage), cfg, view, w, n);
            && retried.Ok?
            && (retried.value.(checkpoints := db.checkpoints) == Index(db, cfg, view[n])
                <==> w !in db.checkpoints || db.checkpoints[w].block < n)
  {
    FailedFrame(db, cfg, view[n], stage);
    IndexFrame(db, cfg, view[n]);
    hide FailedAfter, Index, JobStep, HeightsStored, Fetchable, Detect;
    if w !in db.checkpoints || db.checkpoints[w].block < n {
      RetryCompletes(db, cfg, view, n, w, stage);
    } else {
      SkippedUnchanged(db, cfg, view, n, w, stage);
    }
  }

  /** The stored row and the higher cursor are all the skip looks at. */
  lemma SkippedUnchanged(db: Db, cfg: Config, view: View, n: nat, w: Worker, stage: Stage)
    requires n in view && HeightsStored(CoreOf(db))
    requires w in db.checkpoints && db.checkpoints[w].block >= n
    ensures var failed := FailedAfter(db, cfg, view[n], stage);
            JobStep(failed, cfg, view, w, n) == Ok(failed)
  {
    FailedRows(db, cfg, view, n, w, stage);
    hide FailedAfter, Process, DeltaOf, PlacedEvidence, HeightsStored;
  }

  // ------------------------------------------------------------- a lost payment

  const MISSED := Paying(5, "b5", "b4", 0)
  const LATER := Empty(10, "b10", "b9", 50)
  const AHEAD := EMPTY_DB.(blocks := map[10 := BlockRow(Hash("b10"), Hash("b9"), 50, false)],
                           checkpoints := map[BACKFILL_DEFAULT := Checkpoint(10, Hash("b10"), Running)])

  const BEFORE := [] + [Replayed(10, Only(LATER))]

  /** The store after backfilling block 10 into an empty database. */
  lemma AheadIsReached()
    ensures Run(START, SETTINGS, BEFORE).db == AHEAD
  {
    EmptyBlock(10, "b10", "b9", 50);
    NoCandidatesOnlyBlock(EMPTY_DB, SETTINGS, LATER);
    hide Index, BlockCandidates, Fetchable;
    assert Run(START, SETTINGS, []) == START;
    ThenReplayed([], LATER);
  }

  /** From this store a backfill skips block 5 after a throw past the stage, and an undisturbed
      attempt would have indexed it. */
  ghost predicate Loses(db: Db, stage: Stage) {
    var failed := FailedAfter(db, SETTINGS, MISSED, stage);
    && JobStep(failed, SETTINGS, Only(MISSED), BACKFILL_DEFAULT, 5) == Ok(failed)
    && Process(db, SETTINGS, Only(MISSED), 5, BACKFILL_DEFAULT, true)
       == Ok(Accept(db, SETTINGS, MISSED, BACKFILL_DEFAULT))
  }

  lemma AheadLoses(stage: Stage)
    ensures Loses(AHEAD, stage)
  {
    hide FailedAfter, JobStep, Process, Accept;
    NothingStoredIsAtAnyHeight(MISSED);
    SkippedUnchanged(AHEAD, SETTINGS, Only(MISSED), 5, BACKFILL_DEFAULT, stage);
    MissedIsAccepted();
  }

  /** A payment lost for good: after a run that backfilled block 10, block 5 throws once its raw
      rows are stored. The next attempt skips it, so its evidence and its payment, which an
      undisturbed attempt stores, never appear. */
  lemma SkippedBlockLosesPayment()
    ensures var db := Run(START, SETTINGS, BEFORE).db;
            var failed := FailedAfter(db, SETTINGS, MISSED, RawStored);
            var whole := Accept(db, SETTINGS, MISSED, BACKFILL_DEFAULT);
            && Loses(db, RawStored)
            && Key(TX, 0) !in failed.evidence && Key(TX, 0) !in failed.payments
            && Key(TX, 0) in whole.evidence && Key(TX, 0) in whole.payments
  {
    hide Run, Accept, Loses, TxRows, BlockCandidates, BlockEvidence, KeepsHeight, PromotedOf;
    AheadIsReached();
    AheadLoses(RawStored);
    NothingStoredIsAtAnyHeight(MISSED);
    var e := MissedIsPromoted();
    AcceptStoresPromoted(AHEAD, SETTINGS, MISSED, BACKFILL_DEFAULT, e);
  }

  const PAYER_DAY := StatKey(Address("payer"), 0)

  /** A daily row lost for good: block 5 throws once its payment is stored, while prices are fetched,
      and none is known. The next attempt skips it; the payment is there, but the day never gets the
      row that an undisturbed attempt writes. */
  lemma SkippedBlockLosesDailyRow()
    ensures var db := Run(START, SETTINGS, BEFORE).db;
            var failed := FailedAfter(db, SETTINGS, MISSED, DomainDerived);
            var whole := Accept(db, SETTINGS, MISSED, BACKFILL_DEFAULT);
            && Loses(db, DomainDerived)
            && Key(TX, 0) in failed.payments && PAYER_DAY !in failed.stats
            && PAYER_DAY in whole.stats && whole.stats[PAYER_DAY].paymentCount > 0
  {
    hide Run, FailedAfter, Accept, Loses;
    AheadIsReached();
    AheadLoses(DomainDerived);
    DerivedLacksRow();
    WholeHasRow();
  }

  lemma DerivedLacksRow()
    ensures var failed := FailedAfter(AHEAD, SETTINGS, MISSED, DomainDerived);
            Key(TX, 0) in failed.payments && PAYER_DAY !in failed.stats
  {
    FailedFrame(AHEAD, SETTINGS, MISSED, DomainDerived);
    hide FailedAfter;
    DerivedPayment();
  }

  lemma DerivedPayment()
    ensures Key(TX, 0) in FailedAfter(AHEAD, SETTINGS, MISSED, DomainDerived).payments
  {
    NothingStoredIsAtAnyHeight(MISSED);
    PlacedAtHeight(CoreOf(AHEAD), SETTINGS, MISSED);
    FailedCore(AHEAD, SETTINGS, MISSED, BACKFILL_DEFAULT, DomainDerived);
    PayingDelta(5, "b5", "b4", 0);
    hide FailedAfter, KeepsHeight, DeltaOf, Placed, Merge, Paying;
    assert CoreOf(FailedAfter(AHEAD, SETTINGS, MISSED, DomainDerived)).payments
        == MergePayments(map[], DeltaOf(SETTINGS, MISSED).payments);
  }

  lemma WholeHasRow()
    ensures var whole := Accept(AHEAD, SETTINGS, MISSED, BACKFILL_DEFAULT);
            PAYER_DAY in whole.stats && whole.stats[PAYER_DAY].paymentCount > 0
  {
    var whole := Accept(AHEAD, SETTINGS, MISSED, BACKFILL_DEFAULT);
    hide Accept, DeltaOf, KeepsHeight, PromotedOf, Stored, Exact;
    AheadIsExact();
    NoPaymentKeepsDay(AHEAD, SETTINGS, MISSED);
    AcceptKeepsExact(AHEAD, SETTINGS, MISSED, BACKFILL_DEFAULT);
    WholePayment();
    RowOfPayment(whole, Key(TX, 0));
  }

  lemma AheadIsExact()
    ensures Exact(AHEAD)
  {
  }

  lemma NoPaymentKeepsDay(db: Db, cfg: Config, b: Block)
    requires db.payments == map[]
    ensures KeepsPayerAndDay(db, cfg, b)
  {
    hide TxRows, Persist, BlockEvidence, PromotedOf;
  }

  lemma WholePayment()
    ensures var whole := Accept(AHEAD, SETTINGS, MISSED, BACKFILL_DEFAULT);
            Key(TX, 0) in whole.payments && PayerDay(whole.payments[Key(TX, 0)]) == PAYER_DAY
  {
    hide Accept, PromotedOf;
    OneDelta(AHEAD, TRANSFER, 5, "b5", "b4", 0, BACKFILL_DEFAULT);
  }

  /** Where the rows are exact, a payment has the row of its day. */
  lemma RowOfPayment(db: Db, k: Key)
    requires Exact(db) && k in db.payments
    ensures PayerDay(db.payments[k]) in db.stats && db.stats[PayerDay(db.payments[k])].paymentCount > 0
  {
    var key := PayerDay(db.payments[k]);
    assert ExactAt(db.stats, db.payments, key);
    assert k in PaymentsAt(db.payments, key);
  }

  lemma MissedIsAccepted()
    ensures Process(AHEAD, SETTINGS, Only(MISSED), 5, BACKFILL_DEFAULT, true)
         == Ok(Accept(AHEAD, SETTINGS, MISSED, BACKFILL_DEFAULT))
  {
    PayingBlock(5, "b5", "b4", 0);
    hide Process, Accept, Fetchable, BlockEvidence;
    UncomparedIsAccepted(AHEAD, SETTINGS, Only(MISSED), 5, BACKFILL_DEFAULT, true);
  }

  lemma NothingStoredIsAtAnyHeight(b: Block)
    ensures KeepsHeight(AHEAD.evidence, SETTINGS, b) && HeightsStored(CoreOf(AHEAD))
  {
    hide BlockEvidence;
  }

  lemma MissedIsPromoted() returns (e: Evidence)
    ensures e in PromotedOf(SETTINGS, MISSED) && e.key == Key(TX, 0)
  {
    e := PaidEvidence(5);
    PayingBlock(5, "b5", "b4", 0);
    hide BlockEvidence;
    PromotedAreEvidence([e], 60);
  }

  /** An undisturbed attempt stores every promoted piece of evidence and pays it. */
  lemma AcceptStoresPromoted(db: Db, cfg: Config, b: Block, w: Worker, e: Evidence)
    requires KeepsHeight(db.evidence, cfg, b) && e in PromotedOf(cfg, b)
    ensures var whole := Accept(db, cfg, b, w); e.key in whole.evidence && e.key in whole.payments
  {
    hide Accept, BlockEvidence, BlockCandidates, WithPayments, Merge, TxRows, Promoted, EvidenceAdded, PaymentsAdded;
    hide KeepsHeight;
    AcceptAddsAsIs(db, cfg, b, w);
    BlockRowsFit(cfg, b);
    EvidenceAddedRows(BlockEvidence(cfg, b), b.number);
    AddedPaymentRows(PromotedOf(cfg, b), b.time, b.number);
    WithPaymentsAt(db.payments, DeltaOf(cfg, b).payments, cfg.prices, e.key);
    assert e.key in DeltaOf(cfg, b).evidence && e.key in DeltaOf(cfg, b).payments;
    assert CoreOf(Accept(db, cfg, b, w)).evidence == db.evidence + DeltaOf(cfg, b).evidence;
  }
}
