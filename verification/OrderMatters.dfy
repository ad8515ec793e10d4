/** Reachable stores from which the order of a backfill shows, one for each half of the condition
    under which it does not. */
module OrderMatters {
  import opened Types
  import opened Candidates
  import opened Domain
  import opened Orchestrator
  import opened BackfillWorkers
  import opened BlockEffects
  import opened Confluence
  import opened Runs
  import opened Samples
  import opened SampleRuns
  import opened Integrity
  import opened BackfillOrder

  /** The row the first head leaves, and the state of its cursors. */
  lemma FirstHeadRows(b: Block, chain: View, n: nat)
    requires b.number != 0 && Fetchable(SETTINGS, b) && n != 0
    ensures var db := Run(START, SETTINGS, [Head(b.number, Only(b))]).db;
            && db == Accept(EMPTY_DB, SETTINGS, b, Realtime)
            && db.blocks == map[b.number := HeaderRow(b)]
            && HeightsStored(CoreOf(db))
            && OnChain(db, chain, BACKFILL_DEFAULT)
            && !AlreadyProcessed(db, BACKFILL_DEFAULT, n)
  {
    FirstHead(b);
    AcceptedRows(EMPTY_DB, SETTINGS, b, Realtime);
    hide Run, Accept, Fetchable;
    AcceptKeepsStored(EMPTY_DB, SETTINGS, b, Realtime);
  }

  // --------------------------------------------------- a skipped payment

  const UNPAID := Empty(10, "a10", "a9", 50)
  const PAYING_FORK: View := map[10 := Paying(10, "b10", "b9", 60), 12 := Empty(12, "b12", "b11", 70)]

  /** The realtime worker has indexed a block 10 without the payment. Backfilling the other fork from
      block 10 on stores its payment; meeting block 12 first moves the cursor past the live block 10,
      which is then skipped and its payment lost. The start is settled, so pipeline steps alone would
      end alike: it is the skip that makes the order matter. */
  lemma SkipLosesPayment()
    ensures var db := Run(START, SETTINGS, [Head(10, Only(UNPAID))]).db;
            var first, last := LoopAll(db, SETTINGS, PAYING_FORK, BACKFILL_DEFAULT, [10, 12]),
                               LoopAll(db, SETTINGS, PAYING_FORK, BACKFILL_DEFAULT, [12, 10]);
            && first.Ok? && Key(TX, 0) in first.value.payments
            && last.Ok? && Key(TX, 0) !in last.value.payments
            && Settled(CoreOf(db), SETTINGS, PAYING_FORK)
  {
    hide Run, Accept, Fetchable, LoopAll, Canonical, OnChain, HeightsStored, AlreadyProcessed, Settled, After;
    hide BlockCandidates, BlockEvidence;
    EmptyBlock(10, "a10", "a9", 50);
    FirstHeadRows(UNPAID, PAYING_FORK, 10);
    FirstHeadRows(UNPAID, PAYING_FORK, 12);
    PayingForkIsCanonical();
    NothingStoredBy(UNPAID);
    var db := Run(START, SETTINGS, [Head(10, Only(UNPAID))]).db;
    PairOfTen(db);
    AddsPayment(CoreOf(db));
    AddsNone(CoreOf(db));
    AddsNone(After(CoreOf(db), SETTINGS, PAYING_FORK, 10));
  }

  lemma PayingForkIsCanonical()
    ensures Canonical(PAYING_FORK)
  {
    assert BlockTxs(PAYING_FORK[12]) == {};
  }

  lemma NothingStoredBy(b: Block)
    requires b == UNPAID
    ensures var db := Accept(EMPTY_DB, SETTINGS, b, Realtime);
            db.payments == map[] && Settled(CoreOf(db), SETTINGS, PAYING_FORK)
  {
    EmptyBlock(10, "a10", "a9", 50);
    NoCandidatesOnlyBlock(EMPTY_DB, SETTINGS, b);
    hide Index, DeltaOf;
  }

  lemma PairOfTen(db: Db)
    requires Canonical(PAYING_FORK) && OnChain(db, PAYING_FORK, BACKFILL_DEFAULT) && HeightsStored(CoreOf(db))
    requires db.blocks == map[10 := HeaderRow(UNPAID)]
    requires !AlreadyProcessed(db, BACKFILL_DEFAULT, 10) && !AlreadyProcessed(db, BACKFILL_DEFAULT, 12)
    ensures 10 in PAYING_FORK && 12 in PAYING_FORK
    ensures var c := CoreOf(db);
            var first, last := LoopAll(db, SETTINGS, PAYING_FORK, BACKFILL_DEFAULT, [10, 12]),
                               LoopAll(db, SETTINGS, PAYING_FORK, BACKFILL_DEFAULT, [12, 10]);
            && first.Ok? && CoreOf(first.value) == After(After(c, SETTINGS, PAYING_FORK, 10), SETTINGS, PAYING_FORK, 12)
            && last.Ok? && CoreOf(last.value) == After(c, SETTINGS, PAYING_FORK, 12)
  {
    hide LoopAll, After, Canonical, OnChain, HeightsStored, AlreadyProcessed;
    LoopTwo(db, SETTINGS, PAYING_FORK, BACKFILL_DEFAULT, 10, 12);
    LoopTwo(db, SETTINGS, PAYING_FORK, BACKFILL_DEFAULT, 12, 10);
  }

  lemma AddsPayment(c: Core)
    ensures 10 in PAYING_FORK && Key(TX, 0) in After(c, SETTINGS, PAYING_FORK, 10).payments
  {
    PayingDelta(10, "b10", "b9", 60);
    hide DeltaOf, WithPayments, Merge, PlacedEvidence;
    var d := DeltaOf(SETTINGS, PAYING_FORK[10]);
    WithPaymentsAt(c.payments, Placed(c, d).payments, SETTINGS.prices, Key(TX, 0));
  }

  lemma AddsNone(c: Core)
    ensures 12 in PAYING_FORK
    ensures Key(TX, 0) in After(c, SETTINGS, PAYING_FORK, 12).payments <==> Key(TX, 0) in c.payments
  {
    var d := DeltaOf(SETTINGS, PAYING_FORK[12]);
    DeltaKeysAreBlockTxs(SETTINGS, PAYING_FORK[12]);
    hide DeltaOf, WithPayments, Merge, PlacedEvidence;
    WithPaymentsAt(c.payments, Placed(c, d).payments, SETTINGS.prices, Key(TX, 0));
  }

  // ------------------------------------------------- a shifted timestamp

  /** Another fork: block 10 without the payment, at another time, and the payment in block 12. */
  const LATE_FORK: View := map[10 := Empty(10, "b10", "b9", 60), 12 := Paying(12, "b12", "b11", 70)]

  /** The realtime worker has indexed the payment in block 10 of one fork; backfilling blocks 10 and
      12 of the other gives the payment the time of whichever row of block 10 it meets. */
  lemma OrderShows()
    ensures var db := Run(START, SETTINGS, [Head(10, Only(FIRST))]).db;
            var first, last := LoopAll(db, SETTINGS, LATE_FORK, BACKFILL_DEFAULT, [10, 12]),
                               LoopAll(db, SETTINGS, LATE_FORK, BACKFILL_DEFAULT, [12, 10]);
            && first.Ok? && Key(TX, 0) in first.value.payments && first.value.payments[Key(TX, 0)].time == 60
            && last.Ok? && Key(TX, 0) in last.value.payments && last.value.payments[Key(TX, 0)].time == 50
  {
    hide Run, Accept, Fetchable, LoopAll, Canonical, OnChain, HeightsStored, AlreadyProcessed, Settled, After;
    hide BlockCandidates, BlockEvidence;
    PayingBlock(10, "a10", "a9", 50);
    FirstHeadRows(FIRST, LATE_FORK, 10);
    FirstHeadRows(FIRST, LATE_FORK, 12);
    LateForkIsCanonical();
    StoredByFirst();
    var db := Run(START, SETTINGS, [Head(10, Only(FIRST))]).db;
    LatePair(db);
  }

  lemma LateForkIsCanonical()
    ensures Canonical(LATE_FORK)
  {
    assert BlockTxs(LATE_FORK[10]) == {};
  }

  lemma StoredByFirst()
    ensures var db := Accept(EMPTY_DB, SETTINGS, FIRST, Realtime);
            Key(TX, 0) in db.evidence && db.evidence[Key(TX, 0)].block == 10
  {
    hide Accept, DeltaOf;
    PayingDelta(10, "a10", "a9", 50);
    AcceptedRow(EMPTY_DB, SETTINGS, FIRST, Realtime, Key(TX, 0));
  }

  lemma LatePair(db: Db)
    requires Canonical(LATE_FORK) && OnChain(db, LATE_FORK, BACKFILL_DEFAULT) && HeightsStored(CoreOf(db))
    requires db.blocks == map[10 := HeaderRow(FIRST)]
    requires !AlreadyProcessed(db, BACKFILL_DEFAULT, 10) && !AlreadyProcessed(db, BACKFILL_DEFAULT, 12)
    requires Key(TX, 0) in db.evidence && db.evidence[Key(TX, 0)].block == 10
    ensures var first, last := LoopAll(db, SETTINGS, LATE_FORK, BACKFILL_DEFAULT, [10, 12]),
                               LoopAll(db, SETTINGS, LATE_FORK, BACKFILL_DEFAULT, [12, 10]);
            && first.Ok? && Key(TX, 0) in first.value.payments && first.value.payments[Key(TX, 0)].time == 60
            && last.Ok? && Key(TX, 0) in last.value.payments && last.value.payments[Key(TX, 0)].time == 50
  {
    hide LoopAll, Apply, Contribution, Canonical, OnChain, HeightsStored, AlreadyProcessed, DeltaOf;
    var c, k := CoreOf(db), Key(TX, 0);
    LoopTwo(db, SETTINGS, LATE_FORK, BACKFILL_DEFAULT, 10, 12);
    LoopTwo(db, SETTINGS, LATE_FORK, BACKFILL_DEFAULT, 12, 10);
    PayingDelta(12, "b12", "b11", 70);
    PaidTime(c, SETTINGS, LATE_FORK, 12, k);
    OtherBlockLeaves(c, SETTINGS, LATE_FORK, 10, 12, k);
    DeltaRow(SETTINGS, LATE_FORK[10]);
    KeepsHeightsStored(c, SETTINGS, LATE_FORK, 10);
    PaidTime(After(c, SETTINGS, LATE_FORK, 10), SETTINGS, LATE_FORK, 12, k);
  }
}
