/** A run after which a daily row counts a payment of another day. */
module StaleDay {
  import opened Types
  import opened Candidates
  import opened Domain
  import opened DailyStats
  import opened Aggregates
  import opened Orchestrator
  import opened BlockEffects
  import opened Confluence
  import opened Runs
  import opened Samples
  import opened SampleRuns
  import opened SampleEffects
  import opened Integrity
  import opened StatsRuns

  /** Block 10 of another fork, a day later and without the payment, and the payment in block 12. */
  const NEXT_DAY := Empty(10, "b10", "b9", 90000)
  const PAID_LATER := Paying(12, "b12", "b11", 90010)

  const BEGUN := [Head(10, Only(FIRST))]
  const REPLACED := BEGUN + [Replayed(10, Only(NEXT_DAY))]
  const MOVED_DAY := REPLACED + [Replayed(12, Only(PAID_LATER))]

  /** The realtime worker indexes a payment in block 10. The backfill worker then replaces the row of
      block 10 by one of the next UTC day, and meets the payment again in block 12: its evidence stays
      at block 10, so the payment takes the time of the new row and moves to the next day. Only that
      day is recomputed, and the row of the first day still counts the payment. */
  lemma PaymentLeavesItsDay()
    ensures !ExactThroughout(SETTINGS, MOVED_DAY)
  {
    hide Run, Accept, Exact, Fetchable, BlockCandidates, BlockEvidence;
    PayingBlock(10, "a10", "a9", 50);
    EmptyBlock(10, "b10", "b9", 90000);
    PayingBlock(12, "b12", "b11", 90010);
    FirstHead(FIRST);
    ThenReplayed(BEGUN, NEXT_DAY);
    ThenReplayed(REPLACED, PAID_LATER);
    assert MOVED_DAY[..|MOVED_DAY| - 1] == REPLACED;
    var db := Run(START, SETTINGS, REPLACED).db;
    ReplacedRows();
    if Exact(db) {
      NotRecounted(db);
      AcceptKeepsExactIff(db, SETTINGS, PAID_LATER, BACKFILL_DEFAULT);
    }
  }

  ghost predicate Replaced(db: Db) {
    var k := Key(TX, 0);
    && HeightsStored(CoreOf(db))
    && 10 in db.blocks && db.blocks[10].time == 90000
    && k in db.evidence && db.evidence[k].block == 10
    && k in db.payments && PayerDay(db.payments[k]).day == 0
  }

  lemma ReplacedRows()
    ensures Replaced(Accept(Accept(EMPTY_DB, SETTINGS, FIRST, Realtime), SETTINGS, NEXT_DAY, BACKFILL_DEFAULT))
  {
    var first := Accept(EMPTY_DB, SETTINGS, FIRST, Realtime);
    EmptyBlock(10, "b10", "b9", 90000);
    NoCandidatesOnlyBlock(first, SETTINGS, NEXT_DAY);
    FirstPayment();
    hide Index, BlockCandidates, DeltaOf;
    AcceptKeepsStored(EMPTY_DB, SETTINGS, FIRST, Realtime);
  }

  lemma FirstPayment()
    ensures var first, k := Accept(EMPTY_DB, SETTINGS, FIRST, Realtime), Key(TX, 0);
            && k in first.evidence && first.evidence[k].block == 10
            && k in first.payments && first.payments[k].time == 50
  {
    hide Accept, PromotedOf;
    OneDelta(EMPTY_DB, TRANSFER, 10, "a10", "a9", 50, Realtime);
  }

  /** The rows recomputed for one payment, when its own time and its block's time are of one day. */
  lemma OnlyItsDays(d: Db, k: Key, day: int)
    requires k in d.payments && Day(d.payments[k].time) == day
    requires k in d.evidence && d.evidence[k].block in d.blocks ==> Day(d.blocks[d.evidence[k].block].time) == day
    ensures forall key :: key in PayerDays(d, {k}) + PayeeDays(d, {k}) ==> key.day == day
  {
  }

  /** The payment's old day is not among the days recomputed for block 12. */
  lemma NotRecounted(db: Db)
    requires Replaced(db)
    ensures !Recounts(db, SETTINGS, PAID_LATER)
  {
    var k, ps := Key(TX, 0), PromotedOf(SETTINGS, PAID_LATER);
    var s := Stored(db, SETTINGS, PAID_LATER);
    WhatOneAdds(TRANSFER, 12, "b12", "b11", 90010);
    hide Stored, PromotedOf, Paid, PayerDays, PayeeDays, HeightsStored, Keys;
    PaidNextDay(db);
    OnlyItsDays(Paid(s, SETTINGS, ps), k, 1);
    StoredPayments(db);
    assert k in Keys(ps) && k in s.payments;
    assert PayerDay(s.payments[k]) !in AffectedDays(s, SETTINGS, ps);
  }

  lemma StoredPayments(db: Db)
    ensures Stored(db, SETTINGS, PAID_LATER).payments == db.payments
  {
    hide TxRows, Persist, BlockEvidence, BlockCandidates;
  }

  lemma PaidNextDay(db: Db)
    requires Replaced(db)
    ensures var d, k := Paid(Stored(db, SETTINGS, PAID_LATER), SETTINGS, PromotedOf(SETTINGS, PAID_LATER)), Key(TX, 0);
            && k in d.payments && d.payments[k].time == 90000
            && k in d.evidence && d.evidence[k].block == 10
            && 10 in d.blocks && d.blocks[10].time == 90000
  {
    var chain, c := Only(PAID_LATER), CoreOf(db);
    PayingDelta(12, "b12", "b11", 90010);
    IndexIsPaid(db, SETTINGS, PAID_LATER);
    hide Stored, PromotedOf, Paid, AffectedDays, Recompute, Index, DeltaOf, Apply, Contribution;
    AcceptContributes(db, SETTINGS, chain, BACKFILL_DEFAULT, 12);
    PaidTime(c, SETTINGS, chain, 12, Key(TX, 0));
    AcceptedRows(db);
    assert CoreOf(Accept(db, SETTINGS, PAID_LATER, BACKFILL_DEFAULT)) == CoreOf(Index(db, SETTINGS, PAID_LATER));
  }

  lemma AcceptedRows(db: Db)
    ensures Index(db, SETTINGS, PAID_LATER).blocks == StoreBlock(db.blocks, PAID_LATER)
  {
    IndexFrame(db, SETTINGS, PAID_LATER);
    hide Index;
  }
}
