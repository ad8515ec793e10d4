/** Two orders of the same two blocks, one of which never writes what a day earned. */
module LateAgent {
  import opened Types
  import opened Candidates
  import opened Checkpoints
  import opened Domain
  import opened DailyStats
  import opened Aggregates
  import opened Orchestrator
  import opened BlockEffects
  import opened Runs
  import opened StepEffects
  import opened Samples
  import opened SampleRuns
  import opened SampleEffects
  import opened Integrity
  import opened StatsRuns
  import opened Standings
  import opened RevenueStats

  /** Block 10 makes the payer an agent; block 12, two days later, pays that address. */
  const REWARD := Transfer(Hash("reward"), 0, TOKEN, Address("customer"), Address("payer"), 1, true)
  const JOINS := Paying(10, "a10", "a9", 50)
  const EARNS := Moving(REWARD, 12, "a12", "a11", PRICED + 10)
  const EARNING_DAY := StatKey(Address("payer"), 2)

  const JOINED_FIRST := [Replayed(10, Only(JOINS))] + [Replayed(12, Only(EARNS))]
  const EARNED_FIRST := [Replayed(12, Only(EARNS))] + [Replayed(10, Only(JOINS))]

  /** The day is the transfer's, of its payer or of its payee if that is an agent. */
  predicate ItsDay(agents: map<Address, Agent>, t: Transfer, time: nat, key: StatKey) {
    key.day == Day(time) && (key.agent == t.payer || (key.agent == t.payTo && t.payTo in agents))
  }

  /** What a block with one new transfer does to evidence, agents, rows and revenue. */
  lemma AcceptsOne(db: Db, t: Transfer, number: nat, hash: string, parent: string, time: nat, w: Worker)
    requires Sample(t) && Key(t.tx, t.logIndex) !in db.evidence && Key(t.tx, t.logIndex) !in db.payments
    ensures var after := Accept(db, SETTINGS, Moving(t, number, hash, parent, time), w);
            && after.evidence == db.evidence[Key(t.tx, t.logIndex) := MovedEvidence(t, number)]
            && after.blocks == StoreBlock(db.blocks, Moving(t, number, hash, parent, time))
            && after.agents.Keys == db.agents.Keys + {t.payer}
            && after.payments.Keys == db.payments.Keys + {Key(t.tx, t.logIndex)}
            && (forall key :: key in after.stats ==> key in db.stats || ItsDay(after.agents, t, time, key))
            && (forall key :: ItsDay(after.agents, t, time, key) ==>
                  RevenueAt(after.stats, after, SETTINGS.prices, key))
  {
    var b := Moving(t, number, hash, parent, time);
    var s, ps, after := Stored(db, SETTINGS, b), PromotedOf(SETTINGS, b), Accept(db, SETTINGS, b, w);
    var d, days := Paid(s, SETTINGS, ps), AffectedDays(s, SETTINGS, ps);
    OneDelta(db, t, number, hash, parent, time, w);
    AcceptedIsPaid(db, SETTINGS, b, w);
    AcceptRow(db, SETTINGS, b, w);
    assert StoreBlock(db.blocks, b)[number].time == time && number in StoreBlock(db.blocks, b);
    hide Paid, Stored, Accept, Recompute, RevenueAt, PromotedOf, MovedEvidence, PayerDays, PayeeDays, StoreBlock;
    OneDay(d, t, number, time);
    assert forall key :: key in days <==> ItsDay(after.agents, t, time, key);
    hide AffectedDays, ItsDay;
    assert forall key :: key in days ==> key.agent in after.agents by { ItsAgents(after, t, time); }
    OnlyRecomputed(db, d, after, days);
  }

  lemma ItsAgents(db: Db, t: Transfer, time: nat)
    requires t.payer in db.agents
    ensures forall key :: ItsDay(db.agents, t, time, key) ==> key.agent in db.agents
  {
  }

  lemma OnlyRecomputed(db: Db, d: Db, after: Db, days: set<StatKey>)
    requires after == d.(stats := Recompute(d, SETTINGS.prices, days), checkpoints := after.checkpoints)
    requires d.stats == db.stats && forall key :: key in days ==> key.agent in after.agents
    ensures forall key :: key in after.stats ==> key in db.stats || key in days
    ensures forall key :: key in days ==> RevenueAt(after.stats, after, SETTINGS.prices, key)
  {
    hide RevenueAt, SpecRow, SameEarnings;
    forall key | key in days ensures RevenueAt(after.stats, after, SETTINGS.prices, key) {
      RecomputedRevenue(d, SETTINGS.prices, days, key);
      StatsDoNotEarn(after, d, SETTINGS.prices, key);
      SameRevenue(after.stats, after, d, SETTINGS.prices, key);
    }
  }

  lemma OneDay(d: Db, t: Transfer, number: nat, time: nat)
    requires var k := Key(t.tx, t.logIndex);
             && k in d.payments && d.payments[k].payer == t.payer && d.payments[k].time == time
             && k in d.evidence && d.evidence[k] == MovedEvidence(t, number)
             && number in d.blocks && d.blocks[number].time == time
    ensures var k := Key(t.tx, t.logIndex);
            forall key :: key in PayerDays(d, {k}) + PayeeDays(d, {k}) <==> ItsDay(d.agents, t, time, key)
  {
  }

  /** Replayed in the one order the day has its row, in the other it has none although the same blocks
      stand, each transaction is in one block and no row was replaced. */
  lemma EarningsNeverWritten()
    ensures Standing(SETTINGS, JOINED_FIRST) == Standing(SETTINGS, EARNED_FIRST)
    ensures TransactionsStay(SETTINGS, EARNED_FIRST) && NeverReplaces(SETTINGS, EARNED_FIRST)
    ensures DistinctLogs(SETTINGS, EARNED_FIRST)
    ensures EARNING_DAY in Run(START, SETTINGS, JOINED_FIRST).db.stats
    ensures EARNING_DAY !in Run(START, SETTINGS, EARNED_FIRST).db.stats
    ensures !RevenueThroughout(SETTINGS, EARNED_FIRST)
  {
    hide Run, Accept, Standing, RevenueAt, Fetchable, TransactionsStay, NeverReplaces, DistinctLogs;
    MovingBlock(TRANSFER, 10, "a10", "a9", 50);
    MovingBlock(REWARD, 12, "a12", "a11", PRICED + 10);
    OneThenOther(JOINS, EARNS);
    OneThenOther(EARNS, JOINS);
    RowWritten();
    RowMissing();
    var y := Run(START, SETTINGS, EARNED_FIRST).db;
    assert RevenueThroughout(SETTINGS, EARNED_FIRST) ==> RevenueAt(y.stats, y, SETTINGS.prices, EARNING_DAY);
  }

  lemma RowWritten()
    ensures var once := Accept(EMPTY_DB, SETTINGS, JOINS, BACKFILL_DEFAULT);
            EARNING_DAY in Accept(once, SETTINGS, EARNS, BACKFILL_DEFAULT).stats
  {
    hide Accept, RevenueAt, BlockEvidence;
    var once := Accept(EMPTY_DB, SETTINGS, JOINS, BACKFILL_DEFAULT);
    AcceptsOne(EMPTY_DB, TRANSFER, 10, "a10", "a9", 50, BACKFILL_DEFAULT);
    AcceptsOne(once, REWARD, 12, "a12", "a11", PRICED + 10, BACKFILL_DEFAULT);
    var twice := Accept(once, SETTINGS, EARNS, BACKFILL_DEFAULT);
    assert ItsDay(twice.agents, REWARD, PRICED + 10, EARNING_DAY);
    OwesRow(twice);
  }

  lemma RowMissing()
    ensures var once := Accept(EMPTY_DB, SETTINGS, EARNS, BACKFILL_DEFAULT);
            var db := Accept(once, SETTINGS, JOINS, BACKFILL_DEFAULT);
            EARNING_DAY !in db.stats && !RevenueAt(db.stats, db, SETTINGS.prices, EARNING_DAY)
  {
    hide Accept, RevenueAt, BlockEvidence;
    var once := Accept(EMPTY_DB, SETTINGS, EARNS, BACKFILL_DEFAULT);
    AcceptsOne(EMPTY_DB, REWARD, 12, "a12", "a11", PRICED + 10, BACKFILL_DEFAULT);
    AcceptsOne(once, TRANSFER, 10, "a10", "a9", 50, BACKFILL_DEFAULT);
    var twice := Accept(once, SETTINGS, JOINS, BACKFILL_DEFAULT);
    assert !ItsDay(once.agents, REWARD, PRICED + 10, EARNING_DAY);
    assert !ItsDay(twice.agents, TRANSFER, 50, EARNING_DAY);
    OwesRow(twice);
  }

  /** With the evidence stored and the payee an agent, exact revenue needs a row. */
  lemma OwesRow(db: Db)
    requires Key(REWARD.tx, 0) in db.evidence && db.evidence[Key(REWARD.tx, 0)] == MovedEvidence(REWARD, 12)
    requires 12 in db.blocks && db.blocks[12] == HeaderRow(EARNS) && Address("payer") in db.agents
    ensures RevenueAt(db.stats, db, SETTINGS.prices, EARNING_DAY) ==> EARNING_DAY in db.stats
  {
    assert Key(REWARD.tx, 0) in RevenueKeys(db, SETTINGS.prices, EARNING_DAY);
  }

  /** Two replayed blocks, neither compared with anything, with nothing in common. */
  lemma OneThenOther(first: Block, second: Block)
    requires first.number != 0 && second.number != 0 && second.number != first.number + 1
    requires Fetchable(SETTINGS, first) && Fetchable(SETTINGS, second)
    requires first.number != second.number && first.hash != second.hash && BlockTxs(first) !! BlockTxs(second)
    requires LogsDistinct(first) && LogsDistinct(second)
    ensures var acts := [Replayed(first.number, Only(first))] + [Replayed(second.number, Only(second))];
            && Run(START, SETTINGS, acts).db
               == Accept(Accept(EMPTY_DB, SETTINGS, first, BACKFILL_DEFAULT), SETTINGS, second, BACKFILL_DEFAULT)
            && Standing(SETTINGS, acts) == {first, second}
            && TransactionsStay(SETTINGS, acts) && NeverReplaces(SETTINGS, acts) && DistinctLogs(SETTINGS, acts)
  {
    hide Accept, Fetchable, EffectOf, BlockTxs, LogsDistinct;
    var none: seq<Action>, one := [], [Replayed(first.number, Only(first))];
    assert Run(START, SETTINGS, none) == START && none + one == one;
    ThenReplayed(none, first);
    AcceptRow(EMPTY_DB, SETTINGS, first, BACKFILL_DEFAULT);
    ThenReplayed(one, second);
    StandsToo(none, first);
    StandsToo(one, second);
  }

  /** A replayed block that is accepted stands, and breaks no rule if it has nothing in common with the rest. */
  lemma StandsToo(acts: seq<Action>, b: Block)
    requires b.number != 0 && Fetchable(SETTINGS, b) && LogsDistinct(b)
    requires var last := Last(Run(START, SETTINGS, acts).db.checkpoints, BACKFILL_DEFAULT);
             last.None? || b.number != last.value.block + 1
    requires TransactionsStay(SETTINGS, acts) && NeverReplaces(SETTINGS, acts) && DistinctLogs(SETTINGS, acts)
    requires KeepsTransactions(Standing(SETTINGS, acts), b)
    requires KeepsHash(Run(START, SETTINGS, acts).db.blocks, Standing(SETTINGS, acts), b)
    ensures var all := acts + [Replayed(b.number, Only(b))];
            && Standing(SETTINGS, all) == Standing(SETTINGS, acts) + {b}
            && TransactionsStay(SETTINGS, all) && NeverReplaces(SETTINGS, all) && DistinctLogs(SETTINGS, all)
  {
    hide Run, Fetchable, KeepsTransactions, KeepsHash, LogsDistinct;
    var all := acts + [Replayed(b.number, Only(b))];
    assert all[..|all| - 1] == acts;
  }
}
