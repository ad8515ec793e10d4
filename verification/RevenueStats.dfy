/** The revenue column of the daily rows: what the days of an agent earned as a payee. */
module RevenueStats {
  import opened Types
  import opened ReorgRecovery
  import opened Candidates
  import opened Domain
  import opened DailyStats
  import opened Aggregates
  import opened Orchestrator
  import opened BlockEffects
  import opened BlockTables
  import opened Confluence
  import opened RealtimeWorkers
  import opened Runs
  import opened StepEffects
  import opened Integrity
  import opened StatsRuns
  import opened Standings

  ghost function Revenue(db: Db, prices: map<Bucket, real>, key: StatKey): real {
    RevenueOver(db, prices, RevenueKeys(db, prices, key))
  }

  /** A row is an agent's and has its revenue; an agent's day without a row has earned nothing. */
  ghost predicate RevenueAt(stats: map<StatKey, StatsRow>, db: Db, prices: map<Bucket, real>, key: StatKey) {
    if key in stats then key.agent in db.agents && stats[key].revenue == Revenue(db, prices, key)
    else key.agent in db.agents ==> RevenueKeys(db, prices, key) == {}
  }

  ghost predicate RevenueExact(db: Db, prices: map<Bucket, real>) {
    forall key :: RevenueAt(db.stats, db, prices, key)
  }

  /** The evidence that counts as revenue, and the agents, are the same. */
  ghost predicate SameEarnings(x: Db, y: Db, prices: map<Bucket, real>, key: StatKey) {
    && (key.agent in x.agents <==> key.agent in y.agents)
    && RevenueKeys(x, prices, key) == RevenueKeys(y, prices, key)
    && forall k :: k in RevenueKeys(x, prices, key) ==> x.evidence[k] == y.evidence[k] && TimeOf(x, k) == TimeOf(y, k)
  }

  lemma SameRevenue(stats: map<StatKey, StatsRow>, x: Db, y: Db, prices: map<Bucket, real>, key: StatKey)
    requires SameEarnings(x, y, prices, key)
    ensures RevenueAt(stats, x, prices, key) <==> RevenueAt(stats, y, prices, key)
  {
    OverAlike(x, y, prices, RevenueKeys(x, prices, key));
  }

  lemma OverAlike(x: Db, y: Db, prices: map<Bucket, real>, ks: set<Key>)
    requires forall k :: k in ks ==>
               Counted(x, k) && Counted(y, k) && x.evidence[k] == y.evidence[k] && TimeOf(x, k) == TimeOf(y, k)
    ensures RevenueOver(x, prices, ks) == RevenueOver(y, prices, ks)
  {
    assert RevenueMap(x, prices, ks) == RevenueMap(y, prices, ks);
  }

  lemma {:induction false} OverUnion(db: Db, prices: map<Bucket, real>, a: set<Key>, b: set<Key>)
    requires a !! b && forall k :: k in b ==> Counted(db, k) && AssetHour(db, k) in prices
    ensures RevenueOver(db, prices, a + b) == RevenueOver(db, prices, a) + RevenueOver(db, prices, b)
    decreases |b|
  {
    hide RevenueOver;
    if b == {} {
      assert a + b == a;
      NothingOver(db, prices);
    } else {
      var k :| k in b;
      var rest := b - {k};
      OverUnion(db, prices, a, rest);
      RevenueGrows(db, prices, a + rest, k);
      RevenueGrows(db, prices, rest, k);
      assert a + b == a + rest + {k} && b == rest + {k};
    }
  }

  /** A recomputed row has the revenue of its day. */
  lemma RecomputedRevenue(d: Db, prices: map<Bucket, real>, days: set<StatKey>, key: StatKey)
    requires key in days && key.agent in d.agents
    ensures RevenueAt(Recompute(d, prices, days), d, prices, key)
  {
    hide PaidKeys, RevenueKeys, RevenueOver, GasMap, UsdMap, ServicesOf, TxsOf;
  }

  // --------------------------------------------------------------- accept

  /** Evidence that counts keeps counting, with the same values and the same time. */
  ghost predicate EarningsStay(before: Db, after: Db) {
    && before.agents.Keys <= after.agents.Keys
    && forall k :: Counted(before, k) ==>
         Counted(after, k) && after.evidence[k] == before.evidence[k] && TimeOf(after, k) == TimeOf(before, k)
  }

  /** What an agent's day newly earns: by new evidence, or because its address only now is an agent. */
  ghost function NewlyEarned(before: Db, after: Db, prices: map<Bucket, real>, key: StatKey): set<Key> {
    RevenueKeys(after, prices, key) - (if key.agent in before.agents then RevenueKeys(before, prices, key) else {})
  }

  /** A day that is not recomputed may newly earn only what adds nothing to its row. */
  ghost predicate EarnsNothing(before: Db, after: Db, prices: map<Bucket, real>, key: StatKey) {
    key.agent in after.agents ==>
      if key in before.stats then RevenueOver(after, prices, NewlyEarned(before, after, prices, key)) == 0.0
      else NewlyEarned(before, after, prices, key) == {}
  }

  lemma UntouchedDayIff(before: Db, after: Db, prices: map<Bucket, real>, key: StatKey)
    requires RevenueAt(before.stats, before, prices, key) && EarningsStay(before, after)
    ensures RevenueAt(before.stats, after, prices, key) <==> EarnsNothing(before, after, prices, key)
  {
    hide RevenueOver;
    if key.agent in before.agents {
      var had, has := RevenueKeys(before, prices, key), RevenueKeys(after, prices, key);
      forall k | k in had ensures k in has {
      }
      var gained := NewlyEarned(before, after, prices, key);
      assert has == had + gained;
      OverAlike(before, after, prices, had);
      OverUnion(after, prices, had, gained);
    }
  }

  /** The condition for a block. */
  ghost predicate RecountsEarnings(db: Db, cfg: Config, b: Block) {
    var s, ps := Stored(db, cfg, b), PromotedOf(cfg, b);
    forall key :: key !in AffectedDays(s, cfg, ps) ==> EarnsNothing(db, Paid(s, cfg, ps), cfg.prices, key)
  }

  ghost predicate PayersAreAgents(db: Db) {
    forall k :: k in db.payments ==> db.payments[k].payer in db.agents
  }

  lemma DaysAreAgents(d: Db, keys: set<Key>)
    requires PayersAreAgents(d)
    ensures forall key :: key in PayerDays(d, keys) + PayeeDays(d, keys) ==> key.agent in d.agents
  {
  }

  lemma RecomputeRevenueIff(db: Db, d: Db, prices: map<Bucket, real>, days: set<StatKey>)
    requires RevenueExact(db, prices) && EarningsStay(db, d) && d.stats == db.stats
    requires forall key :: key in days ==> key.agent in d.agents
    ensures (forall key :: RevenueAt(Recompute(d, prices, days), d, prices, key))
            <==> (forall key :: key !in days ==> EarnsNothing(db, d, prices, key))
  {
    var stats := Recompute(d, prices, days);
    hide EarningsStay, EarnsNothing, Revenue, RevenueKeys, SpecRow;
    forall key
      ensures RevenueAt(stats, d, prices, key) <==> (key !in days ==> EarnsNothing(db, d, prices, key))
    {
      if key in days {
        RecomputedRevenue(d, prices, days, key);
      } else {
        assert RevenueAt(db.stats, db, prices, key);
        UntouchedDayIff(db, d, prices, key);
        assert key in stats <==> key in db.stats;
      }
    }
  }

  lemma SameTablesSameRevenue(x: Db, y: Db, prices: map<Bucket, real>)
    requires SameTables(x, y)
    ensures RevenueExact(x, prices) <==> RevenueExact(y, prices)
  {
    hide RevenueAt;
    forall key ensures RevenueAt(x.stats, x, prices, key) <==> RevenueAt(y.stats, y, prices, key) {
      StatsDoNotEarn(x, y, prices, key);
      SameRevenue(x.stats, x, y, prices, key);
    }
  }

  lemma StatsDoNotEarn(x: Db, y: Db, prices: map<Bucket, real>, key: StatKey)
    requires x.evidence == y.evidence && x.blocks == y.blocks && x.agents == y.agents
    ensures SameEarnings(x, y, prices, key)
  {
    assert RevenueKeys(x, prices, key) == RevenueKeys(y, prices, key);
  }

  /** A block that changes no stored evidence keeps the revenue exact if and only if no day it does not
      recompute newly earns anything. */
  lemma AcceptKeepsRevenueIff(db: Db, cfg: Config, b: Block, w: Worker)
    requires RevenueExact(db, cfg.prices) && EarningsStay(db, Accept(db, cfg, b, w))
    requires PayersAreAgents(Accept(db, cfg, b, w))
    ensures RevenueExact(Accept(db, cfg, b, w), cfg.prices) <==> RecountsEarnings(db, cfg, b)
  {
    var s, ps := Stored(db, cfg, b), PromotedOf(cfg, b);
    var d, days, after := Paid(s, cfg, ps), AffectedDays(s, cfg, ps), Accept(db, cfg, b, w);
    AcceptedIsPaid(db, cfg, b, w);
    hide Paid, PromotedOf, Stored, Accept, RevenueAt, EarnsNothing, Recompute, PayerDays, PayeeDays;
    DaysAreAgents(d, Keys(ps));
    assert forall key :: key in days ==> key.agent in d.agents;
    hide AffectedDays;
    RecomputeRevenueIff(db, d, cfg.prices, days);
    RowsOnlyIff(after, d, cfg.prices, Recompute(d, cfg.prices, days));
  }

  lemma RowsOnlyIff(after: Db, d: Db, prices: map<Bucket, real>, stats: map<StatKey, StatsRow>)
    requires after == d.(stats := stats, checkpoints := after.checkpoints)
    ensures RevenueExact(after, prices) <==> forall key :: RevenueAt(stats, d, prices, key)
  {
    hide RevenueAt, SameEarnings;
    forall key ensures RevenueAt(stats, after, prices, key) <==> RevenueAt(stats, d, prices, key) {
      StatsDoNotEarn(after, d, prices, key);
      SameRevenue(stats, after, d, prices, key);
    }
  }

  lemma AcceptedIsPaid(db: Db, cfg: Config, b: Block, w: Worker)
    ensures var s, ps, after := Stored(db, cfg, b), PromotedOf(cfg, b), Accept(db, cfg, b, w);
            var d := Paid(s, cfg, ps);
            && after == d.(stats := Recompute(d, cfg.prices, AffectedDays(s, cfg, ps)),
                           checkpoints := after.checkpoints)
            && d.stats == db.stats
  {
    IndexIsPaid(db, cfg, b);
    PaidKeepsStats(db, cfg, b);
    hide Paid, PromotedOf, Stored, Index, Recompute, AffectedDays;
  }

  lemma PaidKeepsStats(db: Db, cfg: Config, b: Block)
    ensures Paid(Stored(db, cfg, b), cfg, PromotedOf(cfg, b)).stats == db.stats
  {
    hide Pay, See, Interact, Convert, Persist, TxRows, PromotedOf, BlockEvidence, BlockCandidates;
  }

  // -------------------------------------------------------------- recovery

  lemma RecoverKeepsRevenue(db: Db, cfg: Config, view: View, current: nat, a: nat, w: Worker)
    requires RevenueExact(db, cfg.prices) && PayersAreAgents(db) && a in view
    ensures RevenueExact(Recover(db, cfg, view, current, a, w), cfg.prices)
  {
    hide Recompute, RevenueAt, SameEarnings;
    var orphaned := db.(blocks := Orphan(db.blocks, a));
    var lost := LostPayerDays(orphaned, a) + LostPayeeDays(orphaned, a);
    var d := WithoutDomainAbove(orphaned, a).(stats := db.stats - lost);
    var clean, after := d.(stats := Recompute(d, cfg.prices, lost)), Recover(db, cfg, view, current, a, w);
    forall key ensures RevenueAt(clean.stats, clean, cfg.prices, key) {
      StatsDoNotEarn(clean, d, cfg.prices, key);
      SameRevenue(clean.stats, clean, d, cfg.prices, key);
      if key in lost {
        RecomputedRevenue(d, cfg.prices, lost, key);
      } else {
        assert RevenueAt(db.stats, db, cfg.prices, key);
        UnlostDay(db, orphaned, d, cfg.prices, a, key);
        UnlostRow(db, d, cfg.prices, lost, key);
      }
    }
    SameTablesSameRevenue(clean, after, cfg.prices);
  }

  /** A day that loses no revenue of an agent. */
  lemma UnlostDay(db: Db, orphaned: Db, d: Db, prices: map<Bucket, real>, a: nat, key: StatKey)
    requires orphaned == db.(blocks := Orphan(db.blocks, a))
    requires d.blocks == orphaned.blocks && d.evidence == EvidenceUpTo(db.evidence, a) && d.agents == db.agents
    requires key !in LostPayeeDays(orphaned, a)
    ensures key.agent in db.agents ==> SameEarnings(d, db, prices, key)
    ensures key.agent !in d.agents <==> key.agent !in db.agents
  {
    if key.agent in db.agents {
      forall k ensures k in RevenueKeys(d, prices, key) <==> k in RevenueKeys(db, prices, key) {
      }
    }
  }

  lemma UnlostRow(db: Db, d: Db, prices: map<Bucket, real>, lost: set<StatKey>, key: StatKey)
    requires key !in lost && d.stats == db.stats - lost && RevenueAt(db.stats, db, prices, key)
    requires key.agent in db.agents ==> SameEarnings(d, db, prices, key)
    requires key.agent !in d.agents <==> key.agent !in db.agents
    ensures RevenueAt(Recompute(d, prices, lost), d, prices, key)
  {
    hide SpecRow, Revenue, RevenueKeys;
    if key.agent in db.agents {
      SameRevenue(db.stats, d, db, prices, key);
    }
    assert key in Recompute(d, prices, lost) <==> key in db.stats;
  }

  // ------------------------------------------------------------------ runs

  /** No accepted block of the run earns an agent something on a day it does not recompute: neither by
      evidence below the threshold nor by making the payee of older evidence an agent. */
  ghost predicate EarningsRecounted(cfg: Config, acts: seq<Action>) {
    acts != [] ==>
      var earlier, a := acts[..|acts| - 1], acts[|acts| - 1];
      var s := Run(START, cfg, earlier);
      var e := EffectOf(s, cfg, a);
      EarningsRecounted(cfg, earlier) && (e.Accepted? ==> RecountsEarnings(ReadyFor(s, a), cfg, e.block))
  }

  ghost predicate RevenueThroughout(cfg: Config, acts: seq<Action>) {
    RevenueExact(Run(START, cfg, acts).db, cfg.prices)
    && (acts != [] ==> RevenueThroughout(cfg, acts[..|acts| - 1]))
  }

  /** A live row that the block writes again is its own. */
  lemma StandingRowStays(rows: map<nat, BlockRow>, blocks: set<Block>, b: Block)
    requires RowsStand(rows, blocks) && KeepsHash(rows, blocks, b)
    ensures forall n: nat :: Live(rows, n) ==> StoreBlock(rows, b)[n] == rows[n]
  {
    if Live(rows, b.number) {
      assert RowFrom(blocks, b.number, rows[b.number]);
    }
  }

  lemma StandingEarningsStay(db: Db, cfg: Config, b: Block, w: Worker, blocks: set<Block>)
    requires Mirrors(db, cfg, blocks) && KeepsTransactions(blocks, b)
    requires RowsStand(db.blocks, blocks) && KeepsHash(db.blocks, blocks, b)
    ensures EarningsStay(db, Accept(db, cfg, b, w))
  {
    var after := Accept(db, cfg, b, w);
    StandingEvidenceStays(db, cfg, b, w, blocks);
    AcceptRow(db, cfg, b, w);
    StandingRowStays(db.blocks, blocks, b);
    hide Accept, Mirrors, KeepsTransactions, RowsStand, KeepsHash, StoreBlock;
    forall k | Counted(db, k)
      ensures Counted(after, k) && after.evidence[k] == db.evidence[k] && TimeOf(after, k) == TimeOf(db, k)
    {
      assert Live(db.blocks, db.evidence[k].block);
    }
  }

  lemma StandingEvidenceStays(db: Db, cfg: Config, b: Block, w: Worker, blocks: set<Block>)
    requires Mirrors(db, cfg, blocks) && KeepsTransactions(blocks, b)
    ensures var after := Accept(db, cfg, b, w);
            && db.agents.Keys <= after.agents.Keys
            && forall k :: k in db.evidence ==> k in after.evidence && after.evidence[k] == db.evidence[k]
  {
    var d, after := DeltaOf(cfg, b), Accept(db, cfg, b, w);
    hide Accept, WithPayments, Mirrors, KeepsTransactions, KeepsHeight, BlockTxs, Apply, DeltaOf, PaymentsOf;
    OwnHeight(db, cfg, blocks, b);
    AcceptAddsAsIs(db, cfg, b, w);
    AddedTables(CoreOf(db), CoreOf(after), d, cfg.prices);
    AgentsGrow(CoreOf(db), d, cfg.prices);
    DeltaKeysAreBlockTxs(cfg, b);
    OwnRows(db, cfg, blocks, b);
    assert EvidenceTable(cfg)(b) == d.evidence;
    assert CoreOf(after).evidence == db.evidence + d.evidence;
  }

  lemma AgentsGrow(c: Core, d: Delta, prices: map<Bucket, real>)
    ensures c.agents.Keys <= Apply(c, d, prices).agents.Keys
  {
    hide WithPayments;
  }

  lemma StepKeepsRevenueIff(s: System, cfg: Config, a: Action, blocks: set<Block>)
    requires Mirrors(s.db, cfg, blocks) && RowsStand(s.db.blocks, blocks) && RevenueExact(s.db, cfg.prices)
    requires PayersAreAgents(s.db) && PayersAreAgents(Step(s, cfg, a).db)
    requires var e := EffectOf(s, cfg, a);
             e.Accepted? ==> KeepsTransactions(blocks, e.block) && KeepsHash(s.db.blocks, blocks, e.block)
    ensures var e := EffectOf(s, cfg, a);
            RevenueExact(Step(s, cfg, a).db, cfg.prices)
            <==> (e.Accepted? ==> RecountsEarnings(ReadyFor(s, a), cfg, e.block))
  {
    hide Step, EffectOf, Accept, Recover, PartlyUndone, Blocked, RevenueExact, Mirrors, RowsStand, KeepsHash;
    hide KeepsTransactions, RecountsEarnings, EarningsStay, HandedOff;
    StepProduces(s, cfg, a);
    var ready, after := ReadyFor(s, a), Step(s, cfg, a).db;
    SameTablesSameRevenue(s.db, ready, cfg.prices);
    ReadyMirrors(s, cfg, a, blocks);
    match EffectOf(s, cfg, a)
    case Untouched => SameTablesSameRevenue(ready, after, cfg.prices);
    case Accepted(b, w) =>
      StandingEarningsStay(ready, cfg, b, w, blocks);
      SameTablesSameRevenue(Accept(ready, cfg, b, w), after, cfg.prices);
      AcceptKeepsRevenueIff(ready, cfg, b, w);
    case Recovered(view, current, ancestor, w) =>
      RecoverKeepsRevenue(ready, cfg, view, current, ancestor, w);
      SameTablesSameRevenue(Recover(ready, cfg, view, current, ancestor, w), after, cfg.prices);
    case Stuck(ancestor) => MirrorsNotBlocked(ready, cfg, blocks, ancestor);
  }

  /** In every interleaving that replaces no row and keeps transactions in their blocks: after every
      step each agent's day has exactly the revenue its standing evidence earned, and a row if it earned
      any, if and only if no block earns an agent something on a day it does not recompute. */
  lemma {:induction false} RunKeepsRevenueIff(cfg: Config, acts: seq<Action>)
    requires TransactionsStay(cfg, acts) && NeverReplaces(cfg, acts) && DistinctLogs(cfg, acts)
    ensures RevenueThroughout(cfg, acts) <==> EarningsRecounted(cfg, acts)
  {
    hide Step, EffectOf, RevenueExact, KeepsTransactions, KeepsHash, LogsDistinct, ReadyFor, RecountsEarnings;
    hide PayersAreAgents;
    if acts == [] {
      NoRevenue(cfg);
    } else {
      var earlier := acts[..|acts| - 1];
      RunKeepsRevenueIff(cfg, earlier);
      if RevenueThroughout(cfg, earlier) {
        RunMirrorsStanding(cfg, earlier);
        RunRowsStand(cfg, earlier);
        StayingPayersAreAgents(cfg, earlier);
        StayingPayersAreAgents(cfg, acts);
        StepKeepsRevenueIff(Run(START, cfg, earlier), cfg, acts[|acts| - 1], Standing(cfg, earlier));
      }
    }
  }

  lemma NoRevenue(cfg: Config)
    ensures RevenueExact(EMPTY_DB, cfg.prices)
  {
  }

  lemma StayingPayersAreAgents(cfg: Config, acts: seq<Action>)
    requires TransactionsStay(cfg, acts) && DistinctLogs(cfg, acts)
    ensures PayersAreAgents(Run(START, cfg, acts).db)
  {
    StayingRunIsSoundAndExact(cfg, acts);
    hide Run, DistinctLogs, TransactionsStay;
    assert SoundThroughout(cfg, acts);
    var db := Run(START, cfg, acts).db;
    forall k | k in db.payments ensures db.payments[k].payer in db.agents {
      assert SoundAt(db, cfg.threshold, k);
    }
  }
}
