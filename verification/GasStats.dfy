/** The gas column of the daily rows: it also reads transactions, which outlive a fork. */
module GasStats {
  import opened Types
  import opened Sums
  import opened ReorgRecovery
  import opened Candidates
  import opened Domain
  import opened DailyStats
  import opened Orchestrator
  import opened BlockEffects
  import opened BlockTables
  import opened RealtimeWorkers
  import opened Runs
  import opened StepEffects
  import opened Integrity
  import opened StatsRuns
  import opened Standings

  /** The gas of an agent's payments of a day. */
  ghost function GasOf(db: Db, prices: map<Bucket, real>, key: StatKey): real {
    Sum(GasMap(db, prices, PaidKeys(db, key)))
  }

  ghost predicate GasAt(stats: map<StatKey, StatsRow>, db: Db, prices: map<Bucket, real>, key: StatKey) {
    key in stats ==> stats[key].gas == GasOf(db, prices, key)
  }

  ghost predicate GasExact(db: Db, prices: map<Bucket, real>) {
    forall key :: GasAt(db.stats, db, prices, key)
  }

  /** The payments of an agent and day, their times and their transactions are the same. */
  ghost predicate SamePaid(x: Db, y: Db, key: StatKey) {
    && PaidKeys(x, key) == PaidKeys(y, key)
    && forall k :: k in PaidKeys(x, key) ==>
         x.payments[k].time == y.payments[k].time && x.txs[k.tx].detail == y.txs[k.tx].detail
  }

  lemma SameGas(x: Db, y: Db, prices: map<Bucket, real>, key: StatKey)
    requires SamePaid(x, y, key)
    ensures GasOf(x, prices, key) == GasOf(y, prices, key)
  {
    var ks := PaidKeys(x, key);
    forall k | k in ks
      ensures k in x.payments && k.tx in x.txs && k in y.payments && k.tx in y.txs
      ensures GasUsd(x, prices, k) == GasUsd(y, prices, k)
    {
      assert k in PaidKeys(y, key);
    }
    hide GasUsd, PaidKeys;
    assert GasMap(x, prices, ks) == GasMap(y, prices, ks);
  }

  lemma SpecGas(db: Db, prices: map<Bucket, real>, key: StatKey)
    ensures SpecRow(db, prices, key).Some? ==> SpecRow(db, prices, key).value.gas == GasOf(db, prices, key)
  {
    hide PaidKeys, GasMap, RevenueKeys, RevenueOver, UsdMap, ServicesOf, TxsOf;
  }

  lemma RecomputeKeepsGas(d: Db, prices: map<Bucket, real>, days: set<StatKey>, before: Db)
    requires GasExact(before, prices)
    requires forall key :: key !in days ==> SamePaid(d, before, key)
    requires forall key :: key !in days && key in d.stats ==> key in before.stats && d.stats[key] == before.stats[key]
    ensures GasExact(d.(stats := Recompute(d, prices, days)), prices)
  {
    var after := d.(stats := Recompute(d, prices, days));
    hide SamePaid, SpecRow, GasOf;
    forall key ensures GasAt(after.stats, after, prices, key) {
      StatsDoNotMatter(after, d, key);
      SameGas(after, d, prices, key);
      SpecGas(d, prices, key);
      if key !in days {
        SameGas(d, before, prices, key);
        assert GasAt(before.stats, before, prices, key);
      }
    }
  }

  lemma StatsDoNotMatter(x: Db, y: Db, key: StatKey)
    requires x.payments == y.payments && x.txs == y.txs
    ensures SamePaid(x, y, key)
  {
    assert PaidKeys(x, key) == PaidKeys(y, key);
  }

  lemma SameTablesSameGas(x: Db, y: Db, prices: map<Bucket, real>)
    requires SameTables(x, y) && GasExact(x, prices)
    ensures GasExact(y, prices)
  {
    hide GasOf, SamePaid;
    forall key ensures GasAt(y.stats, y, prices, key) {
      assert GasAt(x.stats, x, prices, key);
      StatsDoNotMatter(y, x, key);
      SameGas(y, x, prices, key);
    }
  }

  // --------------------------------------------------------- accept, recover

  /** The transactions of stored payments that the block brings again are as stored. */
  ghost predicate KeepsDetails(db: Db, cfg: Config, b: Block) {
    var rows := TxRows(BlockCandidates(cfg, b));
    forall k :: k in db.payments && k.tx in rows && k.tx in db.txs ==> rows[k.tx].detail == db.txs[k.tx].detail
  }

  /** A block that recomputes the days of the payments it writes again, and brings no stored payment
      another transaction, keeps the gas exact. */
  lemma AcceptKeepsGas(db: Db, cfg: Config, b: Block, w: Worker)
    requires Exact(db) && GasExact(db, cfg.prices) && Recounts(db, cfg, b) && KeepsDetails(db, cfg, b)
    ensures GasExact(Accept(db, cfg, b, w), cfg.prices)
  {
    var s, ps := Stored(db, cfg, b), PromotedOf(cfg, b);
    var d, days := Paid(s, cfg, ps), AffectedDays(s, cfg, ps);
    IndexIsPaid(db, cfg, b);
    PaidFromStored(db, cfg, b);
    hide Paid, AffectedDays, PromotedOf, Stored, GasAt, ExactAt, SamePaid, Recompute, Index, KeepsDetails;
    forall key | key !in days ensures SamePaid(d, db, key) {
      OtherDaysSamePaid(db, d, cfg, b, Keys(ps), days, key);
    }
    RecomputeKeepsGas(d, cfg.prices, days, db);
    var index := d.(stats := Recompute(d, cfg.prices, days));
    var after := Accept(db, cfg, b, w);
    SameTablesSameGas(index, after, cfg.prices);
  }

  /** The tables when the days of a block are recomputed, against those before the block. */
  lemma PaidFromStored(db: Db, cfg: Config, b: Block)
    requires forall k :: k in db.payments ==> k.tx in db.txs
    ensures var s, ps := Stored(db, cfg, b), PromotedOf(cfg, b);
            var d, days := Paid(s, cfg, ps), AffectedDays(s, cfg, ps);
            && s.payments == db.payments && d.stats == db.stats
            && d.txs == db.txs + TxRows(BlockCandidates(cfg, b))
            && (forall k :: k in db.payments ==> k in d.payments)
            && (forall k :: k !in Keys(ps) ==>
                  (k in d.payments <==> k in db.payments) && (k in d.payments ==> d.payments[k] == db.payments[k]))
            && (forall k :: k in Keys(ps) && k in d.payments ==> PayerDay(d.payments[k]) in days)
  {
    var s, ps := Stored(db, cfg, b), PromotedOf(cfg, b);
    BlockRowsFit(cfg, b);
    assert forall i :: 0 <= i < |ps| ==> ps[i] in ps;
    hide Paid, AffectedDays, PromotedOf, BlockEvidence, BlockCandidates, TxRows, Persist, Keys;
    PaidRows(s, cfg, ps);
  }

  lemma OtherDaysSamePaid(db: Db, d: Db, cfg: Config, b: Block, touched: set<Key>, days: set<StatKey>, key: StatKey)
    requires key !in days && KeepsDetails(db, cfg, b) && forall k :: k in db.payments ==> k.tx in db.txs
    requires d.txs == db.txs + TxRows(BlockCandidates(cfg, b))
    requires forall k :: k !in touched ==>
               (k in d.payments <==> k in db.payments) && (k in d.payments ==> d.payments[k] == db.payments[k])
    requires forall k :: k in touched && k in d.payments ==> PayerDay(d.payments[k]) in days
    requires forall k :: k in touched && k in db.payments ==> PayerDay(db.payments[k]) in days
    ensures SamePaid(d, db, key)
  {
    hide TxRows, BlockCandidates;
    forall k ensures k in PaidKeys(d, key) <==> k in PaidKeys(db, key) {
    }
  }

  lemma RecoverKeepsGas(db: Db, cfg: Config, view: View, current: nat, a: nat, w: Worker)
    requires GasExact(db, cfg.prices) && a in view
    ensures GasExact(Recover(db, cfg, view, current, a, w), cfg.prices)
  {
    hide Recompute, GasAt, SamePaid;
    var orphaned := db.(blocks := Orphan(db.blocks, a));
    var lost := LostPayerDays(orphaned, a) + LostPayeeDays(orphaned, a);
    var d := WithoutDomainAbove(orphaned, a).(stats := db.stats - lost);
    forall key | key !in lost ensures SamePaid(d, db, key) {
      CutDaysSamePaid(db, d, a, key);
    }
    RecomputeKeepsGas(d, cfg.prices, lost, db);
    var clean, after := d.(stats := Recompute(d, cfg.prices, lost)), Recover(db, cfg, view, current, a, w);
    SameTablesSameGas(clean, after, cfg.prices);
  }

  lemma CutDaysSamePaid(db: Db, d: Db, a: nat, key: StatKey)
    requires d.txs == db.txs && d.payments == PaymentsUpTo(db.payments, a)
    requires key !in LostPayerDays(db, a)
    ensures SamePaid(d, db, key)
  {
    forall k ensures k in PaidKeys(d, key) <==> k in PaidKeys(db, key) {
    }
  }

  // ------------------------------------------------------------------ runs

  predicate AddsTx(cfg: Config, b: Block, h: Hash) { h in TxRows(BlockCandidates(cfg, b)) }

  /** The transactions of the blocks are stored as the blocks have them. */
  ghost predicate TxsStand(txs: map<Hash, TxRow>, cfg: Config, blocks: set<Block>) {
    forall b, h :: b in blocks && AddsTx(cfg, b, h) ==> h in txs && txs[h] == TxRows(BlockCandidates(cfg, b))[h]
  }

  lemma AcceptTxsStand(txs: map<Hash, TxRow>, cfg: Config, b: Block, blocks: set<Block>)
    requires TxsStand(txs, cfg, blocks) && KeepsTransactions(blocks, b)
    ensures TxsStand(txs + TxRows(BlockCandidates(cfg, b)), cfg, blocks + {b})
  {
    hide TxRows, BlockCandidates, BlockTxs;
    forall c, h | c in blocks + {b} && AddsTx(cfg, c, h)
      ensures h in txs + TxRows(BlockCandidates(cfg, b))
      ensures (txs + TxRows(BlockCandidates(cfg, b)))[h] == TxRows(BlockCandidates(cfg, c))[h]
    {
      BlockRowsFit(cfg, b);
      BlockRowsFit(cfg, c);
    }
  }

  lemma StepTxsStand(s: System, cfg: Config, a: Action, blocks: set<Block>)
    requires TxsStand(s.db.txs, cfg, blocks)
    requires var e := EffectOf(s, cfg, a); e.Accepted? ==> KeepsTransactions(blocks, e.block)
    ensures TxsStand(Step(s, cfg, a).db.txs, cfg, After(blocks, EffectOf(s, cfg, a)))
  {
    hide Step, EffectOf, KeepsTransactions, Blocked, TxRows, BlockCandidates, Index, Recompute;
    StepProduces(s, cfg, a);
    match EffectOf(s, cfg, a)
    case Untouched =>
    case Accepted(b, w) =>
      IndexFrame(ReadyFor(s, a), cfg, b);
      AcceptTxsStand(s.db.txs, cfg, b, blocks);
    case Recovered(view, current, ancestor, w) => RecoverFrame(ReadyFor(s, a), cfg, view, current, ancestor, w);
    case Stuck(ancestor) =>
  }

  lemma {:induction false} RunTxsStand(cfg: Config, acts: seq<Action>)
    requires TransactionsStay(cfg, acts)
    ensures TxsStand(Run(START, cfg, acts).db.txs, cfg, Standing(cfg, acts))
  {
    hide Step, EffectOf, KeepsTransactions, After, TxsStand;
    if acts == [] {
      NoTxsStand(cfg);
    } else {
      var earlier := acts[..|acts| - 1];
      RunTxsStand(cfg, earlier);
      StepTxsStand(Run(START, cfg, earlier), cfg, acts[|acts| - 1], Standing(cfg, earlier));
    }
  }

  lemma NoTxsStand(cfg: Config)
    ensures TxsStand(map[], cfg, {})
  {
  }

  lemma StandingKeepsDetails(db: Db, cfg: Config, b: Block, blocks: set<Block>)
    requires Mirrors(db, cfg, blocks) && TxsStand(db.txs, cfg, blocks) && KeepsTransactions(blocks, b)
    ensures KeepsDetails(db, cfg, b)
  {
    OwnRows(db, cfg, blocks, b);
    BlockRowsFit(cfg, b);
    hide Mirrors, KeepsTransactions, TxRows, BlockCandidates, BlockTxs, BlockEvidence, EvidenceTable, PaymentTable;
    forall k | k in db.payments && AddsTx(cfg, b, k.tx) && k.tx in db.txs
      ensures TxRows(BlockCandidates(cfg, b))[k.tx].detail == db.txs[k.tx].detail
    {
    }
  }

  ghost predicate GasThroughout(cfg: Config, acts: seq<Action>) {
    GasExact(Run(START, cfg, acts).db, cfg.prices) && (acts != [] ==> GasThroughout(cfg, acts[..|acts| - 1]))
  }

  /** With each transaction in one block unless a recovery removed it, each daily row has the gas of
      exactly its payments after every step. */
  lemma {:induction false} StayingRunKeepsGas(cfg: Config, acts: seq<Action>)
    requires TransactionsStay(cfg, acts) && DistinctLogs(cfg, acts)
    ensures GasThroughout(cfg, acts)
  {
    hide Step, EffectOf, GasExact, KeepsTransactions, LogsDistinct, ReadyFor;
    if acts == [] {
      NoGas(cfg);
    } else {
      var earlier, a := acts[..|acts| - 1], acts[|acts| - 1];
      StayingRunKeepsGas(cfg, earlier);
      RunMirrorsStanding(cfg, earlier);
      RunTxsStand(cfg, earlier);
      StayingRunIsSoundAndExact(cfg, earlier);
      StayingIsFaithful(cfg, acts);
      RunKeepsStatsExact(cfg, acts);
      StepKeepsGas(Run(START, cfg, earlier), cfg, a, Standing(cfg, earlier));
    }
  }

  lemma NoGas(cfg: Config)
    ensures GasExact(EMPTY_DB, cfg.prices)
  {
  }

  lemma StepKeepsGas(s: System, cfg: Config, a: Action, blocks: set<Block>)
    requires Mirrors(s.db, cfg, blocks) && TxsStand(s.db.txs, cfg, blocks)
    requires Exact(s.db) && GasExact(s.db, cfg.prices)
    requires var e := EffectOf(s, cfg, a);
             RecountsStep(ReadyFor(s, a), cfg, e) && (e.Accepted? ==> KeepsTransactions(blocks, e.block))
    ensures GasExact(Step(s, cfg, a).db, cfg.prices)
  {
    hide Step, EffectOf, Accept, Recover, PartlyUndone, Blocked, GasExact, ExactAt, Recounts, Mirrors, TxsStand;
    hide KeepsTransactions, KeepsDetails, HandedOff;
    StepProduces(s, cfg, a);
    var ready, after := ReadyFor(s, a), Step(s, cfg, a).db;
    SameTablesSameGas(s.db, ready, cfg.prices);
    ReadyMirrors(s, cfg, a, blocks);
    match EffectOf(s, cfg, a)
    case Untouched => SameTablesSameGas(ready, after, cfg.prices);
    case Accepted(b, w) =>
      StandingKeepsDetails(ready, cfg, b, blocks);
      AcceptKeepsGas(ready, cfg, b, w);
      SameTablesSameGas(Accept(ready, cfg, b, w), after, cfg.prices);
    case Recovered(view, current, ancestor, w) =>
      RecoverKeepsGas(ready, cfg, view, current, ancestor, w);
      SameTablesSameGas(Recover(ready, cfg, view, current, ancestor, w), after, cfg.prices);
    case Stuck(ancestor) => MirrorsNotBlocked(ready, cfg, blocks, ancestor);
  }
}
