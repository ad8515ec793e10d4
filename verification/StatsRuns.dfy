/** The payment side of agent_daily_stats stays exact over whole runs. */
module StatsRuns {
  import opened Types
  import opened Sums
  import opened Candidates
  import opened Domain
  import opened DailyStats
  import opened Aggregates
  import opened ReorgRecovery
  import opened Orchestrator
  import opened BlockEffects
  import opened Runs
  import opened StepEffects

  // ------------------------------------------------- one recomputed row

  lemma PaidSideIgnoresStats(db: Db, stats: map<StatKey, StatsRow>, prices: map<Bucket, real>, key: StatKey)
    ensures PaidKeys(db.(stats := stats), key) == PaidKeys(db, key)
    ensures PaidOver(db.(stats := stats), prices, PaidKeys(db, key)) == PaidOver(db, prices, PaidKeys(db, key))
  {
    hide Sum;
    var d, paid := db.(stats := stats), PaidKeys(db, key);
    assert UsdMap(d, paid) == UsdMap(db, paid);
    assert ServicesOf(d, paid) == ServicesOf(db, paid);
    forall k | k in db.payments && k.tx in db.txs ensures GasUsd(d, prices, k) == GasUsd(db, prices, k) {
    }
    assert GasMap(d, prices, paid) == GasMap(db, prices, paid);
  }

  lemma RevenueSideIgnoresStats(db: Db, stats: map<StatKey, StatsRow>, prices: map<Bucket, real>, key: StatKey)
    ensures RevenueKeys(db.(stats := stats), prices, key) == RevenueKeys(db, prices, key)
    ensures RevenueOver(db.(stats := stats), prices, RevenueKeys(db, prices, key))
         == RevenueOver(db, prices, RevenueKeys(db, prices, key))
  {
    hide Sum;
    var d, earned := db.(stats := stats), RevenueKeys(db, prices, key);
    assert RevenueMap(d, prices, earned) == RevenueMap(db, prices, earned);
  }

  lemma SpecIgnoresStats(db: Db, stats: map<StatKey, StatsRow>, prices: map<Bucket, real>, key: StatKey)
    ensures SpecRow(db.(stats := stats), prices, key) == SpecRow(db, prices, key)
  {
    hide PaidKeys, RevenueKeys, PaidOver, RevenueOver;
    PaidSideIgnoresStats(db, stats, prices, key);
    RevenueSideIgnoresStats(db, stats, prices, key);
  }

  /** Recomputing twice is recomputing once, and keys nobody asked for keep their rows. */
  lemma RecomputeTwice(db: Db, prices: map<Bucket, real>, keys: set<StatKey>)
    ensures var once := Recompute(db, prices, keys);
            && Recompute(db.(stats := once), prices, keys) == once
            && once - keys == db.stats - keys
  {
    hide SpecRow;
    var once := Recompute(db, prices, keys);
    forall key ensures SpecRow(db.(stats := once), prices, key) == SpecRow(db, prices, key) {
      SpecIgnoresStats(db, once, prices, key);
    }
  }

  lemma {:induction false} ImageNotLarger(ks: set<Key>)
    ensures |TxsOf(ks)| <= |ks|
    decreases |ks|
  {
    if ks == {} {
      assert TxsOf(ks) == {};
    } else {
      var k :| k in ks;
      ImageNotLarger(ks - {k});
      assert TxsOf(ks) == TxsOf(ks - {k}) + {k.tx};
    }
  }

  lemma {:induction false} ServicesNotMore(db: Db, ks: set<Key>)
    requires forall k :: k in ks ==> k in db.payments
    ensures |ServicesOf(db, ks)| <= |ks|
    decreases |ks|
  {
    if ks == {} {
      assert ServicesOf(db, ks) == {};
    } else {
      var k :| k in ks;
      ServicesNotMore(db, ks - {k});
      assert ServicesOf(db, ks) == ServicesOf(db, ks - {k}) + {db.payments[k].payTo};
    }
  }

  /** Neither transactions nor services ever outnumber the payments of a row. */
  lemma CountsBounded(db: Db, prices: map<Bucket, real>, key: StatKey)
    requires SpecRow(db, prices, key).Some?
    ensures var row := SpecRow(db, prices, key).value;
            row.txCount <= row.paymentCount && row.uniqueServices <= row.paymentCount
  {
    ImageNotLarger(PaidKeys(db, key));
    ServicesNotMore(db, PaidKeys(db, key));
  }

  // ------------------------------------------------------------ invariant

  ghost function PaymentsAt(payments: map<Key, Payment>, key: StatKey): map<Key, Payment> {
    map k | k in payments && PayerDay(payments[k]) == key :: payments[k]
  }

  ghost function Spent(rows: map<Key, Payment>): real {
    Sum(map k | k in rows :: Usd(rows[k]))
  }

  ghost function Services(rows: map<Key, Payment>): set<Address> { set k | k in rows :: rows[k].payTo }

  /** The four payment columns of a row are what the payments of its agent and day add up to;
      without a row there are none. */
  ghost predicate ExactAt(stats: map<StatKey, StatsRow>, payments: map<Key, Payment>, key: StatKey) {
    var rows := PaymentsAt(payments, key);
    if key in stats then
      && stats[key].paymentCount == |rows|
      && stats[key].txCount == |TxsOf(rows.Keys)|
      && stats[key].spent == Spent(rows)
      && stats[key].uniqueServices == |Services(rows)|
    else rows == map[]
  }

  ghost predicate Exact(db: Db) {
    && (forall k :: k in db.payments ==> k.tx in db.txs)
    && (forall key :: ExactAt(db.stats, db.payments, key))
  }

  /** A recomputed key is exact, whatever its row said before. */
  lemma SpecIsExact(db: Db, prices: map<Bucket, real>, keys: set<StatKey>, key: StatKey)
    requires key in keys && forall k :: k in db.payments ==> k.tx in db.txs
    ensures ExactAt(Recompute(db, prices, keys), db.payments, key)
  {
    var rows, paid := PaymentsAt(db.payments, key), PaidKeys(db, key);
    assert rows.Keys == paid;
    assert UsdMap(db, paid) == map k | k in rows :: Usd(rows[k]);
    assert ServicesOf(db, paid) == Services(rows);
    assert |rows| == |rows.Keys|;
    if paid == {} {
      assert rows == map[];
    }
  }

  /** A key outside the recomputed ones stays exact when its payments are the same. */
  lemma RecomputeKeepsExact(db: Db, prices: map<Bucket, real>, keys: set<StatKey>,
                            stats: map<StatKey, StatsRow>, payments: map<Key, Payment>)
    requires forall k :: k in db.payments ==> k.tx in db.txs
    requires forall key :: ExactAt(stats, payments, key)
    requires forall key :: key !in keys ==>
               && PaymentsAt(db.payments, key) == PaymentsAt(payments, key)
               && (key in db.stats <==> key in stats) && (key in stats ==> db.stats[key] == stats[key])
    ensures forall key :: ExactAt(Recompute(db, prices, keys), db.payments, key)
  {
    hide SpecRow, PaymentsAt;
    forall key ensures ExactAt(Recompute(db, prices, keys), db.payments, key) {
      assert ExactAt(stats, payments, key);
      if key in keys {
        SpecIsExact(db, prices, keys, key);
      }
    }
  }

  // -------------------------------------------------------------- recovery

  lemma RecoverKeepsExact(db: Db, cfg: Config, view: View, current: nat, a: nat, w: Worker)
    requires Exact(db) && a in view
    ensures Exact(Recover(db, cfg, view, current, a, w))
  {
    hide Recompute, ExactAt;
    var orphaned := db.(blocks := Orphan(db.blocks, a));
    var lost := LostPayerDays(orphaned, a) + LostPayeeDays(orphaned, a);
    var d := WithoutDomainAbove(orphaned, a).(stats := db.stats - lost);
    forall key | key !in lost
      ensures PaymentsAt(d.payments, key) == PaymentsAt(db.payments, key)
    {
      forall k | k in db.payments && PayerDay(db.payments[k]) == key
        ensures db.payments[k].block <= a
      {
      }
    }
    RecomputeKeepsExact(d, cfg.prices, lost, db.stats, db.payments);
  }

  /** A recovery that gets stuck has deleted payments and recomputed nothing: the rows stay exact
      if and only if there was no payment to delete. */
  lemma StuckKeepsExactIff(db: Db, a: nat)
    requires Exact(db)
    ensures Exact(PartlyUndone(db, a)) <==> forall k :: k in db.payments ==> db.payments[k].block <= a
  {
    var left := PaymentsUpTo(db.payments, a);
    if k :| k in db.payments && db.payments[k].block > a {
      var key := PayerDay(db.payments[k]);
      assert ExactAt(db.stats, db.payments, key);
      var few, many := PaymentsAt(left, key), PaymentsAt(db.payments, key);
      assert k in many && k !in few && few.Keys <= many.Keys;
      StaleRow(db.stats, db.payments, left, key);
    } else {
      assert left == db.payments;
    }
  }

  // ---------------------------------------------------------------- accept

  /** The tables with the promoted payments written and valued, before any row is recomputed. */
  ghost function Paid(s: Db, cfg: Config, ps: seq<Evidence>): Db {
    Derive(s, cfg.contracts, ps).(payments := Convert(Pay(s.payments, s.evidence, s.blocks, ps), cfg.prices, Keys(ps)))
  }

  /** The agent days recomputed for the promoted payments. */
  ghost function AffectedDays(s: Db, cfg: Config, ps: seq<Evidence>): set<StatKey> {
    var d := Paid(s, cfg, ps);
    PayerDays(d, Keys(ps)) + PayeeDays(d, Keys(ps))
  }

  /** Each payment written again was counted on a day that is recomputed. */
  ghost predicate OldDaysAffected(s: Db, cfg: Config, ps: seq<Evidence>) {
    forall k :: k in Keys(ps) && k in s.payments ==> PayerDay(s.payments[k]) in AffectedDays(s, cfg, ps)
  }

  lemma {:induction false} PayLeavesOthers(payments: map<Key, Payment>, evidence: map<Key, Evidence>,
                                           blocks: map<nat, BlockRow>, es: seq<Evidence>)
    ensures var after := Pay(payments, evidence, blocks, es);
            && (forall k :: k in payments ==> k in after)
            && (forall k :: k !in Keys(es) ==>
                  (k in after <==> k in payments) && (k in after ==> after[k] == payments[k]))
  {
    if es != [] {
      PayLeavesOthers(payments, evidence, blocks, es[..|es| - 1]);
      KeysLast(es);
    }
  }

  lemma ConvertKeepsDays(payments: map<Key, Payment>, prices: map<Bucket, real>, keys: set<Key>)
    ensures var after := Convert(payments, prices, keys);
            && after.Keys == payments.Keys
            && (forall k :: k in after ==> PayerDay(after[k]) == PayerDay(payments[k]))
            && (forall k :: k in after && k !in keys ==> after[k] == payments[k])
  {
  }

  lemma PayTxs(payments: map<Key, Payment>, s: Db, ps: seq<Evidence>)
    requires forall k :: k in payments ==> k.tx in s.txs
    requires forall i :: 0 <= i < |ps| ==> ps[i].key.tx in s.txs
    ensures forall k :: k in Pay(payments, s.evidence, s.blocks, ps) ==> k.tx in s.txs
  {
  }

  lemma PaidRows(s: Db, cfg: Config, ps: seq<Evidence>)
    requires forall k :: k in s.payments ==> k.tx in s.txs
    requires forall i :: 0 <= i < |ps| ==> ps[i].key.tx in s.txs
    ensures var d := Paid(s, cfg, ps);
            && d.stats == s.stats && d.txs == s.txs
            && (forall k :: k in d.payments ==> k.tx in d.txs)
            && (forall k :: k in s.payments ==> k in d.payments)
            && (forall k :: k !in Keys(ps) ==>
                  (k in d.payments <==> k in s.payments) && (k in d.payments ==> d.payments[k] == s.payments[k]))
            && (forall k :: k in Keys(ps) && k in d.payments ==> PayerDay(d.payments[k]) in AffectedDays(s, cfg, ps))
  {
    hide Pay, Convert, See, Interact, PayeeDays;
    PayLeavesOthers(s.payments, s.evidence, s.blocks, ps);
    ConvertKeepsDays(Pay(s.payments, s.evidence, s.blocks, ps), cfg.prices, Keys(ps));
    PayTxs(s.payments, s, ps);
  }

  /** A day that is not recomputed keeps its payments unless one of them is written again. */
  lemma OtherDaysKeep(before: map<Key, Payment>, after: map<Key, Payment>, touched: set<Key>, key: StatKey)
    requires forall k :: k in before ==> k in after
    requires forall k :: k !in touched ==> (k in after <==> k in before) && (k in after ==> after[k] == before[k])
    requires forall k :: k in touched && k in after ==> PayerDay(after[k]) != key
    ensures var kept := PaymentsAt(after, key);
            && kept.Keys <= PaymentsAt(before, key).Keys
            && (kept == PaymentsAt(before, key)
                <==> forall k :: k in touched && k in before ==> PayerDay(before[k]) != key)
  {
    var kept, had := PaymentsAt(after, key), PaymentsAt(before, key);
    forall k | k in touched && k in before && PayerDay(before[k]) == key ensures k in had && k !in kept {
    }
    if forall k :: k in touched && k in before ==> PayerDay(before[k]) != key {
      forall k | k in had ensures k in kept && kept[k] == had[k] {
      }
      assert kept == had;
    }
  }

  lemma FewerRows(few: map<Key, Payment>, many: map<Key, Payment>)
    requires few.Keys < many.Keys
    ensures |few| < |many|
  {
    assert |many.Keys| == |few.Keys| + |many.Keys - few.Keys|;
    assert |many| == |many.Keys| && |few| == |few.Keys|;
  }

  /** A row that lost a payment without being recomputed is wrong. */
  lemma StaleRow(stats: map<StatKey, StatsRow>, before: map<Key, Payment>, after: map<Key, Payment>, key: StatKey)
    requires ExactAt(stats, before, key)
    requires PaymentsAt(after, key).Keys < PaymentsAt(before, key).Keys
    ensures !ExactAt(stats, after, key)
  {
    FewerRows(PaymentsAt(after, key), PaymentsAt(before, key));
  }

  lemma ExactAtDay(s: Db, cfg: Config, ps: seq<Evidence>, key: StatKey)
    requires Exact(s) && forall i :: 0 <= i < |ps| ==> ps[i].key.tx in s.txs
    ensures var d, days := Paid(s, cfg, ps), AffectedDays(s, cfg, ps);
            ExactAt(Recompute(d, cfg.prices, days), d.payments, key)
            <==> (key in days || forall k :: k in Keys(ps) && k in s.payments ==> PayerDay(s.payments[k]) != key)
  {
    hide Paid, AffectedDays, SpecRow, PaymentsAt;
    var d, days := Paid(s, cfg, ps), AffectedDays(s, cfg, ps);
    PaidRows(s, cfg, ps);
    if key in days {
      SpecIsExact(d, cfg.prices, days, key);
    } else {
      assert ExactAt(s.stats, s.payments, key);
      OtherDaysKeep(s.payments, d.payments, Keys(ps), key);
      SameRow(d, cfg.prices, days, key, s.stats);
      var kept, had := PaymentsAt(d.payments, key), PaymentsAt(s.payments, key);
      if kept != had {
        KeptRows(s.payments, d.payments, Keys(ps), key);
        StaleRow(Recompute(d, cfg.prices, days), s.payments, d.payments, key);
      }
    }
  }

  /** Where every kept payment is unchanged, losing none means keeping the same rows. */
  lemma KeptRows(before: map<Key, Payment>, after: map<Key, Payment>, touched: set<Key>, key: StatKey)
    requires forall k :: k !in touched ==> (k in after <==> k in before) && (k in after ==> after[k] == before[k])
    requires forall k :: k in touched && k in after ==> PayerDay(after[k]) != key
    ensures PaymentsAt(after, key).Keys == PaymentsAt(before, key).Keys
            ==> PaymentsAt(after, key) == PaymentsAt(before, key)
  {
  }

  lemma SameRow(d: Db, prices: map<Bucket, real>, days: set<StatKey>, key: StatKey, stats: map<StatKey, StatsRow>)
    requires key !in days && d.stats == stats
    ensures forall payments :: ExactAt(Recompute(d, prices, days), payments, key) <==> ExactAt(stats, payments, key)
  {
    hide SpecRow;
  }

  /** Promoting payments keeps every row exact if and only if each payment written again was
      counted on a day that is recomputed. */
  lemma PromoteKeepsExactIff(s: Db, cfg: Config, ps: seq<Evidence>)
    requires Exact(s) && forall i :: 0 <= i < |ps| ==> ps[i].key.tx in s.txs
    ensures Exact(Promote(s, cfg, ps)) <==> OldDaysAffected(s, cfg, ps)
  {
    hide Recompute, ExactAt, Pay, See, Interact, Convert, PayerDays, PayeeDays;
    PaidRows(s, cfg, ps);
    if ps == [] {
      assert Keys(ps) == {};
    } else {
      var d, days := Paid(s, cfg, ps), AffectedDays(s, cfg, ps);
      assert Promote(s, cfg, ps) == d.(stats := Recompute(d, cfg.prices, days));
      hide Paid, AffectedDays, Promote;
      forall key
        ensures ExactAt(Recompute(d, cfg.prices, days), d.payments, key)
                <==> (key in days || forall k :: k in Keys(ps) && k in s.payments ==> PayerDay(s.payments[k]) != key)
      {
        ExactAtDay(s, cfg, ps, key);
      }
      forall k | k in Keys(ps) && k in s.payments
        ensures Exact(Promote(s, cfg, ps)) ==> PayerDay(s.payments[k]) in days
      {
        assert Exact(Promote(s, cfg, ps))
            ==> ExactAt(Recompute(d, cfg.prices, days), d.payments, PayerDay(s.payments[k]));
      }
    }
  }

  /** Indexing a block is valuing its payments and then recomputing the days they affect. */
  lemma IndexIsPaid(db: Db, cfg: Config, b: Block)
    ensures var s, ps := Stored(db, cfg, b), PromotedOf(cfg, b);
            var d := Paid(s, cfg, ps);
            Index(db, cfg, b) == d.(stats := Recompute(d, cfg.prices, AffectedDays(s, cfg, ps)))
  {
    hide SpecRow, Stored, Promoted, BlockEvidence;
    var s, ps := Stored(db, cfg, b), PromotedOf(cfg, b);
    if ps == [] {
      PromoteCore(s, cfg, ps);
      assert AffectedDays(s, cfg, ps) == {};
      assert Recompute(Paid(s, cfg, ps), cfg.prices, {}) == s.stats;
      hide See, Pay, Interact, Convert, Recompute;
      assert CoreOf(Paid(s, cfg, ps)) == CoreOf(s);
    }
  }

  /** The condition for a block. */
  ghost predicate Recounts(db: Db, cfg: Config, b: Block) {
    OldDaysAffected(Stored(db, cfg, b), cfg, PromotedOf(cfg, b))
  }

  lemma AcceptKeepsExactIff(db: Db, cfg: Config, b: Block, w: Worker)
    requires Exact(db)
    ensures Exact(Accept(db, cfg, b, w)) <==> Recounts(db, cfg, b)
  {
    hide ExactAt, Promote, Persist, TxRows, BlockEvidence, BlockCandidates, OldDaysAffected;
    var s, ps := Stored(db, cfg, b), PromotedOf(cfg, b);
    BlockRowsFit(cfg, b);
    assert forall i :: 0 <= i < |ps| ==> ps[i] in ps;
    PromoteKeepsExactIff(s, cfg, ps);
  }

  // --------------------------------------------- same payer, same day

  /** A payment derived again keeps its payer, and the join finds a timestamp of the same day. */
  ghost predicate SameDay(payments: map<Key, Payment>, evidence: map<Key, Evidence>, blocks: map<nat, BlockRow>,
                          es: seq<Evidence>)
  {
    forall i :: 0 <= i < |es| && es[i].key in payments ==>
      && payments[es[i].key].payer == es[i].payer
      && (es[i].key in evidence && evidence[es[i].key].block in blocks ==>
            Day(blocks[evidence[es[i].key].block].time) == Day(payments[es[i].key].time))
  }

  ghost predicate KeepsPayerAndDay(db: Db, cfg: Config, b: Block) {
    var s := Stored(db, cfg, b);
    SameDay(s.payments, s.evidence, s.blocks, PromotedOf(cfg, b))
  }

  lemma {:induction false} PayKeepsDays(payments: map<Key, Payment>, evidence: map<Key, Evidence>,
                                        blocks: map<nat, BlockRow>, es: seq<Evidence>)
    requires SameDay(payments, evidence, blocks, es)
    ensures var after := Pay(payments, evidence, blocks, es);
            forall k :: k in payments ==> k in after && PayerDay(after[k]) == PayerDay(payments[k])
  {
    if es != [] {
      PayKeepsDays(payments, evidence, blocks, es[..|es| - 1]);
    }
  }

  lemma SameDayIsAffected(s: Db, cfg: Config, ps: seq<Evidence>)
    requires SameDay(s.payments, s.evidence, s.blocks, ps)
    ensures OldDaysAffected(s, cfg, ps)
  {
    hide Pay, Convert, See, Interact, PayeeDays, SameDay;
    PayKeepsDays(s.payments, s.evidence, s.blocks, ps);
    ConvertKeepsDays(Pay(s.payments, s.evidence, s.blocks, ps), cfg.prices, Keys(ps));
    var d := Paid(s, cfg, ps);
    forall k | k in Keys(ps) && k in s.payments ensures PayerDay(s.payments[k]) in PayerDays(d, Keys(ps)) {
      assert PayerDay(d.payments[k]) == PayerDay(s.payments[k]);
    }
  }

  /** Keeping payer and day, wherever the transaction now is, keeps the rows exact. */
  lemma AcceptKeepsExact(db: Db, cfg: Config, b: Block, w: Worker)
    requires Exact(db) && KeepsPayerAndDay(db, cfg, b)
    ensures Exact(Accept(db, cfg, b, w))
  {
    hide Exact, Accept, Stored, OldDaysAffected, SameDay, PromotedOf;
    SameDayIsAffected(Stored(db, cfg, b), cfg, PromotedOf(cfg, b));
    AcceptKeepsExactIff(db, cfg, b, w);
  }

  // ------------------------------------------------------------------ runs

  /** Every block accepted during the run recomputes the days its payments were counted on, and no
      recovery that gets stuck deletes a payment. */
  ghost predicate RecountsThroughout(cfg: Config, acts: seq<Action>) {
    acts != [] ==>
      var earlier, a := acts[..|acts| - 1], acts[|acts| - 1];
      var s := Run(START, cfg, earlier);
      var e := EffectOf(s, cfg, a);
      RecountsThroughout(cfg, earlier) && RecountsStep(ReadyFor(s, a), cfg, e)
  }

  ghost predicate RecountsStep(db: Db, cfg: Config, e: Effect) {
    match e
    case Accepted(b, _) => Recounts(db, cfg, b)
    case Stuck(a) => forall k :: k in db.payments ==> db.payments[k].block <= a
    case Untouched => true
    case Recovered(_, _, _, _) => true
  }

  /** No accepted block of the run changes the payer or the day of a stored payment. */
  ghost predicate KeepsPayersAndDays(cfg: Config, acts: seq<Action>) {
    acts != [] ==>
      var earlier, a := acts[..|acts| - 1], acts[|acts| - 1];
      var s := Run(START, cfg, earlier);
      var e := EffectOf(s, cfg, a);
      KeepsPayersAndDays(cfg, earlier) && (e.Accepted? ==> KeepsPayerAndDay(ReadyFor(s, a), cfg, e.block))
  }

  ghost predicate ExactThroughout(cfg: Config, acts: seq<Action>) {
    Exact(Run(START, cfg, acts).db) && (acts != [] ==> ExactThroughout(cfg, acts[..|acts| - 1]))
  }

  lemma StepKeepsExactIff(s: System, cfg: Config, a: Action)
    requires Exact(s.db)
    ensures var e := EffectOf(s, cfg, a);
            Exact(Step(s, cfg, a).db) <==> RecountsStep(ReadyFor(s, a), cfg, e)
  {
    hide Step, EffectOf, Accept, Recover, PartlyUndone, Blocked, ExactAt, Recounts;
    StepProduces(s, cfg, a);
    match EffectOf(s, cfg, a)
    case Untouched =>
    case Accepted(b, w) => AcceptKeepsExactIff(ReadyFor(s, a), cfg, b, w);
    case Recovered(view, current, ancestor, w) => RecoverKeepsExact(ReadyFor(s, a), cfg, view, current, ancestor, w);
    case Stuck(ancestor) => StuckKeepsExactIff(ReadyFor(s, a), ancestor);
  }

  /** After every step of every interleaving, through any number of forks and recoveries, each
      daily row counts exactly the payments of its agent and day, if and only if every accepted
      block recomputes the days on which the payments it writes again were counted and no stuck
      recovery deletes a payment. */
  lemma {:induction false} RunKeepsStatsExactIff(cfg: Config, acts: seq<Action>)
    ensures ExactThroughout(cfg, acts) <==> RecountsThroughout(cfg, acts)
  {
    hide Step, EffectOf, Exact, RecountsStep, ReadyFor;
    if acts == [] {
      NothingIsExact();
    } else {
      var earlier := acts[..|acts| - 1];
      RunKeepsStatsExactIff(cfg, earlier);
      if ExactThroughout(cfg, earlier) {
        StepKeepsExactIff(Run(START, cfg, earlier), cfg, acts[|acts| - 1]);
      }
    }
  }

  /** In particular when a payment derived again keeps its payer and its day and no recovery gets stuck. */
  lemma {:induction false} RunKeepsStatsExact(cfg: Config, acts: seq<Action>)
    requires KeepsPayersAndDays(cfg, acts) && NeverStuck(cfg, acts)
    ensures RecountsThroughout(cfg, acts) && ExactThroughout(cfg, acts)
  {
    hide Step, EffectOf, Exact, KeepsPayerAndDay, ExactThroughout, ReadyFor, OldDaysAffected;
    if acts != [] {
      var earlier, a := acts[..|acts| - 1], acts[|acts| - 1];
      RunKeepsStatsExact(cfg, earlier);
      var s := Run(START, cfg, earlier);
      var e := EffectOf(s, cfg, a);
      if e.Accepted? {
        KeepsMeansRecounts(ReadyFor(s, a), cfg, e.block);
      }
    }
    RunKeepsStatsExactIff(cfg, acts);
  }

  lemma KeepsMeansRecounts(db: Db, cfg: Config, b: Block)
    requires KeepsPayerAndDay(db, cfg, b)
    ensures Recounts(db, cfg, b)
  {
    hide Stored, PromotedOf, SameDay, OldDaysAffected;
    SameDayIsAffected(Stored(db, cfg, b), cfg, PromotedOf(cfg, b));
  }

  lemma NothingIsExact()
    ensures Exact(EMPTY_DB)
  {
  }
}
