/** After a fork the daily statistics converge with the payments they are computed from. */
module ConvergedStats {
  import opened Types
  import opened ReorgDetection
  import opened ReorgRecovery
  import opened Candidates
  import opened Domain
  import opened Orchestrator
  import opened BlockEffects
  import opened Confluence
  import opened BlockTables
  import opened Convergence
  import opened DailyStats
  import opened Runs
  import opened Integrity
  import opened StatsRuns
  import opened Standings
  import opened GasStats
  import opened RevenueStats

  /** What an agent's payments of a day add up to. */
  datatype Columns = Columns(txs: nat, payments: nat, spent: real, gas: real, services: nat)

  const NO_PAYMENTS := Columns(0, 0, 0.0, 0.0, 0)

  function PaymentColumns(stats: map<StatKey, StatsRow>, key: StatKey): Columns {
    if key !in stats then NO_PAYMENTS
    else
      var r := stats[key];
      Columns(r.txCount, r.paymentCount, r.spent, r.gas, r.uniqueServices)
  }

  /** The row that the payments themselves determine. */
  ghost function ColumnsOf(db: Db, prices: map<Bucket, real>, key: StatKey): Columns {
    var rows := PaymentsAt(db.payments, key);
    Columns(|TxsOf(rows.Keys)|, |rows|, Spent(rows), GasOf(db, prices, key), |Services(rows)|)
  }

  /** Rows that are exact have the columns their payments determine, also where there is no row. */
  lemma ColumnsAreExact(db: Db, prices: map<Bucket, real>, key: StatKey)
    requires Exact(db) && GasExact(db, prices)
    ensures PaymentColumns(db.stats, key) == ColumnsOf(db, prices, key)
  {
    assert ExactAt(db.stats, db.payments, key) && GasAt(db.stats, db, prices, key);
    NothingAddsUp();
    if key !in db.stats {
      assert PaymentsAt(db.payments, key) == map[];
      assert forall k :: k in PaidKeys(db, key) ==> k in PaymentsAt(db.payments, key);
      assert PaidKeys(db, key) == {};
      assert GasMap(db, prices, {}) == map[];
    }
  }

  lemma NothingAddsUp()
    ensures TxsOf({}) == {} && Services(map[]) == {} && Spent(map[]) == 0.0
  {
  }

  // ------------------------------------------------------------ one chain

  function ChainBlocks(chain: View, lo: nat, hi: nat): set<Block>
    requires Has(chain, lo, hi)
  {
    set n | lo <= n < hi :: chain[n]
  }

  /** The transactions of the payments that were there at the start are as they were. */
  ghost predicate BaseTxs(db: Db, base: Db) {
    forall k :: k in base.payments && k.tx in base.txs ==> k.tx in db.txs && db.txs[k.tx] == base.txs[k.tx]
  }

  /** The rows are exact, and the transactions they read are those of the start and the chain. */
  ghost predicate Counts(db: Db, base: Db, cfg: Config, chain: View, lo: nat, hi: nat)
    requires Has(chain, lo, hi)
  {
    && Exact(db) && GasExact(db, cfg.prices)
    && TxsStand(db.txs, cfg, ChainBlocks(chain, lo, hi))
    && BaseTxs(db, base)
  }

  lemma StartCounts(base: Db, cfg: Config, chain: View, lo: nat)
    requires Exact(base) && GasExact(base, cfg.prices)
    ensures Counts(base, base, cfg, chain, lo, lo)
  {
    hide Exact, GasExact;
  }

  /** A block whose payments are all new cannot disturb the rows of a day. */
  lemma NewPaymentsKeepCounts(db: Db, cfg: Config, b: Block, w: Worker)
    requires Exact(db) && GasExact(db, cfg.prices) && AllNew(db, b)
    ensures Exact(Accept(db, cfg, b, w)) && GasExact(Accept(db, cfg, b, w), cfg.prices)
  {
    hide Exact, GasExact, Accept, PromotedOf, BlockEvidence, BlockTxs, BlockCandidates, TxRows, AffectedDays, Persist;
    BlockRowsFit(cfg, b);
    assert Recounts(db, cfg, b);
    assert KeepsDetails(db, cfg, b);
    AcceptKeepsExactIff(db, cfg, b, w);
    AcceptKeepsGas(db, cfg, b, w);
  }

  lemma NextTxsStand(db: Db, base: Db, cfg: Config, chain: View, w: Worker, lo: nat, hi: nat)
    requires Has(chain, lo, hi) && hi in chain && lo <= hi && Canonical(chain)
    requires Clear(base.payments, chain, lo, KeyTx, PaymentHeight)
    requires TxsStand(db.txs, cfg, ChainBlocks(chain, lo, hi)) && BaseTxs(db, base)
    ensures var after := Accept(db, cfg, chain[hi], w);
            Has(chain, lo, hi + 1) && TxsStand(after.txs, cfg, ChainBlocks(chain, lo, hi + 1)) && BaseTxs(after, base)
  {
    hide BlockTxs, TxsStand, TxRows, BlockCandidates, Index;
    var b := chain[hi];
    IndexFrame(db, cfg, b);
    BlockRowsFit(cfg, b);
    AcceptTxsStand(db.txs, cfg, b, ChainBlocks(chain, lo, hi));
    assert ChainBlocks(chain, lo, hi + 1) == ChainBlocks(chain, lo, hi) + {b};
    forall k | k in base.payments && k.tx in base.txs ensures k.tx !in TxRows(BlockCandidates(cfg, b)) {
      assert KeyTx(k) !in BlockTxs(b);
    }
  }

  lemma NextCounts(db: Db, base: Db, cfg: Config, chain: View, w: Worker, backfill: bool, lo: nat, hi: nat)
    requires Has(chain, lo, hi) && hi in chain && lo <= hi && Canonical(chain) && Start(base, cfg, chain, w, lo)
    requires Follows(db, base, cfg, chain, w, lo, hi)
    requires hi == lo ==> Ready(db, chain, w, lo)
    requires Counts(db, base, cfg, chain, lo, hi)
    ensures Process(db, cfg, chain, hi, w, backfill).Ok? && Has(chain, lo, hi + 1)
    ensures Counts(Process(db, cfg, chain, hi, w, backfill).value, base, cfg, chain, lo, hi + 1)
  {
    FollowNext(db, base, cfg, chain, w, backfill, lo, hi);
    NextIsNew(db, base, cfg, chain, w, lo, hi);
    hide Process, Follows, AllNew, Accept, Exact, GasExact, TxsStand, BaseTxs, ChainBlocks, Clear, Ready, Canonical;
    NewPaymentsKeepCounts(db, cfg, chain[hi], w);
    NextTxsStand(db, base, cfg, chain, w, lo, hi);
  }

  lemma {:induction false} RunCounts(db: Db, base: Db, cfg: Config, chain: View, w: Worker, backfill: bool,
                                     lo: nat, first: nat, past: nat)
    requires Has(chain, lo, past) && lo <= first <= past && Canonical(chain) && Start(base, cfg, chain, w, lo)
    requires Follows(db, base, cfg, chain, w, lo, first)
    requires first == lo ==> Ready(db, chain, w, lo)
    requires Counts(db, base, cfg, chain, lo, first)
    ensures var r := IndexRun(db, cfg, chain, w, backfill, first, past);
            r.Ok? && Counts(r.value, base, cfg, chain, lo, past)
    decreases past
  {
    hide Process, Follows, Start, Canonical, Ready, Counts;
    if past > first {
      RunFollows(db, base, cfg, chain, w, backfill, lo, first, past - 1);
      RunCounts(db, base, cfg, chain, w, backfill, lo, first, past - 1);
      var d := IndexRun(db, cfg, chain, w, backfill, first, past - 1).value;
      NextCounts(d, base, cfg, chain, w, backfill, lo, past - 1);
    }
  }

  /** A recovery leaves the transactions alone; those of the common blocks are the new chain's too. */
  lemma ForkCounts(db: Db, base: Db, cfg: Config, oldChain: View, newChain: View, w: Worker, backfill: bool,
                   lo: nat, m: nat, a: nat)
    requires lo < m && Has(oldChain, lo, m) && Has(newChain, lo, m + 1) && Counts(db, base, cfg, oldChain, lo, m)
    requires var d := Detect(db, cfg.maxReorgDepth, newChain, newChain[m], w, backfill); d.Reorg? && d.ancestor == a
    requires Process(db, cfg, newChain, m, w, backfill).Ok?
    requires a < m && forall n: nat :: lo <= n <= a ==> oldChain[n] == newChain[n]
    ensures Counts(Process(db, cfg, newChain, m, w, backfill).value, base, cfg, newChain, lo, a + 1)
  {
    hide Detect, Recover, Exact, GasExact, Blocked, TxRows, BlockCandidates;
    AncestorInView(db, cfg.maxReorgDepth, newChain, newChain[m], w, backfill);
    RecoverFrame(db, cfg, newChain, m, a, w);
    RecoverKeepsExact(db, cfg, newChain, m, a, w);
    RecoverKeepsGas(db, cfg, newChain, m, a, w);
    assert ChainBlocks(newChain, lo, a + 1) <= ChainBlocks(oldChain, lo, m);
  }

  // ---------------------------------------------------------- convergence

  /** The transaction of a payment of the chain is that of the block which pays it. */
  lemma PaidTxAlike(x: Db, y: Db, cfg: Config, chain: View, lo: nat, hi: nat, k: Key)
    requires Has(chain, lo, hi) && k in OfChain(PaymentTable(cfg), chain, lo, hi)
    requires TxsStand(x.txs, cfg, ChainBlocks(chain, lo, hi)) && TxsStand(y.txs, cfg, ChainBlocks(chain, lo, hi))
    ensures k.tx in x.txs && k.tx in y.txs && x.txs[k.tx] == y.txs[k.tx]
  {
    hide TxRows, BlockCandidates, OfChain, PaymentTable;
    TablesOwnBlock(cfg);
    var n := Home(PaymentTable(cfg), KeyTx, PaymentHeight, chain, lo, hi, k);
    PaymentTxIsStored(cfg, chain[n], k);
    assert chain[n] in ChainBlocks(chain, lo, hi);
  }

  lemma PaymentTxIsStored(cfg: Config, b: Block, k: Key)
    requires Adds(PaymentTable(cfg), b, k)
    ensures AddsTx(cfg, b, k.tx)
  {
    TableRows(cfg, b);
    BlockRowsFit(cfg, b);
    EvidenceAddedRows(BlockEvidence(cfg, b), b.number);
    hide BlockEvidence, TxRows, BlockCandidates, PaymentsOf, PaymentTable;
  }

  lemma FollowersCountAlike(x: Db, y: Db, base: Db, cfg: Config, chain: View, w: Worker, lo: nat, hi: nat,
                            key: StatKey)
    requires Has(chain, lo, hi) && lo < hi && Exact(base)
    requires Follows(x, base, cfg, chain, w, lo, hi) && Follows(y, base, cfg, chain, w, lo, hi)
    requires Counts(x, base, cfg, chain, lo, hi) && Counts(y, base, cfg, chain, lo, hi)
    ensures PaymentColumns(x.stats, key) == PaymentColumns(y.stats, key)
  {
    assert x.payments == y.payments == base.payments + OfChain(PaymentTable(cfg), chain, lo, hi);
    hide Exact, GasExact, TxsStand, OfChain, Follows, PaymentTable;
    forall k | k in x.payments ensures k.tx in x.txs && k.tx in y.txs && x.txs[k.tx] == y.txs[k.tx] {
      if k in OfChain(PaymentTable(cfg), chain, lo, hi) {
        PaidTxAlike(x, y, cfg, chain, lo, hi, k);
      } else {
        TxsKnown(base, k);
      }
    }
    PaymentsCountAlike(x, y, cfg.prices, key);
  }

  lemma TxsKnown(db: Db, k: Key)
    requires Exact(db) && k in db.payments
    ensures k.tx in db.txs
  {
  }

  lemma PaymentsCountAlike(x: Db, y: Db, prices: map<Bucket, real>, key: StatKey)
    requires Exact(x) && Exact(y) && GasExact(x, prices) && GasExact(y, prices) && x.payments == y.payments
    requires forall k :: k in x.payments ==> x.txs[k.tx] == y.txs[k.tx]
    ensures PaymentColumns(x.stats, key) == PaymentColumns(y.stats, key)
  {
    ColumnsAreExact(x, prices, key);
    ColumnsAreExact(y, prices, key);
    assert SamePaid(x, y, key) by { hide ExactAt, GasExact; assert PaidKeys(x, key) == PaidKeys(y, key); }
    SameGas(x, y, prices, key);
  }

  /** Recovering from a fork and replaying the new chain leaves each agent's day with the payment
      columns it would have had without the fork. */
  lemma StatsConverge(base: Db, cfg: Config, oldChain: View, newChain: View, w: Worker, backfill: bool,
                      lo: nat, m: nat, a: nat, end: nat, key: StatKey)
    requires Canonical(oldChain) && Canonical(newChain) && HashFixesBlock(oldChain, newChain)
    requires Start(base, cfg, oldChain, w, lo) && Start(base, cfg, newChain, w, lo) && Anchored(base, w, lo)
    requires Exact(base) && GasExact(base, cfg.prices)
    requires lo < m && Has(oldChain, lo, m) && Has(newChain, lo, m + 1)
    requires a < end && lo < end && Has(newChain, lo, end)
    requires var indexed := IndexRun(base, cfg, oldChain, w, backfill, lo, m);
             indexed.Ok? ==>
               var d := Detect(indexed.value, cfg.maxReorgDepth, newChain, newChain[m], w, backfill);
               d.Reorg? && d.ancestor == a && (a != 0 || lo == 1)
    ensures var indexed := IndexRun(base, cfg, oldChain, w, backfill, lo, m);
            && indexed.Ok?
            && var recovered := Process(indexed.value, cfg, newChain, m, w, backfill);
            && recovered.Ok?
            && var replayed := IndexRun(recovered.value, cfg, newChain, w, backfill, a + 1, end);
            && var direct := IndexRun(base, cfg, newChain, w, backfill, lo, end);
            && replayed.Ok? && direct.Ok?
            && Exact(replayed.value) && GasExact(replayed.value, cfg.prices)
            && PaymentColumns(replayed.value.stats, key) == PaymentColumns(direct.value.stats, key)
  {
    hide *;
    ReorgConverges(base, cfg, oldChain, newChain, w, backfill, lo, m, a, end);
    StartFollows(base, cfg, oldChain, w, lo);
    StartFollows(base, cfg, newChain, w, lo);
    StartCounts(base, cfg, oldChain, lo);
    StartCounts(base, cfg, newChain, lo);
    RunFollows(base, base, cfg, oldChain, w, backfill, lo, lo, m);
    RunCounts(base, base, cfg, oldChain, w, backfill, lo, lo, m);
    RunCounts(base, base, cfg, newChain, w, backfill, lo, lo, end);
    RunFollows(base, base, cfg, newChain, w, backfill, lo, lo, end);
    var indexed := IndexRun(base, cfg, oldChain, w, backfill, lo, m).value;
    ForkRecovered(indexed, base, cfg, oldChain, newChain, w, backfill, lo, m, a);
    HasOneMore(newChain, lo, m);
    AncestorAgrees(indexed, base, cfg, oldChain, newChain, w, backfill, lo, m, a);
    ForkCounts(indexed, base, cfg, oldChain, newChain, w, backfill, lo, m, a);
    var recovered := Process(indexed, cfg, newChain, m, w, backfill).value;
    RunFollows(recovered, base, cfg, newChain, w, backfill, lo, a + 1, end);
    RunCounts(recovered, base, cfg, newChain, w, backfill, lo, a + 1, end);
    var replayed := IndexRun(recovered, cfg, newChain, w, backfill, a + 1, end).value;
    var direct := IndexRun(base, cfg, newChain, w, backfill, lo, end).value;
    CountsAreExact(replayed, base, cfg, newChain, lo, end);
    FollowersCountAlike(replayed, direct, base, cfg, newChain, w, lo, end, key);
  }

  lemma HasOneMore(chain: View, lo: nat, hi: nat)
    requires lo <= hi && Has(chain, lo, hi + 1)
    ensures Has(chain, lo, hi) && hi in chain
  {
  }

  lemma CountsAreExact(db: Db, base: Db, cfg: Config, chain: View, lo: nat, hi: nat)
    requires Has(chain, lo, hi) && Counts(db, base, cfg, chain, lo, hi)
    ensures Exact(db) && GasExact(db, cfg.prices)
  {
  }

  // ------------------------------------------------- whole interleavings

  /** Runs of any interleaving that leave the same blocks standing agree on the daily payments too. */
  lemma StandingFixesColumns(cfg: Config, acts: seq<Action>, others: seq<Action>, key: StatKey)
    requires TransactionsStay(cfg, acts) && NeverReplaces(cfg, acts) && DistinctLogs(cfg, acts)
    requires TransactionsStay(cfg, others) && NeverReplaces(cfg, others) && DistinctLogs(cfg, others)
    requires Standing(cfg, acts) == Standing(cfg, others)
    ensures var x, y := Run(START, cfg, acts).db, Run(START, cfg, others).db;
            PaymentColumns(x.stats, key) == PaymentColumns(y.stats, key)
  {
    hide *;
    StandingFixesTables(cfg, acts, others);
    StayingEndsExact(cfg, acts);
    StayingEndsExact(cfg, others);
    RunMirrorsStanding(cfg, acts);
    RunTxsStand(cfg, acts);
    RunTxsStand(cfg, others);
    var x, y, blocks := Run(START, cfg, acts).db, Run(START, cfg, others).db, Standing(cfg, acts);
    StandingTxsAlike(x, y, cfg, blocks);
    PaymentsCountAlike(x, y, cfg.prices, key);
  }

  lemma StandingTxsAlike(x: Db, y: Db, cfg: Config, blocks: set<Block>)
    requires Mirrors(x, cfg, blocks) && TxsStand(x.txs, cfg, blocks) && TxsStand(y.txs, cfg, blocks)
    ensures forall k :: k in x.payments ==> k.tx in x.txs && k.tx in y.txs && x.txs[k.tx] == y.txs[k.tx]
  {
    hide PaymentTable, EvidenceTable, InteractionTable, TxRows, BlockCandidates;
    forall k | k in x.payments ensures k.tx in x.txs && k.tx in y.txs && x.txs[k.tx] == y.txs[k.tx] {
      assert AddedBySome(blocks, PaymentTable(cfg), k);
      var b :| b in blocks && Adds(PaymentTable(cfg), b, k);
      PaymentTxIsStored(cfg, b, k);
    }
  }

  lemma StayingEndsExact(cfg: Config, acts: seq<Action>)
    requires TransactionsStay(cfg, acts) && DistinctLogs(cfg, acts)
    ensures Exact(Run(START, cfg, acts).db) && GasExact(Run(START, cfg, acts).db, cfg.prices)
  {
    StayingRunIsSoundAndExact(cfg, acts);
    StayingRunKeepsGas(cfg, acts);
    hide Run, Exact, GasExact;
    assert ExactThroughout(cfg, acts) && GasThroughout(cfg, acts);
  }

  function RevenueColumn(stats: map<StatKey, StatsRow>, key: StatKey): real {
    if key in stats then stats[key].revenue else 0.0
  }

  lemma RevenueIsExact(db: Db, prices: map<Bucket, real>, key: StatKey)
    requires RevenueExact(db, prices) && key.agent in db.agents
    ensures RevenueColumn(db.stats, key) == Revenue(db, prices, key)
  {
    assert RevenueAt(db.stats, db, prices, key);
    NothingOver(db, prices);
    hide RevenueKeys, RevenueOver;
  }

  lemma SameRowsSameEarnings(x: Db, y: Db, prices: map<Bucket, real>, key: StatKey)
    requires LiveRows(x.blocks) == LiveRows(y.blocks) && x.evidence == y.evidence
    requires key.agent in x.agents && key.agent in y.agents
    ensures SameEarnings(x, y, prices, key)
  {
    forall n: nat ensures Live(x.blocks, n) <==> Live(y.blocks, n)
                  ensures Live(x.blocks, n) ==> x.blocks[n] == y.blocks[n]
    {
      assert n in LiveRows(x.blocks) <==> n in LiveRows(y.blocks);
      assert Live(x.blocks, n) ==> LiveRows(x.blocks)[n] == x.blocks[n] && LiveRows(y.blocks)[n] == y.blocks[n];
    }
    hide LiveRows;
    forall k ensures k in RevenueKeys(x, prices, key) <==> k in RevenueKeys(y, prices, key) {
      assert k in x.evidence ==> (Live(x.blocks, x.evidence[k].block) <==> Live(y.blocks, y.evidence[k].block));
    }
  }

  /** They agree on the revenue of the agents of both, if neither leaves an earning uncounted. */
  lemma StandingFixesRevenue(cfg: Config, acts: seq<Action>, others: seq<Action>, key: StatKey)
    requires TransactionsStay(cfg, acts) && NeverReplaces(cfg, acts) && DistinctLogs(cfg, acts)
    requires TransactionsStay(cfg, others) && NeverReplaces(cfg, others) && DistinctLogs(cfg, others)
    requires Standing(cfg, acts) == Standing(cfg, others)
    requires EarningsRecounted(cfg, acts) && EarningsRecounted(cfg, others)
    requires key.agent in Run(START, cfg, acts).db.agents && key.agent in Run(START, cfg, others).db.agents
    ensures var x, y := Run(START, cfg, acts).db, Run(START, cfg, others).db;
            RevenueColumn(x.stats, key) == RevenueColumn(y.stats, key)
  {
    hide *;
    var x, y := Run(START, cfg, acts).db, Run(START, cfg, others).db;
    StandingFixesTables(cfg, acts, others);
    RunKeepsRevenueIff(cfg, acts);
    RunKeepsRevenueIff(cfg, others);
    LastRevenue(cfg, acts);
    LastRevenue(cfg, others);
    SameRowsSameEarnings(x, y, cfg.prices, key);
    SameRevenueSum(x, y, cfg.prices, key);
    RevenueIsExact(x, cfg.prices, key);
    RevenueIsExact(y, cfg.prices, key);
  }

  lemma LastRevenue(cfg: Config, acts: seq<Action>)
    requires RevenueThroughout(cfg, acts)
    ensures RevenueExact(Run(START, cfg, acts).db, cfg.prices)
  {
    hide RevenueExact, Run;
  }

  lemma SameRevenueSum(x: Db, y: Db, prices: map<Bucket, real>, key: StatKey)
    requires SameEarnings(x, y, prices, key)
    ensures Revenue(x, prices, key) == Revenue(y, prices, key)
  {
    OverAlike(x, y, prices, RevenueKeys(x, prices, key));
  }
}
