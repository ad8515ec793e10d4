/** What an accepted block leaves in each table, in terms of its logs, transactions and header alone. */
module IndexedBlocks {
  import opened Types
  import opened Candidates
  import opened Domain
  import opened DailyStats
  import opened Aggregates
  import opened Orchestrator
  import opened BlockEffects
  import opened Confluence
  import opened RealtimeWorkers
  import opened Runs
  import opened StepEffects
  import opened Integrity
  import opened Standings
  import opened PaymentLogs

  function KeyOf(t: Transfer): Key { Key(t.tx, t.logIndex) }

  predicate Pays(cfg: Config, b: Block, t: Transfer) { t in b.transfers && IsPayment(cfg, b, t) }

  /** A payment whose score reaches the threshold. */
  predicate Counts(cfg: Config, b: Block, t: Transfer) { Pays(cfg, b, t) && Score(cfg, b, t) >= cfg.threshold }

  // -------------------------------------------------------- one table each

  /** Each payment's record is stored; a row already there keeps its block number and nothing else. */
  ghost predicate RecordsStored(c: Core, after: Core, cfg: Config, b: Block) {
    && (forall t :: Pays(cfg, b, t) ==>
          var k := KeyOf(t);
          && k in after.evidence
          && after.evidence[k]
             == RecordOf(cfg, b, t).(block := if k in c.evidence then c.evidence[k].block else b.number))
    && (forall k :: (forall t :: Pays(cfg, b, t) ==> KeyOf(t) != k) ==>
          (k in after.evidence <==> k in c.evidence)
          && (k in c.evidence ==> after.evidence[k] == c.evidence[k]))
  }

  /** The dollar value of an amount in millionths of a token, at the price of its hour. */
  function Worth(prices: map<Bucket, real>, asset: Address, amount: nat, time: nat, otherwise: Option<real>)
    : Option<real>
  {
    var hour := Bucket(asset, time - time % 3600);
    if hour in prices then Some(amount as real / 1000000.0 * prices[hour]) else otherwise
  }

  /** Each payment that counts is stored at the block's height, with the time of the block its record
      sits at and its dollar value, or the value it had when the price is unknown. */
  ghost predicate PaymentsStored(c: Core, after: Core, cfg: Config, b: Block) {
    && (forall t :: Counts(cfg, b, t) ==>
          var k := KeyOf(t);
          && k in after.payments && k in after.evidence && after.evidence[k].block in after.blocks
          && var time := after.blocks[after.evidence[k].block].time;
          var had := if k in c.payments then c.payments[k].usd else None;
          after.payments[k] == Payment(b.number, time, t.payer, t.payTo, t.asset, t.amount,
                                       Worth(cfg.prices, t.asset, t.amount, time, had)))
    && (forall k :: (forall t :: Counts(cfg, b, t) ==> KeyOf(t) != k) ==>
          (k in after.payments <==> k in c.payments)
          && (k in c.payments ==> after.payments[k] == c.payments[k]))
  }

  /** Each payer is an agent, first seen no later and last seen no earlier than the block; the flag of
      an agent never changes. */
  ghost predicate AgentsSeen(c: Core, after: Core, cfg: Config, b: Block) {
    && (forall t :: Counts(cfg, b, t) ==>
          var a := t.payer;
          && a in after.agents
          && after.agents[a]
             == if a !in c.agents then Agent(a in cfg.contracts, b.number, b.number)
                else Agent(c.agents[a].isContract,
                           if c.agents[a].firstSeen < b.number then c.agents[a].firstSeen else b.number,
                           if c.agents[a].lastSeen > b.number then c.agents[a].lastSeen else b.number))
    && (forall a :: (forall t :: Counts(cfg, b, t) ==> t.payer != a) ==>
          (a in after.agents <==> a in c.agents) && (a in c.agents ==> after.agents[a] == c.agents[a]))
  }

  ghost predicate ServicesAdded(c: Core, after: Core, cfg: Config, b: Block) {
    forall a :: a in after.services <==> a in c.services || exists t :: Counts(cfg, b, t) && t.payTo == a
  }

  /** The key is that of the call behind the payment: its transaction, payer, target and selector. */
  predicate IsCall(b: Block, t: Transfer, k: InteractionKey)
    requires t.tx in b.txs
  {
    && k.tx == t.tx && k.agent == t.payer && k.target == b.txs[t.tx].to
    && |k.selector| == 10 && k.selector <= b.txs[t.tx].input
  }

  ghost predicate CallBehind(cfg: Config, b: Block, k: InteractionKey) {
    exists t :: Counts(cfg, b, t) && IsCall(b, t, k)
  }

  /** Each call behind a payment that counts is an interaction; one already there stays as it is. */
  ghost predicate CallsStored(c: Core, after: Core, cfg: Config, b: Block) {
    forall k ::
      && (k in after.interactions <==> k in c.interactions || CallBehind(cfg, b, k))
      && (k in after.interactions ==>
            after.interactions[k] == if k in c.interactions then c.interactions[k] else Moment(b.number, b.time))
  }

  /** The transactions of the payments are stored as the node has them, and no others. */
  ghost predicate TxsStored(c: Core, after: Core, cfg: Config, b: Block) {
    && (forall t :: Pays(cfg, b, t) ==> t.tx in after.txs && after.txs[t.tx] == TxRow(b.number, b.txs[t.tx]))
    && (forall h :: (forall t :: Pays(cfg, b, t) ==> t.tx != h) ==>
          (h in after.txs <==> h in c.txs) && (h in c.txs ==> after.txs[h] == c.txs[h]))
  }

  ghost predicate Indexed(c: Core, after: Core, cfg: Config, b: Block) {
    && after.blocks == c.blocks[b.number := BlockRow(b.hash, b.parent, b.time, false)]
    && RecordsStored(c, after, cfg, b)
    && PaymentsStored(c, after, cfg, b)
    && AgentsSeen(c, after, cfg, b)
    && ServicesAdded(c, after, cfg, b)
    && CallsStored(c, after, cfg, b)
    && TxsStored(c, after, cfg, b)
  }

  // ----------------------------------------------------------- from the logs

  lemma EvidenceOfLog(cfg: Config, b: Block, t: Transfer)
    requires Pays(cfg, b, t)
    ensures RecordOf(cfg, b, t) in BlockEvidence(cfg, b)
    ensures Counts(cfg, b, t) ==> RecordOf(cfg, b, t) in PromotedOf(cfg, b)
  {
    EvidenceIff(cfg, b, RecordOf(cfg, b, t));
    hide BlockEvidence, IsPayment;
    PromotedAreEvidence(BlockEvidence(cfg, b), cfg.threshold);
  }

  lemma LogOfEvidence(cfg: Config, b: Block, e: Evidence) returns (t: Transfer)
    requires e in BlockEvidence(cfg, b)
    ensures Pays(cfg, b, t) && e == RecordOf(cfg, b, t) && e.key == KeyOf(t)
    ensures e in PromotedOf(cfg, b) ==> Counts(cfg, b, t)
  {
    EvidenceIff(cfg, b, e);
    hide BlockEvidence, IsPayment;
    PromotedAreEvidence(BlockEvidence(cfg, b), cfg.threshold);
    t :| t in b.transfers && IsPayment(cfg, b, t) && e == RecordOf(cfg, b, t);
  }

  /** The keys of what a block derives are those of its payments. */
  lemma KeysOfLogs(cfg: Config, b: Block, k: Key)
    ensures k in DeltaOf(cfg, b).evidence <==> exists t :: Pays(cfg, b, t) && KeyOf(t) == k
    ensures k in DeltaOf(cfg, b).payments <==> exists t :: Counts(cfg, b, t) && KeyOf(t) == k
  {
    PromotedKeys(cfg, b);
    PromotedAreEvidence(BlockEvidence(cfg, b), cfg.threshold);
    hide BlockEvidence, Promoted, EvidenceAdded, PaymentsAdded, TxRows, See, InteractionsAdded, IsPayment, Score;
    var es, ps := BlockEvidence(cfg, b), PromotedOf(cfg, b);
    if k in Keys(es) {
      var e :| e in es && e.key == k;
      var t := LogOfEvidence(cfg, b, e);
    }
    if k in Keys(ps) {
      var e :| e in ps && e.key == k;
      var t := LogOfEvidence(cfg, b, e);
    }
    if t :| Pays(cfg, b, t) && KeyOf(t) == k {
      EvidenceOfLog(cfg, b, t);
    }
    if t :| Counts(cfg, b, t) && KeyOf(t) == k {
      EvidenceOfLog(cfg, b, t);
    }
  }

  lemma RecordInDelta(cfg: Config, b: Block, t: Transfer)
    requires LogsDistinct(b) && Pays(cfg, b, t)
    ensures var d, k := DeltaOf(cfg, b), KeyOf(t); k in d.evidence && d.evidence[k] == RecordOf(cfg, b, t)
  {
    EvidenceOfLog(cfg, b, t);
    hide DeltaOf, BlockEvidence, IsPayment, LogsDistinct;
    EvidenceIsDelta(cfg, b, RecordOf(cfg, b, t));
  }

  lemma PaymentInDelta(cfg: Config, b: Block, t: Transfer)
    requires LogsDistinct(b) && Counts(cfg, b, t)
    ensures var d, k := DeltaOf(cfg, b), KeyOf(t);
            k in d.payments && d.payments[k] == PaymentOf(RecordOf(cfg, b, t), b.time)
  {
    KeysOfLogs(cfg, b, KeyOf(t));
    EvidenceOfLog(cfg, b, t);
    PromotedAreEvidence(BlockEvidence(cfg, b), cfg.threshold);
    hide BlockEvidence, Promoted, PaymentsAdded, IsPayment, LogsDistinct, TxRows, See, InteractionsAdded, EvidenceAdded;
    var e := PaymentFrom(PromotedOf(cfg, b), b.time, KeyOf(t));
    OneEvidencePerKey(cfg, b, e, RecordOf(cfg, b, t));
  }

  // ------------------------------------------------------ table by table

  lemma RecordsAfter(db: Db, cfg: Config, b: Block, w: Worker)
    requires HeightsStored(CoreOf(db)) && LogsDistinct(b)
    ensures RecordsStored(CoreOf(db), CoreOf(Accept(db, cfg, b, w)), cfg, b)
  {
    hide Accept, DeltaOf, IsPayment, LogsDistinct, HeightsStored, RecordOf;
    forall t | Pays(cfg, b, t)
      ensures var k, after := KeyOf(t), Accept(db, cfg, b, w);
              && k in after.evidence
              && after.evidence[k]
                 == RecordOf(cfg, b, t).(block := if k in db.evidence then db.evidence[k].block else b.number)
    {
      RecordInDelta(cfg, b, t);
      AcceptedRow(db, cfg, b, w, KeyOf(t));
    }
    forall k | forall t :: Pays(cfg, b, t) ==> KeyOf(t) != k
      ensures var after := Accept(db, cfg, b, w);
              && (k in after.evidence <==> k in db.evidence)
              && (k in db.evidence ==> after.evidence[k] == db.evidence[k])
    {
      KeysOfLogs(cfg, b, k);
      AcceptedRow(db, cfg, b, w, k);
    }
  }

  /** The payment an accepted block leaves under a key of its own. */
  lemma PaymentAfter(db: Db, cfg: Config, b: Block, w: Worker, k: Key)
    requires HeightsStored(CoreOf(db)) && k in DeltaOf(cfg, b).payments
    ensures var d, after := DeltaOf(cfg, b), Accept(db, cfg, b, w);
            && k in after.payments && k in after.evidence && after.evidence[k].block in after.blocks
            && var time := after.blocks[after.evidence[k].block].time;
            after.payments[k] == ConvertOne(d.payments[k].(time := time, usd := OldUsd(db.payments, k)), cfg.prices)
  {
    var c, d, after := CoreOf(db), DeltaOf(cfg, b), Accept(db, cfg, b, w);
    StoredIsJoinable(c, cfg, b);
    AcceptApplies(db, cfg, b, w);
    DeltaRow(cfg, b);
    DeltaKeysAreBlockTxs(cfg, b);
    assert HeightAt(c.evidence, k, b.number) == b.number || HeightAt(c.evidence, k, b.number) in c.blocks;
    hide Accept, DeltaOf, WithPayments, Merge, HeightsStored, Joinable, ConvertOne, JoinTime;
    var placed := Placed(c, d);
    WithPaymentsAt(c.payments, placed.payments, cfg.prices, k);
    PlacedRow(c.evidence, d.evidence, b.number, k);
    JoinTimeAt(c.evidence, d.evidence, c.blocks, b.number, d.row, k, b.time);
    assert CoreOf(after).payments == WithPayments(c.payments, placed.payments, cfg.prices);
    assert CoreOf(after).evidence == c.evidence + placed.evidence;
    assert CoreOf(after).blocks == c.blocks[b.number := d.row];
  }

  lemma PaymentsAfter(db: Db, cfg: Config, b: Block, w: Worker)
    requires HeightsStored(CoreOf(db)) && LogsDistinct(b)
    ensures PaymentsStored(CoreOf(db), CoreOf(Accept(db, cfg, b, w)), cfg, b)
  {
    hide Accept, DeltaOf, IsPayment, LogsDistinct, HeightsStored, RecordOf, Score, ConvertOne, Worth;
    forall t | Counts(cfg, b, t)
      ensures var k, after := KeyOf(t), Accept(db, cfg, b, w);
              && k in after.payments && k in after.evidence && after.evidence[k].block in after.blocks
              && var time := after.blocks[after.evidence[k].block].time;
              var had := if k in db.payments then db.payments[k].usd else None;
              after.payments[k] == Payment(b.number, time, t.payer, t.payTo, t.asset, t.amount,
                                           Worth(cfg.prices, t.asset, t.amount, time, had))
    {
      PaymentInDelta(cfg, b, t);
      PaymentAfter(db, cfg, b, w, KeyOf(t));
      Recorded(cfg, b, t);
      var k, after := KeyOf(t), Accept(db, cfg, b, w);
      var time := after.blocks[after.evidence[k].block].time;
      Valued(PaymentOf(RecordOf(cfg, b, t), b.time).(time := time, usd := OldUsd(db.payments, k)), cfg.prices);
    }
    forall k | forall t :: Counts(cfg, b, t) ==> KeyOf(t) != k
      ensures var after := Accept(db, cfg, b, w);
              && (k in after.payments <==> k in db.payments)
              && (k in db.payments ==> after.payments[k] == db.payments[k])
    {
      KeysOfLogs(cfg, b, k);
      AcceptedRow(db, cfg, b, w, k);
    }
  }

  lemma Valued(p: Payment, prices: map<Bucket, real>)
    ensures ConvertOne(p, prices) == p.(usd := Worth(prices, p.asset, p.amount, p.time, p.usd))
  {
    var hour := PriceOf(p);
    assert hour == Bucket(p.asset, p.time - p.time % 3600);
    if hour in prices {
      assert UsdOf(p.amount, prices[hour]) == p.amount as real / 1000000.0 * prices[hour];
      assert Worth(prices, p.asset, p.amount, p.time, p.usd).Some?;
      assert Worth(prices, p.asset, p.amount, p.time, p.usd).value == p.amount as real / 1000000.0 * prices[hour];
    } else {
      assert Worth(prices, p.asset, p.amount, p.time, p.usd) == p.usd;
    }
  }

  lemma Recorded(cfg: Config, b: Block, t: Transfer)
    requires Pays(cfg, b, t)
    ensures var e := RecordOf(cfg, b, t);
            && e.block == b.number && e.payer == t.payer && e.payTo == t.payTo
            && e.asset == t.asset && e.amount == t.amount
  {
    hide IsPayment, Score;
  }

  ghost predicate Payer(es: seq<Evidence>, a: Address) { exists e :: e in es && e.payer == a }

  lemma {:induction false} SeenRows(contracts: set<Address>, es: seq<Evidence>, n: nat)
    requires AtBlock(es, n)
    ensures forall a :: a in See(map[], contracts, es) <==> Payer(es, a)
    ensures forall a :: a in See(map[], contracts, es) ==> See(map[], contracts, es)[a] == Agent(a in contracts, n, n)
  {
    if es != [] {
      var shorter := es[..|es| - 1];
      SeenRows(contracts, shorter, n);
      assert es == shorter + [es[|es| - 1]];
      forall a ensures Payer(es, a) <==> Payer(shorter, a) || a == es[|es| - 1].payer {
        if a == es[|es| - 1].payer {
          assert es[|es| - 1] in es;
        }
      }
    }
  }

  lemma AgentsMerged(db: Db, cfg: Config, b: Block, w: Worker)
    requires HeightsStored(CoreOf(db))
    ensures Accept(db, cfg, b, w).agents == Merge(db.agents, See(map[], cfg.contracts, PromotedOf(cfg, b)))
  {
    hide Accept, WithPayments, Placed, BlockEvidence, PromotedOf, See, HeightsStored, TxRows, Merge;
    hide BlockCandidates, InteractionsAdded, PaymentsAdded, EvidenceAdded;
    StoredIsJoinable(CoreOf(db), cfg, b);
    AcceptApplies(db, cfg, b, w);
    PlacedKeepsAgents(CoreOf(db), DeltaOf(cfg, b));
    assert CoreOf(Accept(db, cfg, b, w)).agents == Accept(db, cfg, b, w).agents;
  }

  lemma PlacedKeepsAgents(c: Core, d: Delta)
    ensures Placed(c, d).agents == d.agents
  {
    hide PlacedEvidence, PlacedPayments;
  }

  lemma PayersAreCounted(cfg: Config, b: Block, a: Address)
    ensures Payer(PromotedOf(cfg, b), a) <==> exists t :: Counts(cfg, b, t) && t.payer == a
  {
    hide BlockEvidence, PromotedOf, IsPayment, Score, RecordOf;
    var ps := PromotedOf(cfg, b);
    if Payer(ps, a) {
      var e :| e in ps && e.payer == a;
      BlockRowsFit(cfg, b);
      var t := LogOfEvidence(cfg, b, e);
      Recorded(cfg, b, t);
    }
    if t :| Counts(cfg, b, t) && t.payer == a {
      EvidenceOfLog(cfg, b, t);
      Recorded(cfg, b, t);
    }
  }

  lemma AgentsAfter(db: Db, cfg: Config, b: Block, w: Worker)
    requires HeightsStored(CoreOf(db))
    ensures AgentsSeen(CoreOf(db), CoreOf(Accept(db, cfg, b, w)), cfg, b)
  {
    var ps := PromotedOf(cfg, b);
    BlockRowsFit(cfg, b);
    hide Accept, BlockEvidence, PromotedOf, Counts, See, HeightsStored, TxRows, Payer;
    SeenRows(cfg.contracts, ps, b.number);
    AgentsMerged(db, cfg, b, w);
    forall a ensures Payer(ps, a) <==> exists t :: Counts(cfg, b, t) && t.payer == a {
      PayersAreCounted(cfg, b, a);
    }
  }

  lemma ServicesAfter(db: Db, cfg: Config, b: Block, w: Worker)
    requires HeightsStored(CoreOf(db))
    ensures ServicesAdded(CoreOf(db), CoreOf(Accept(db, cfg, b, w)), cfg, b)
  {
    var ps := PromotedOf(cfg, b);
    AcceptedPeople(db, cfg, b, w);
    BlockRowsFit(cfg, b);
    hide Accept, BlockEvidence, PromotedOf, IsPayment, Score, See, HeightsStored, TxRows;
    hide BlockCandidates, InteractionsAdded, PaymentsAdded, EvidenceAdded;
    assert Accept(db, cfg, b, w).services == db.services + Payees(ps);
    forall t | Counts(cfg, b, t) ensures t.payTo in Payees(ps) {
      EvidenceOfLog(cfg, b, t);
      Recorded(cfg, b, t);
      assert RecordOf(cfg, b, t).payTo == t.payTo;
    }
    forall a | a in Payees(ps) ensures exists t :: Counts(cfg, b, t) && t.payTo == a {
      var e :| e in ps && e.payTo == a;
      var t := LogOfEvidence(cfg, b, e);
      Recorded(cfg, b, t);
    }
  }

  // ---------------------------------------------- calls and transactions

  lemma RowsOfLogs(cfg: Config, b: Block)
    ensures var rows := TxRows(BlockCandidates(cfg, b));
            && (forall t :: Pays(cfg, b, t) ==> t.tx in rows)
            && (forall h :: h in rows ==>
                  h in b.txs && rows[h] == TxRow(b.number, b.txs[h]) && exists t :: Pays(cfg, b, t) && t.tx == h)
  {
    var cs := BlockCandidates(cfg, b);
    var at := CandidatesAt(cfg, b, b.transfers);
    hide KnownAt, Candidates.Candidates, TransfersOf, IsPayment, ByTx;
    ByTxRows(cs);
    forall t | Pays(cfg, b, t) ensures t.tx in TxRows(cs) {
      var i: nat :| i < |b.transfers| && b.transfers[i] == t;
      var j :| 0 <= j < |at| && at[j] == i;
      assert cs[j] in cs && cs[j].transfer == t;
    }
    forall h | h in TxRows(cs)
      ensures h in b.txs && TxRows(cs)[h] == TxRow(b.number, b.txs[h]) && exists t :: Pays(cfg, b, t) && t.tx == h
    {
      var j :| 0 <= j < |cs| && cs[j] == ByTx(cs)[h];
      var t := b.transfers[at[j]];
      PaymentKnown(cfg, b, t);
      assert Pays(cfg, b, t) && t.tx == h;
    }
  }

  lemma PaymentKnown(cfg: Config, b: Block, t: Transfer)
    requires IsPayment(cfg, b, t)
    ensures t.tx in b.txs
  {
  }

  lemma TxsAfter(db: Db, cfg: Config, b: Block, w: Worker)
    ensures TxsStored(CoreOf(db), CoreOf(Accept(db, cfg, b, w)), cfg, b)
  {
    IndexFrame(db, cfg, b);
    RowsOfLogs(cfg, b);
    hide Index, TxRows, BlockCandidates, IsPayment;
    assert Accept(db, cfg, b, w).txs == db.txs + TxRows(BlockCandidates(cfg, b));
  }

  ghost predicate Called(es: seq<Evidence>, rows: map<Hash, TxRow>, k: InteractionKey) {
    exists e :: e in es && e.key.tx in rows && InteractionKeyOf(e, rows) == k
  }

  lemma {:induction false} CalledKeys(es: seq<Evidence>, rows: map<Hash, TxRow>, time: nat, k: InteractionKey)
    ensures k in InteractionsAdded(es, rows, time) <==> Called(es, rows, k)
  {
    hide InteractionKeyOf;
    if es != [] {
      CalledKeys(es[..|es| - 1], rows, time, k);
      assert es == es[..|es| - 1] + [es[|es| - 1]];
    }
  }

  lemma CallOfLog(cfg: Config, b: Block, rows: map<Hash, TxRow>, t: Transfer, k: InteractionKey)
    requires IsPayment(cfg, b, t) && t.tx in rows && rows[t.tx].detail == b.txs[t.tx]
    ensures InteractionKeyOf(RecordOf(cfg, b, t), rows) == k <==> IsCall(b, t, k)
  {
    hide Registered, Score;
    var input := b.txs[t.tx].input;
    SelectorIsPrefix(input);
    assert |input| >= 10 && |Selector(input)| == 10;
    if |k.selector| == 10 && k.selector <= input {
      assert k.selector == input[..10];
    }
  }

  lemma CallsMerged(db: Db, cfg: Config, b: Block, w: Worker)
    requires HeightsStored(CoreOf(db))
    ensures var rows := TxRows(BlockCandidates(cfg, b));
            Accept(db, cfg, b, w).interactions
            == InteractionsAdded(PromotedOf(cfg, b), rows, b.time) + db.interactions
  {
    hide Accept, WithPayments, BlockEvidence, PromotedOf, See, HeightsStored, TxRows, Merge;
    hide BlockCandidates, InteractionsAdded, PaymentsAdded, EvidenceAdded, PlacedEvidence, PlacedPayments;
    StoredIsJoinable(CoreOf(db), cfg, b);
    AcceptApplies(db, cfg, b, w);
    assert CoreOf(Accept(db, cfg, b, w)).interactions == Accept(db, cfg, b, w).interactions;
  }

  /** The calls of the promoted evidence are those behind the payments that count. */
  lemma CallsAreCounted(cfg: Config, b: Block, k: InteractionKey)
    ensures Called(PromotedOf(cfg, b), TxRows(BlockCandidates(cfg, b)), k) <==> CallBehind(cfg, b, k)
  {
    hide BlockEvidence, PromotedOf, IsPayment, Score, RecordOf, TxRows, BlockCandidates, InteractionKeyOf, IsCall;
    var ps, rows := PromotedOf(cfg, b), TxRows(BlockCandidates(cfg, b));
    BlockRowsFit(cfg, b);
    RowsOfLogs(cfg, b);
    forall t | Counts(cfg, b, t) ensures t.tx in b.txs { PaymentKnown(cfg, b, t); }
    if Called(ps, rows, k) {
      var e :| e in ps && e.key.tx in rows && InteractionKeyOf(e, rows) == k;
      var t := LogOfEvidence(cfg, b, e);
      CallOfLog(cfg, b, rows, t, k);
    }
    if t :| Counts(cfg, b, t) && IsCall(b, t, k) {
      EvidenceOfLog(cfg, b, t);
      RecordKey(cfg, b, t);
      CallOfLog(cfg, b, rows, t, k);
    }
  }

  lemma RecordKey(cfg: Config, b: Block, t: Transfer)
    requires IsPayment(cfg, b, t)
    ensures RecordOf(cfg, b, t).key == KeyOf(t)
  {
    hide Score;
  }

  lemma CallsAfter(db: Db, cfg: Config, b: Block, w: Worker)
    requires HeightsStored(CoreOf(db))
    ensures CallsStored(CoreOf(db), CoreOf(Accept(db, cfg, b, w)), cfg, b)
  {
    var ps, rows := PromotedOf(cfg, b), TxRows(BlockCandidates(cfg, b));
    CallsMerged(db, cfg, b, w);
    BlockRowsFit(cfg, b);
    var added := InteractionsAdded(ps, rows, b.time);
    hide *;
    InteractionRows(ps, rows, b.number, b.time);
    forall k ensures k in added <==> CallBehind(cfg, b, k) {
      CalledKeys(ps, rows, b.time, k);
      CallsAreCounted(cfg, b, k);
    }
    SameCalls(db);
    SameCalls(Accept(db, cfg, b, w));
    AddedCalls(CoreOf(db), CoreOf(Accept(db, cfg, b, w)), cfg, b, added);
  }

  lemma SameCalls(db: Db)
    ensures CoreOf(db).interactions == db.interactions
  {
  }

  lemma AddedCalls(c: Core, after: Core, cfg: Config, b: Block, added: map<InteractionKey, Moment>)
    requires after.interactions == added + c.interactions
    requires forall k :: k in added <==> CallBehind(cfg, b, k)
    requires forall k :: k in added ==> added[k] == Moment(b.number, b.time)
    ensures CallsStored(c, after, cfg, b)
  {
    hide CallBehind;
  }

  // ---------------------------------------------------------- whole block

  /** Accepting a block whose logs have distinct indexes leaves exactly that in every table. */
  lemma AcceptIsIndexed(db: Db, cfg: Config, b: Block, w: Worker)
    requires HeightsStored(CoreOf(db)) && LogsDistinct(b)
    ensures Indexed(CoreOf(db), CoreOf(Accept(db, cfg, b, w)), cfg, b)
  {
    AcceptRow(db, cfg, b, w);
    hide Accept, HeightsStored, LogsDistinct, RecordsStored, PaymentsStored, AgentsSeen, ServicesAdded, CallsStored;
    hide TxsStored;
    RecordsAfter(db, cfg, b, w);
    PaymentsAfter(db, cfg, b, w);
    AgentsAfter(db, cfg, b, w);
    ServicesAfter(db, cfg, b, w);
    CallsAfter(db, cfg, b, w);
    TxsAfter(db, cfg, b, w);
  }

  /** Whatever the indexes of the logs: no payment is missed, and no key is made up. */
  lemma AcceptKeys(db: Db, cfg: Config, b: Block, w: Worker, k: Key)
    requires HeightsStored(CoreOf(db))
    ensures var after := Accept(db, cfg, b, w);
            && (k in after.evidence <==> k in db.evidence || exists t :: Pays(cfg, b, t) && KeyOf(t) == k)
            && (k in after.payments <==> k in db.payments || exists t :: Counts(cfg, b, t) && KeyOf(t) == k)
  {
    hide Accept, DeltaOf, HeightsStored, IsPayment, Score;
    AcceptedRow(db, cfg, b, w, k);
    KeysOfLogs(cfg, b, k);
  }

  /** In every run, whatever came before, each accepted block is indexed in that sense. */
  lemma RunIndexes(cfg: Config, acts: seq<Action>, a: Action)
    requires var e := EffectOf(Run(START, cfg, acts), cfg, a); e.Accepted? && LogsDistinct(e.block)
    ensures var s := Run(START, cfg, acts);
            Indexed(CoreOf(s.db), CoreOf(Step(s, cfg, a).db), cfg, EffectOf(s, cfg, a).block)
  {
    var s := Run(START, cfg, acts);
    var ready, after := ReadyFor(s, a), Step(s, cfg, a).db;
    hide Run, Step, EffectOf, Accept, LogsDistinct, HandedOff, HeightsStored, Indexed;
    var e := EffectOf(s, cfg, a);
    RunKeepsStored(cfg, acts);
    StepProduces(s, cfg, a);
    assert CoreOf(ready) == CoreOf(s.db);
    AcceptIsIndexed(ready, cfg, e.block, e.worker);
    assert CoreOf(after) == CoreOf(Accept(ready, cfg, e.block, e.worker));
  }
}
