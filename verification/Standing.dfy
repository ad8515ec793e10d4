/** Where stored rows come from: the blocks a run accepted and has not undone since. */
module Standings {
  import opened Types
  import opened Candidates
  import opened ReorgRecovery
  import opened Domain
  import opened Orchestrator
  import opened BlockEffects
  import opened Confluence
  import opened BlockTables
  import opened RealtimeWorkers
  import opened Runs
  import opened StepEffects
  import opened ChainInvariants
  import opened Integrity
  import opened StatsRuns

  /** The blocks accepted so far, without those above the ancestor of a later recovery. */
  ghost function Standing(cfg: Config, acts: seq<Action>): set<Block> {
    if acts == [] then {}
    else
      var earlier := acts[..|acts| - 1];
      After(Standing(cfg, earlier), EffectOf(Run(START, cfg, earlier), cfg, acts[|acts| - 1]))
  }

  function UpToBlock(blocks: set<Block>, a: nat): set<Block> {
    set b | b in blocks && b.number <= a
  }

  function After(blocks: set<Block>, e: Effect): set<Block> {
    match e
    case Untouched => blocks
    case Accepted(b, _) => blocks + {b}
    case Recovered(_, _, a, _) => UpToBlock(blocks, a)
    case Stuck(a) => UpToBlock(blocks, a)
  }

  // ------------------------------------------------------------ block rows

  /** The row at height `n` is that of one of the blocks. */
  ghost predicate RowFrom(blocks: set<Block>, n: nat, row: BlockRow) {
    exists b :: b in blocks && b.number == n && row == HeaderRow(b)
  }

  ghost predicate SomeBlockAt(blocks: set<Block>, n: nat) {
    exists b :: b in blocks && b.number == n
  }

  /** Exactly the heights of the blocks are live, each with the row of one of them. */
  ghost predicate RowsStand(rows: map<nat, BlockRow>, blocks: set<Block>) {
    && (forall b :: b in blocks ==> Live(rows, b.number))
    && (forall n: nat :: Live(rows, n) ==> RowFrom(blocks, n, rows[n]))
  }

  lemma AcceptRowsStand(rows: map<nat, BlockRow>, blocks: set<Block>, b: Block)
    requires RowsStand(rows, blocks)
    ensures RowsStand(StoreBlock(rows, b), blocks + {b})
  {
    var after, all := StoreBlock(rows, b), blocks + {b};
    forall n: nat | Live(after, n) ensures RowFrom(all, n, after[n]) {
      if n == b.number {
        assert b in all;
      } else {
        assert Live(rows, n);
        var c :| c in blocks && c.number == n && rows[n] == HeaderRow(c);
        assert c in all;
      }
    }
  }

  lemma RecoverRowsStand(rows: map<nat, BlockRow>, blocks: set<Block>, a: nat)
    requires RowsStand(rows, blocks)
    ensures RowsStand(Orphan(rows, a), UpToBlock(blocks, a))
  {
    var after, left := Orphan(rows, a), UpToBlock(blocks, a);
    forall n: nat | Live(after, n) ensures RowFrom(left, n, after[n]) {
      assert Live(rows, n);
      var c :| c in blocks && c.number == n && rows[n] == HeaderRow(c);
      assert c in left;
    }
  }

  /** In every run exactly the heights of the standing blocks are not orphaned, and each of their
      rows is the row of a standing block. */
  lemma {:induction false} RunRowsStand(cfg: Config, acts: seq<Action>)
    ensures RowsStand(Run(START, cfg, acts).db.blocks, Standing(cfg, acts))
  {
    hide Step, EffectOf, Accept, Recover, RowsStand, Orphan, StoreBlock, UpToBlock, Blocked, PaymentsUpTo;
    hide InteractionsUpTo;
    if acts == [] {
      NoRowsStand();
    } else {
      var earlier, a := acts[..|acts| - 1], acts[|acts| - 1];
      RunRowsStand(cfg, earlier);
      var s := Run(START, cfg, earlier);
      var ready, blocks := ReadyFor(s, a), Standing(cfg, earlier);
      StepProduces(s, cfg, a);
      match EffectOf(s, cfg, a)
      case Untouched =>
      case Accepted(b, w) =>
        AcceptRow(ready, cfg, b, w);
        AcceptRowsStand(ready.blocks, blocks, b);
      case Recovered(view, current, ancestor, w) =>
        RecoverFrame(ready, cfg, view, current, ancestor, w);
        RecoverRowsStand(ready.blocks, blocks, ancestor);
      case Stuck(ancestor) => RecoverRowsStand(ready.blocks, blocks, ancestor);
    }
  }

  lemma AcceptRow(db: Db, cfg: Config, b: Block, w: Worker)
    ensures Accept(db, cfg, b, w).blocks == StoreBlock(db.blocks, b)
  {
    IndexFrame(db, cfg, b);
    hide Index, StoreBlock;
  }

  lemma NoRowsStand()
    ensures RowsStand(map[], {})
  {
  }

  // -------------------------------------------------------- derived tables

  /** A table holds what the blocks add to it, and nothing else. */
  ghost predicate Holds<K(!new), V>(table: map<K, V>, blocks: set<Block>, added: Block -> map<K, V>) {
    && (forall b, k :: b in blocks && Adds(added, b, k) ==> k in table && table[k] == added(b)[k])
    && (forall k :: k in table ==> AddedBySome(blocks, added, k))
  }

  ghost predicate AddedBySome<K, V>(blocks: set<Block>, added: Block -> map<K, V>, k: K) {
    exists b :: b in blocks && Adds(added, b, k)
  }

  /** Evidence, payments and interactions are those of the blocks. */
  ghost predicate Mirrors(db: Db, cfg: Config, blocks: set<Block>) {
    && Holds(db.evidence, blocks, EvidenceTable(cfg))
    && Holds(db.payments, blocks, PaymentTable(cfg))
    && Holds(db.interactions, blocks, InteractionTable(cfg))
  }

  /** A block shares transactions with no block of the set but itself. */
  ghost predicate KeepsTransactions(blocks: set<Block>, b: Block) {
    forall c :: c in blocks ==> c == b || BlockTxs(c) !! BlockTxs(b)
  }

  /** A stored row for one of the block's transactions is the block's own. */
  lemma OwnRow<K(!new), V>(table: map<K, V>, blocks: set<Block>, added: Block -> map<K, V>, tx: K -> Hash,
                           height: V -> nat, b: Block, k: K)
    requires Holds(table, blocks, added) && KeepsTransactions(blocks, b) && OwnBlock(added, tx, height)
    requires k in table && tx(k) in BlockTxs(b)
    ensures b in blocks && k in added(b) && table[k] == added(b)[k]
  {
    hide BlockTxs;
    assert AddedBySome(blocks, added, k);
    var c :| c in blocks && Adds(added, c, k);
  }

  /** Writing what a block adds over a table that holds its blocks. */
  lemma HoldsOneMore<K(!new), V>(table: map<K, V>, after: map<K, V>, blocks: set<Block>, added: Block -> map<K, V>,
                                 b: Block)
    requires Holds(table, blocks, added)
    requires after.Keys == table.Keys + added(b).Keys
    requires forall k :: k in added(b) ==> after[k] == added(b)[k]
    requires forall k :: k in table && k !in added(b) ==> after[k] == table[k]
    requires forall k :: k in table && k in added(b) ==> table[k] == added(b)[k]
    ensures Holds(after, blocks + {b}, added)
  {
    var all := blocks + {b};
    forall k | k in after ensures AddedBySome(all, added, k) {
      if k in added(b) {
        assert b in all && Adds(added, b, k);
      } else {
        assert AddedBySome(blocks, added, k);
        var c :| c in blocks && Adds(added, c, k);
        assert c in all;
      }
    }
  }

  lemma HoldsFewer<K(!new), V>(table: map<K, V>, blocks: set<Block>, added: Block -> map<K, V>, tx: K -> Hash,
                               height: V -> nat, a: nat)
    requires Holds(table, blocks, added) && OwnBlock(added, tx, height)
    ensures Holds(UpTo(table, height, a), UpToBlock(blocks, a), added)
  {
    hide BlockTxs;
    var after, left := UpTo(table, height, a), UpToBlock(blocks, a);
    forall k | k in after ensures AddedBySome(left, added, k) {
      assert AddedBySome(blocks, added, k);
      var c :| c in blocks && Adds(added, c, k);
      assert c in left;
    }
  }

  lemma TableRows(cfg: Config, b: Block)
    ensures forall k :: k in EvidenceTable(cfg)(b) ==> k.tx in BlockTxs(b) && EvidenceTable(cfg)(b)[k].block == b.number
    ensures forall k :: k in PaymentTable(cfg)(b) ==> k.tx in BlockTxs(b) && PaymentTable(cfg)(b)[k].block == b.number
    ensures forall k :: k in InteractionTable(cfg)(b) ==>
              k.tx in BlockTxs(b) && InteractionTable(cfg)(b)[k].block == b.number
    ensures PaymentTable(cfg)(b).Keys == DeltaOf(cfg, b).payments.Keys <= EvidenceTable(cfg)(b).Keys
  {
    DeltaKeysAreBlockTxs(cfg, b);
    PaymentsOfBlock(cfg, b);
    hide DeltaOf, PaymentsOf, BlockTxs;
  }

  /** Whatever the store has for a block's transactions is what the block adds. */
  lemma OwnRows(db: Db, cfg: Config, blocks: set<Block>, b: Block)
    requires Mirrors(db, cfg, blocks) && KeepsTransactions(blocks, b)
    ensures forall k :: k in db.evidence && k.tx in BlockTxs(b) ==>
              b in blocks && k in EvidenceTable(cfg)(b) && db.evidence[k] == EvidenceTable(cfg)(b)[k]
    ensures forall k :: k in db.payments && k.tx in BlockTxs(b) ==>
              b in blocks && k in PaymentTable(cfg)(b) && db.payments[k] == PaymentTable(cfg)(b)[k]
    ensures forall k :: k in db.interactions && k.tx in BlockTxs(b) ==>
              b in blocks && k in InteractionTable(cfg)(b) && db.interactions[k] == InteractionTable(cfg)(b)[k]
  {
    hide Holds, BlockTxs, EvidenceTable, PaymentTable, InteractionTable, KeepsTransactions, OwnBlock;
    TablesOwnBlock(cfg);
    forall k | k in db.evidence && k.tx in BlockTxs(b)
      ensures b in blocks && k in EvidenceTable(cfg)(b) && db.evidence[k] == EvidenceTable(cfg)(b)[k]
    {
      OwnRow(db.evidence, blocks, EvidenceTable(cfg), KeyTx, EvidenceHeight, b, k);
    }
    forall k | k in db.payments && k.tx in BlockTxs(b)
      ensures b in blocks && k in PaymentTable(cfg)(b) && db.payments[k] == PaymentTable(cfg)(b)[k]
    {
      OwnRow(db.payments, blocks, PaymentTable(cfg), KeyTx, PaymentHeight, b, k);
    }
    forall k | k in db.interactions && k.tx in BlockTxs(b)
      ensures b in blocks && k in InteractionTable(cfg)(b) && db.interactions[k] == InteractionTable(cfg)(b)[k]
    {
      OwnRow(db.interactions, blocks, InteractionTable(cfg), InteractionTx, InteractionHeight, b, k);
    }
  }

  lemma OwnHeight(db: Db, cfg: Config, blocks: set<Block>, b: Block)
    requires Mirrors(db, cfg, blocks) && KeepsTransactions(blocks, b)
    ensures KeepsHeight(db.evidence, cfg, b)
  {
    OwnRows(db, cfg, blocks, b);
    TableRows(cfg, b);
    BlockRowsFit(cfg, b);
    hide Mirrors, KeepsTransactions, BlockTxs, BlockEvidence, EvidenceTable;
    var es := BlockEvidence(cfg, b);
    forall i | 0 <= i < |es| && es[i].key in db.evidence ensures db.evidence[es[i].key].block == b.number {
      assert es[i] in es;
    }
  }

  /** A payment row written again over itself is unchanged. */
  lemma PaidAgain(p: map<Key, Payment>, cfg: Config, b: Block, k: Key)
    requires k in PaymentsOf(cfg, b) && (k in p ==> p[k] == PaymentsOf(cfg, b)[k])
    ensures var after := WithPayments(p, DeltaOf(cfg, b).payments, cfg.prices);
            k in after && after[k] == PaymentsOf(cfg, b)[k]
  {
    PaymentsOfBlock(cfg, b);
    var added := DeltaOf(cfg, b).payments;
    hide WithPayments, DeltaOf;
    WithPaymentsAt(p, added, cfg.prices, k);
    WithPaymentsAt(map[], added, cfg.prices, k);
  }

  lemma PaymentsOneMore(p: map<Key, Payment>, cfg: Config, b: Block)
    requires forall k :: k in p && k in PaymentsOf(cfg, b) ==> p[k] == PaymentsOf(cfg, b)[k]
    ensures var after := WithPayments(p, DeltaOf(cfg, b).payments, cfg.prices);
            && after.Keys == p.Keys + PaymentsOf(cfg, b).Keys
            && (forall k :: k in PaymentsOf(cfg, b) ==> after[k] == PaymentsOf(cfg, b)[k])
            && (forall k :: k in p && k !in PaymentsOf(cfg, b) ==> after[k] == p[k])
  {
    PaymentsOfBlock(cfg, b);
    var added := DeltaOf(cfg, b).payments;
    hide WithPayments, DeltaOf, PaymentsOf;
    forall k
      ensures k in WithPayments(p, added, cfg.prices) <==> k in p || k in added
      ensures k in PaymentsOf(cfg, b) ==> WithPayments(p, added, cfg.prices)[k] == PaymentsOf(cfg, b)[k]
      ensures k in p && k !in added ==> WithPayments(p, added, cfg.prices)[k] == p[k]
    {
      WithPaymentsAt(p, added, cfg.prices, k);
      if k in PaymentsOf(cfg, b) {
        PaidAgain(p, cfg, b, k);
      }
    }
  }

  lemma MirrorsOneMore(db: Db, after: Db, cfg: Config, b: Block, blocks: set<Block>)
    requires Mirrors(db, cfg, blocks) && KeepsTransactions(blocks, b)
    requires after.evidence == db.evidence + DeltaOf(cfg, b).evidence
    requires after.interactions == DeltaOf(cfg, b).interactions + db.interactions
    requires after.payments == WithPayments(db.payments, DeltaOf(cfg, b).payments, cfg.prices)
    ensures Mirrors(after, cfg, blocks + {b})
  {
    hide DeltaOf, WithPayments, Holds, BlockTxs, KeepsTransactions, PaymentsOf;
    OwnRows(db, cfg, blocks, b);
    TableRows(cfg, b);
    assert Holds(after.evidence, blocks + {b}, EvidenceTable(cfg)) by {
      HoldsOneMore(db.evidence, after.evidence, blocks, EvidenceTable(cfg), b);
    }
    assert Holds(after.interactions, blocks + {b}, InteractionTable(cfg)) by {
      HoldsOneMore(db.interactions, after.interactions, blocks, InteractionTable(cfg), b);
    }
    assert Holds(after.payments, blocks + {b}, PaymentTable(cfg)) by {
      PaymentsOneMore(db.payments, cfg, b);
      HoldsOneMore(db.payments, after.payments, blocks, PaymentTable(cfg), b);
    }
  }

  lemma AcceptMirrors(db: Db, cfg: Config, b: Block, w: Worker, blocks: set<Block>)
    requires Mirrors(db, cfg, blocks) && KeepsTransactions(blocks, b)
    ensures Mirrors(Accept(db, cfg, b, w), cfg, blocks + {b})
  {
    hide Accept, DeltaOf, WithPayments, Mirrors, KeepsTransactions, KeepsHeight, Apply;
    var d, after := DeltaOf(cfg, b), Accept(db, cfg, b, w);
    OwnHeight(db, cfg, blocks, b);
    AcceptAddsAsIs(db, cfg, b, w);
    AddedTables(CoreOf(db), CoreOf(after), d, cfg.prices);
    MirrorsOneMore(db, after, cfg, b, blocks);
  }

  lemma AddedTables(c: Core, after: Core, d: Delta, prices: map<Bucket, real>)
    requires after == Apply(c, d, prices)
    ensures after.evidence == c.evidence + d.evidence
    ensures after.interactions == d.interactions + c.interactions
    ensures after.payments == WithPayments(c.payments, d.payments, prices)
  {
    hide WithPayments, Merge;
  }

  lemma RecoverMirrors(db: Db, cfg: Config, view: View, current: nat, a: nat, w: Worker, blocks: set<Block>)
    requires Mirrors(db, cfg, blocks) && a in view && a < current
    ensures Mirrors(Recover(db, cfg, view, current, a, w), cfg, UpToBlock(blocks, a))
  {
    hide Recover, Holds, UpToBlock, UpTo, EvidenceTable, PaymentTable, InteractionTable, BlockTxs, OwnBlock;
    hide EvidenceUpTo, PaymentsUpTo, InteractionsUpTo;
    RecoverFrame(db, cfg, view, current, a, w);
    CutTables(db, a);
    TablesOwnBlock(cfg);
    HoldsFewer(db.evidence, blocks, EvidenceTable(cfg), KeyTx, EvidenceHeight, a);
    HoldsFewer(db.payments, blocks, PaymentTable(cfg), KeyTx, PaymentHeight, a);
    HoldsFewer(db.interactions, blocks, InteractionTable(cfg), InteractionTx, InteractionHeight, a);
  }

  // ------------------------------------------------------------------ runs

  /** Two accepted blocks that share a transaction are equal, or a recovery between them undid the
      first: each transaction comes back only in the same block unless a recovery removed it. */
  ghost predicate TransactionsStay(cfg: Config, acts: seq<Action>) {
    acts != [] ==>
      var earlier := acts[..|acts| - 1];
      var e := EffectOf(Run(START, cfg, earlier), cfg, acts[|acts| - 1]);
      TransactionsStay(cfg, earlier) && (e.Accepted? ==> KeepsTransactions(Standing(cfg, earlier), e.block))
  }

  /** Evidence and payment of a standing block sit at one height, so no recovery gets stuck. */
  lemma MirrorsNotBlocked(db: Db, cfg: Config, blocks: set<Block>, a: nat)
    requires Mirrors(db, cfg, blocks)
    ensures !Blocked(db, a)
  {
    hide Mirrors, DeltaOf, PaymentsOf, BlockTxs;
    forall k | k in db.payments && k in db.evidence ensures db.payments[k].block == db.evidence[k].block {
      PaidHeight(db, cfg, blocks, k);
    }
  }

  lemma PaidHeight(db: Db, cfg: Config, blocks: set<Block>, k: Key)
    requires Mirrors(db, cfg, blocks) && k in db.payments
    ensures k in db.evidence && db.evidence[k].block == db.payments[k].block
  {
    assert AddedBySome(blocks, PaymentTable(cfg), k);
    var b :| b in blocks && Adds(PaymentTable(cfg), b, k);
    TableRows(cfg, b);
    StandingKey(db, cfg, b, blocks, k);
    hide DeltaOf, PaymentsOf, BlockTxs, EvidenceTable, PaymentTable, InteractionTable;
  }

  lemma StepMirrors(s: System, cfg: Config, a: Action, blocks: set<Block>)
    requires Mirrors(s.db, cfg, blocks)
    requires var e := EffectOf(s, cfg, a); e.Accepted? ==> KeepsTransactions(blocks, e.block)
    ensures Mirrors(Step(s, cfg, a).db, cfg, After(blocks, EffectOf(s, cfg, a)))
  {
    hide Step, EffectOf, Accept, Recover, Holds, KeepsTransactions, Blocked;
    StepProduces(s, cfg, a);
    var ready := ReadyFor(s, a);
    match EffectOf(s, cfg, a)
    case Untouched =>
    case Accepted(b, w) => AcceptMirrors(ready, cfg, b, w, blocks);
    case Recovered(view, current, ancestor, w) => RecoverMirrors(ready, cfg, view, current, ancestor, w, blocks);
    case Stuck(ancestor) => MirrorsNotBlocked(ready, cfg, blocks, ancestor);
  }

  /** Through any interleaving and any number of forks, the evidence, the payments and the
      interactions are exactly those of the standing blocks. */
  lemma {:induction false} RunMirrorsStanding(cfg: Config, acts: seq<Action>)
    requires TransactionsStay(cfg, acts)
    ensures Mirrors(Run(START, cfg, acts).db, cfg, Standing(cfg, acts))
  {
    hide Step, EffectOf, Mirrors, KeepsTransactions, After;
    if acts == [] {
      NothingMirrors(cfg);
    } else {
      var earlier := acts[..|acts| - 1];
      RunMirrorsStanding(cfg, earlier);
      StepMirrors(Run(START, cfg, earlier), cfg, acts[|acts| - 1], Standing(cfg, earlier));
    }
  }

  /** Every stored piece of evidence was derived, as it is, from a standing block at its height. */
  lemma RunEvidenceProvenance(cfg: Config, acts: seq<Action>, k: Key) returns (b: Block)
    requires TransactionsStay(cfg, acts) && k in Run(START, cfg, acts).db.evidence
    ensures var e := Run(START, cfg, acts).db.evidence[k];
            b in Standing(cfg, acts) && b.number == e.block && e.key == k && e in BlockEvidence(cfg, b)
  {
    hide Run, Standing, TransactionsStay, BlockEvidence;
    RunMirrorsStanding(cfg, acts);
    var db, blocks := Run(START, cfg, acts).db, Standing(cfg, acts);
    assert AddedBySome(blocks, EvidenceTable(cfg), k);
    b :| b in blocks && Adds(EvidenceTable(cfg), b, k);
    BlockRowsFit(cfg, b);
    EvidenceAddedRows(BlockEvidence(cfg, b), b.number);
  }

  lemma NothingMirrors(cfg: Config)
    ensures Mirrors(EMPTY_DB, cfg, {})
  {
  }

  // ---------------------------------------- the run conditions follow

  lemma MirrorAgrees(db: Db, cfg: Config, b: Block, blocks: set<Block>)
    requires Mirrors(db, cfg, blocks) && KeepsTransactions(blocks, b) && LogsDistinct(b)
    ensures AgreesWithStored(db, cfg, b)
  {
    OwnRows(db, cfg, blocks, b);
    BlockRowsFit(cfg, b);
    hide Mirrors, KeepsTransactions, LogsDistinct, BlockTxs, BlockEvidence, DeltaOf;
    forall e | e in BlockEvidence(cfg, b) && e.key in db.evidence
      ensures db.evidence[e.key] == e && e.block == b.number
    {
      EvidenceIsDelta(cfg, b, e);
    }
  }

  lemma {:induction false} PaymentFrom(es: seq<Evidence>, time: nat, k: Key) returns (e: Evidence)
    requires k in PaymentsAdded(es, time)
    ensures e in es && e.key == k && PaymentsAdded(es, time)[k] == PaymentOf(e, time)
  {
    var last := es[|es| - 1];
    if last.key == k {
      e := last;
    } else {
      e := PaymentFrom(es[..|es| - 1], time, k);
    }
  }

  lemma PaidAsDerived(cfg: Config, b: Block, e: Evidence)
    requires LogsDistinct(b) && e in PromotedOf(cfg, b) && e.key in PaymentsOf(cfg, b)
    ensures PaymentsOf(cfg, b)[e.key].payer == e.payer && PaymentsOf(cfg, b)[e.key].time == b.time
  {
    PaymentsOfBlock(cfg, b);
    BlockRowsFit(cfg, b);
    hide BlockEvidence, Promoted, WithPayments, LogsDistinct, PaymentsAdded;
    WithPaymentsAt(map[], DeltaOf(cfg, b).payments, cfg.prices, e.key);
    var f := PaymentFrom(PromotedOf(cfg, b), b.time, e.key);
    OneEvidencePerKey(cfg, b, e, f);
  }

  lemma MirrorKeepsDay(db: Db, cfg: Config, b: Block, blocks: set<Block>)
    requires Mirrors(db, cfg, blocks) && KeepsTransactions(blocks, b) && LogsDistinct(b)
    ensures KeepsPayerAndDay(db, cfg, b)
  {
    hide Mirrors, KeepsTransactions, LogsDistinct, BlockTxs, BlockEvidence, PromotedOf, TxRows, Persist;
    var es, ps := BlockEvidence(cfg, b), PromotedOf(cfg, b);
    forall i | 0 <= i < |ps| && ps[i].key in db.payments
      ensures db.payments[ps[i].key].payer == ps[i].payer && db.payments[ps[i].key].time == b.time
      ensures ps[i].key in Persist(db.evidence, es) && Persist(db.evidence, es)[ps[i].key].block == b.number
    {
      assert ps[i] in ps;
      MirrorPaysAlike(db, cfg, b, blocks, ps[i]);
    }
  }

  lemma MirrorPaysAlike(db: Db, cfg: Config, b: Block, blocks: set<Block>, e: Evidence)
    requires Mirrors(db, cfg, blocks) && KeepsTransactions(blocks, b) && LogsDistinct(b)
    requires e in PromotedOf(cfg, b) && e.key in db.payments
    ensures db.payments[e.key].payer == e.payer && db.payments[e.key].time == b.time
    ensures var after := Persist(db.evidence, BlockEvidence(cfg, b)); e.key in after && after[e.key].block == b.number
  {
    hide Mirrors, KeepsTransactions, LogsDistinct, BlockTxs, BlockEvidence, DeltaOf, PromotedOf, TxRows, PaymentsOf;
    hide Persist;
    BlockRowsFit(cfg, b);
    OwnRows(db, cfg, blocks, b);
    assert e.key.tx in BlockTxs(b);
    PaidAsDerived(cfg, b, e);
    StandingKey(db, cfg, b, blocks, e.key);
    PersistedKeys(db.evidence, BlockEvidence(cfg, b));
  }

  /** A payment that stands has its evidence at the block's height. */
  lemma StandingKey(db: Db, cfg: Config, b: Block, blocks: set<Block>, k: Key)
    requires Mirrors(db, cfg, blocks) && b in blocks && k in PaymentTable(cfg)(b)
    ensures k in db.evidence && db.evidence[k].block == b.number
  {
    TableRows(cfg, b);
    hide DeltaOf, PaymentsOf, BlockTxs, EvidenceTable, PaymentTable, InteractionTable;
  }

  /** When transactions stay in their blocks and logs are distinct, a replayed block derives what
      is stored, and everything stated on those conditions holds throughout the run. */
  lemma {:induction false} StayingIsFaithful(cfg: Config, acts: seq<Action>)
    requires TransactionsStay(cfg, acts) && DistinctLogs(cfg, acts)
    ensures Faithful(cfg, acts) && KeepsPayersAndDays(cfg, acts) && NeverStuck(cfg, acts)
  {
    hide Step, EffectOf, Mirrors, KeepsTransactions, LogsDistinct, AgreesWithStored, KeepsPayerAndDay, ReadyFor;
    hide Accept, Recover, PartlyUndone, Blocked;
    if acts != [] {
      var earlier, a := acts[..|acts| - 1], acts[|acts| - 1];
      StayingIsFaithful(cfg, earlier);
      RunMirrorsStanding(cfg, earlier);
      var s, blocks := Run(START, cfg, earlier), Standing(cfg, earlier);
      var e := EffectOf(s, cfg, a);
      StepProduces(s, cfg, a);
      ReadyMirrors(s, cfg, a, blocks);
      if e.Stuck? {
        MirrorsNotBlocked(ReadyFor(s, a), cfg, blocks, e.ancestor);
      }
      if e.Accepted? {
        MirrorAgrees(s.db, cfg, e.block, blocks);
        MirrorKeepsDay(ReadyFor(s, a), cfg, e.block, blocks);
      }
    }
  }

  lemma ReadyMirrors(s: System, cfg: Config, a: Action, blocks: set<Block>)
    requires Mirrors(s.db, cfg, blocks)
    ensures Mirrors(ReadyFor(s, a), cfg, blocks)
  {
    hide Holds, HandedOff;
  }

  /** With each transaction in one block unless a recovery removed it, payments, evidence,
      transactions, agents and services agree and the daily rows are exact after every step. */
  lemma StayingRunIsSoundAndExact(cfg: Config, acts: seq<Action>)
    requires TransactionsStay(cfg, acts) && DistinctLogs(cfg, acts)
    ensures SoundThroughout(cfg, acts) && ExactThroughout(cfg, acts)
  {
    hide *;
    StayingIsFaithful(cfg, acts);
    RunKeepsSoundIff(cfg, acts);
    RunKeepsStatsExact(cfg, acts);
  }

  // ------------------------------------------------ one block per height

  ghost predicate OnePerHeight(blocks: set<Block>) {
    forall b, c :: b in blocks && c in blocks && b.number == c.number ==> b == c
  }

  /** No accepted block replaces a live row of another hash, and a hash stands for one block. */
  ghost predicate NeverReplaces(cfg: Config, acts: seq<Action>) {
    acts != [] ==>
      var earlier := acts[..|acts| - 1];
      var s := Run(START, cfg, earlier);
      var e := EffectOf(s, cfg, acts[|acts| - 1]);
      && NeverReplaces(cfg, earlier)
      && (e.Accepted? ==> KeepsHash(s.db.blocks, Standing(cfg, earlier), e.block))
  }

  ghost predicate KeepsHash(rows: map<nat, BlockRow>, blocks: set<Block>, b: Block) {
    && (Live(rows, b.number) ==> rows[b.number].hash == b.hash)
    && (forall c :: c in blocks && c.hash == b.hash ==> c == b)
  }

  lemma AcceptKeepsOne(rows: map<nat, BlockRow>, blocks: set<Block>, b: Block)
    requires RowsStand(rows, blocks) && OnePerHeight(blocks) && KeepsHash(rows, blocks, b)
    ensures OnePerHeight(blocks + {b})
  {
    forall c | c in blocks && c.number == b.number ensures c == b {
      assert Live(rows, c.number);
      assert RowFrom(blocks, c.number, rows[c.number]);
    }
  }

  lemma {:induction false} NeverReplacesMeansOne(cfg: Config, acts: seq<Action>)
    requires NeverReplaces(cfg, acts)
    ensures OnePerHeight(Standing(cfg, acts))
  {
    hide Step, EffectOf, RowsStand, KeepsHash;
    if acts != [] {
      var earlier := acts[..|acts| - 1];
      NeverReplacesMeansOne(cfg, earlier);
      RunRowsStand(cfg, earlier);
      var s := Run(START, cfg, earlier);
      match EffectOf(s, cfg, acts[|acts| - 1])
      case Untouched =>
      case Accepted(b, w) => AcceptKeepsOne(s.db.blocks, Standing(cfg, earlier), b);
      case Recovered(_, _, _, _) =>
      case Stuck(_) =>
    }
  }

  /** The store is the index of the blocks: one block per height, its row, and what it derives. */
  ghost predicate IsIndexOf(db: Db, cfg: Config, blocks: set<Block>) {
    && OnePerHeight(blocks)
    && (forall n: nat :: Live(db.blocks, n) <==> SomeBlockAt(blocks, n))
    && (forall b :: b in blocks ==> b.number in db.blocks && db.blocks[b.number] == HeaderRow(b))
    && Mirrors(db, cfg, blocks)
  }

  lemma StandingIsIndexed(db: Db, cfg: Config, blocks: set<Block>)
    requires RowsStand(db.blocks, blocks) && OnePerHeight(blocks) && Mirrors(db, cfg, blocks)
    ensures IsIndexOf(db, cfg, blocks)
  {
    hide Mirrors;
    forall b | b in blocks ensures db.blocks[b.number] == HeaderRow(b) && SomeBlockAt(blocks, b.number) {
      assert Live(db.blocks, b.number);
      assert RowFrom(blocks, b.number, db.blocks[b.number]);
    }
    forall n: nat | Live(db.blocks, n) ensures SomeBlockAt(blocks, n) {
      assert RowFrom(blocks, n, db.blocks[n]);
    }
  }

  /** Any interleaving in which no live row is replaced by one of another hash and transactions stay
      in their blocks leaves the index of the standing blocks. */
  lemma RunIndexesStanding(cfg: Config, acts: seq<Action>)
    requires TransactionsStay(cfg, acts) && NeverReplaces(cfg, acts)
    ensures IsIndexOf(Run(START, cfg, acts).db, cfg, Standing(cfg, acts))
  {
    hide *;
    RunRowsStand(cfg, acts);
    RunMirrorsStanding(cfg, acts);
    NeverReplacesMeansOne(cfg, acts);
    StandingIsIndexed(Run(START, cfg, acts).db, cfg, Standing(cfg, acts));
  }

  lemma HoldsFixes<K(!new), V>(t: map<K, V>, u: map<K, V>, blocks: set<Block>, added: Block -> map<K, V>)
    requires Holds(t, blocks, added) && Holds(u, blocks, added)
    ensures t == u
  {
    forall k | k in t || k in u ensures k in t && k in u && t[k] == u[k] {
      assert AddedBySome(blocks, added, k);
      var b :| b in blocks && Adds(added, b, k);
    }
  }

  lemma IndexFixes(x: Db, y: Db, cfg: Config, blocks: set<Block>)
    requires IsIndexOf(x, cfg, blocks) && IsIndexOf(y, cfg, blocks)
    ensures LiveRows(x.blocks) == LiveRows(y.blocks)
    ensures x.evidence == y.evidence && x.payments == y.payments && x.interactions == y.interactions
  {
    hide Holds;
    HoldsFixes(x.evidence, y.evidence, blocks, EvidenceTable(cfg));
    HoldsFixes(x.payments, y.payments, blocks, PaymentTable(cfg));
    HoldsFixes(x.interactions, y.interactions, blocks, InteractionTable(cfg));
    hide Mirrors;
    forall n: nat | Live(x.blocks, n) || Live(y.blocks, n)
      ensures Live(x.blocks, n) && Live(y.blocks, n) && x.blocks[n] == y.blocks[n]
    {
      assert SomeBlockAt(blocks, n);
      var b :| b in blocks && b.number == n;
    }
  }

  /** The tables do not remember how a run got there: two runs that leave the same blocks standing, by
      whichever workers, recoveries and replays, end with the same live rows and derived tables. */
  lemma StandingFixesTables(cfg: Config, acts: seq<Action>, others: seq<Action>)
    requires TransactionsStay(cfg, acts) && NeverReplaces(cfg, acts)
    requires TransactionsStay(cfg, others) && NeverReplaces(cfg, others)
    requires Standing(cfg, acts) == Standing(cfg, others)
    ensures var x, y := Run(START, cfg, acts).db, Run(START, cfg, others).db;
            && LiveRows(x.blocks) == LiveRows(y.blocks)
            && x.evidence == y.evidence && x.payments == y.payments && x.interactions == y.interactions
  {
    hide *;
    RunIndexesStanding(cfg, acts);
    RunIndexesStanding(cfg, others);
    IndexFixes(Run(START, cfg, acts).db, Run(START, cfg, others).db, cfg, Standing(cfg, acts));
  }

  // ------------------------------------------------------- realtime alone

  lemma {:induction false} RealtimeKeepsOne(cfg: Config, acts: seq<Action>)
    requires forall a :: a in acts ==> !a.Replayed?
    ensures OnePerHeight(Standing(cfg, acts))
  {
    hide Step, RowsStand, OneSegment;
    if acts != [] {
      var earlier, a := acts[..|acts| - 1], acts[|acts| - 1];
      assert a in acts;
      RealtimeKeepsOne(cfg, earlier);
      RealtimeRunKeepsOneSegment(cfg, earlier);
      RunRowsStand(cfg, earlier);
      var s := Run(START, cfg, earlier);
      if a.Head? {
        HeadAcceptsAbove(s, cfg, a.number, a.view);
      }
      hide EffectOf;
      match EffectOf(s, cfg, a)
      case Untouched =>
      case Accepted(b, w) => NoBlockAt(s.db.blocks, Standing(cfg, earlier), b.number);
      case Recovered(_, _, _, _) =>
      case Stuck(_) =>
    }
  }

  lemma NoBlockAt(rows: map<nat, BlockRow>, blocks: set<Block>, n: nat)
    requires RowsStand(rows, blocks) && !Live(rows, n)
    ensures forall b :: b in blocks ==> b.number != n
  {
  }

  /** When only the realtime worker writes, through any number of forks, the store is the index of
      the blocks of one linked segment that ends at the cursor. */
  lemma RealtimeIndexesSegment(cfg: Config, acts: seq<Action>)
    requires forall a :: a in acts ==> !a.Replayed?
    requires TransactionsStay(cfg, acts)
    ensures var db := Run(START, cfg, acts).db; OneSegment(db) && IsIndexOf(db, cfg, Standing(cfg, acts))
  {
    hide *;
    RealtimeRunKeepsOneSegment(cfg, acts);
    RealtimeKeepsOne(cfg, acts);
    RunRowsStand(cfg, acts);
    RunMirrorsStanding(cfg, acts);
    StandingIsIndexed(Run(START, cfg, acts).db, cfg, Standing(cfg, acts));
  }
}
