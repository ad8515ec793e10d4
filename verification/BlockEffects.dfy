/** What indexing one block adds to each table, as a closed form of the block alone. */
module BlockEffects {
  import opened Types
  import opened Candidates
  import opened Domain
  import opened Aggregates
  import opened Orchestrator

  /** Evidence of one block, in any order of its logs, all at the same height. */
  ghost predicate AtBlock(es: seq<Evidence>, n: nat) {
    forall i :: 0 <= i < |es| ==> es[i].block == n
  }

  ghost predicate KeysAtBlock(table: map<Key, Evidence>, es: seq<Evidence>, n: nat) {
    forall i :: 0 <= i < |es| ==> es[i].key in table ==> table[es[i].key].block == n
  }

  function EvidenceAdded(es: seq<Evidence>): map<Key, Evidence> { Persist(map[], es) }

  lemma {:induction false} PersistedKeys(table: map<Key, Evidence>, es: seq<Evidence>)
    ensures Persist(table, es).Keys == table.Keys + Keys(es)
    ensures forall k :: k in table ==> Persist(table, es)[k].block == table[k].block
    ensures forall k :: k in table && k !in Keys(es) ==> Persist(table, es)[k] == table[k]
  {
    if es != [] {
      PersistedKeys(table, es[..|es| - 1]);
      KeysLast(es);
    }
  }

  lemma KeysLast(es: seq<Evidence>)
    requires es != []
    ensures Keys(es) == Keys(es[..|es| - 1]) + {es[|es| - 1].key}
  {
    assert es == es[..|es| - 1] + [es[|es| - 1]];
  }

  lemma {:induction false} EvidenceAddedRows(es: seq<Evidence>, n: nat)
    requires AtBlock(es, n)
    ensures EvidenceAdded(es).Keys == Keys(es)
    ensures forall k :: k in EvidenceAdded(es) ==>
              var e := EvidenceAdded(es)[k]; e.block == n && e in es && e.key == k
  {
    PersistedKeys(map[], es);
    if es != [] {
      EvidenceAddedRows(es[..|es| - 1], n);
      assert es == es[..|es| - 1] + [es[|es| - 1]];
    }
  }

  /** The block number a row for `k` has after an upsert at height `n`. */
  function HeightAt(table: map<Key, Evidence>, k: Key, n: nat): nat {
    if k in table then table[k].block else n
  }

  function PlacedEvidence(table: map<Key, Evidence>, added: map<Key, Evidence>, n: nat): map<Key, Evidence> {
    map k | k in added :: added[k].(block := HeightAt(table, k, n))
  }

  lemma PlacedGrows(table: map<Key, Evidence>, added: map<Key, Evidence>, e: Evidence, n: nat)
    requires e.block == n
    ensures var t := table + PlacedEvidence(table, added, n);
            PersistOne(t, e) == table + PlacedEvidence(table, added[e.key := e], n)
  {
  }

  lemma NothingPlaced(table: map<Key, Evidence>, n: nat)
    ensures PlacedEvidence(table, map[], n) == map[]
  {
  }

  /** Persisting overwrites everything but the block numbers of rows already stored. */
  lemma {:induction false} PersistPlaces(table: map<Key, Evidence>, es: seq<Evidence>, n: nat)
    requires AtBlock(es, n)
    ensures Persist(table, es) == table + PlacedEvidence(table, EvidenceAdded(es), n)
  {
    hide PlacedEvidence;
    if es == [] {
      NothingPlaced(table, n);
    } else {
      var shorter, e := es[..|es| - 1], es[|es| - 1];
      PersistPlaces(table, shorter, n);
      EvidenceAddedRows(shorter, n);
      PlacedGrows(table, EvidenceAdded(shorter), e, n);
    }
  }

  // ------------------------------------------------------------- payments

  function PaymentOf(e: Evidence, time: nat): Payment {
    Payment(e.block, time, e.payer, e.payTo, e.asset, e.amount, None)
  }

  /** The payments of a block before any USD value is known. */
  function PaymentsAdded(es: seq<Evidence>, time: nat): map<Key, Payment> {
    if es == [] then map[] else PaymentsAdded(es[..|es| - 1], time)[es[|es| - 1].key := PaymentOf(es[|es| - 1], time)]
  }

  function OldUsd(payments: map<Key, Payment>, k: Key): Option<real> {
    if k in payments then payments[k].usd else None
  }

  /** New payment rows keep the USD value of the rows they replace. */
  function MergePayments(payments: map<Key, Payment>, added: map<Key, Payment>): map<Key, Payment> {
    map k | k in payments.Keys + added.Keys :: if k in added then added[k].(usd := OldUsd(payments, k)) else payments[k]
  }

  /** The payments after a block: merged, then the block's own rows valued where a price is known. */
  function WithPayments(payments: map<Key, Payment>, added: map<Key, Payment>,
                        prices: map<Bucket, real>): map<Key, Payment>
  {
    Convert(MergePayments(payments, added), prices, added.Keys)
  }

  ghost predicate Joined(es: seq<Evidence>, evidence: map<Key, Evidence>, blocks: map<nat, BlockRow>) {
    forall i :: 0 <= i < |es| ==> es[i].key in evidence && evidence[es[i].key].block in blocks
  }

  /** The timestamp the join of evidence and blocks gives for a key. */
  function JoinTime(evidence: map<Key, Evidence>, blocks: map<nat, BlockRow>, k: Key, otherwise: nat): nat {
    if k in evidence && evidence[k].block in blocks then blocks[evidence[k].block].time else otherwise
  }

  function PlacedPayments(added: map<Key, Payment>, evidence: map<Key, Evidence>, blocks: map<nat, BlockRow>,
                          otherwise: nat)
    : map<Key, Payment>
  {
    map k | k in added :: added[k].(time := JoinTime(evidence, blocks, k, otherwise))
  }

  lemma {:induction false} AddedPaymentRows(es: seq<Evidence>, time: nat, n: nat)
    requires AtBlock(es, n)
    ensures PaymentsAdded(es, time).Keys == Keys(es)
    ensures forall k :: k in PaymentsAdded(es, time) ==> PaymentsAdded(es, time)[k].block == n
  {
    if es != [] {
      AddedPaymentRows(es[..|es| - 1], time, n);
      KeysLast(es);
    }
  }

  /** Inserted payments take the joined timestamp and keep the USD value of the rows they replace. */
  lemma {:induction false} PayMerges(payments: map<Key, Payment>, evidence: map<Key, Evidence>,
                                     blocks: map<nat, BlockRow>, es: seq<Evidence>, time: nat)
    requires Joined(es, evidence, blocks)
    ensures Pay(payments, evidence, blocks, es)
         == MergePayments(payments, PlacedPayments(PaymentsAdded(es, time), evidence, blocks, time))
  {
    if es != [] {
      PayMerges(payments, evidence, blocks, es[..|es| - 1], time);
      assert es[|es| - 1].key in evidence;
    }
  }

  // --------------------------------------------------------- interactions

  function InteractionKeyOf(e: Evidence, rows: map<Hash, TxRow>): InteractionKey
    requires e.key.tx in rows
  {
    InteractionKey(e.key.tx, e.payer, rows[e.key.tx].detail.to, Selector(rows[e.key.tx].detail.input))
  }

  ghost predicate TxsPresent(es: seq<Evidence>, rows: map<Hash, TxRow>) {
    forall i :: 0 <= i < |es| ==> es[i].key.tx in rows
  }

  function InteractionsAdded(es: seq<Evidence>, rows: map<Hash, TxRow>, time: nat): map<InteractionKey, Moment> {
    if es == [] then map[] else
      var e := es[|es| - 1];
      var before := InteractionsAdded(es[..|es| - 1], rows, time);
      if e.key.tx in rows then map[InteractionKeyOf(e, rows) := Moment(e.block, time)] + before else before
  }

  /** A conflicting interaction keeps the row it has. */
  lemma {:induction false} InteractAdds(
    table: map<InteractionKey, Moment>, txs: map<Hash, TxRow>, rows: map<Hash, TxRow>, blocks: map<nat, BlockRow>,
    es: seq<Evidence>, n: nat, time: nat)
    requires TxsPresent(es, rows) && AtBlock(es, n)
    requires forall h :: h in rows ==> h in txs && txs[h] == rows[h] && rows[h].block == n
    requires n in blocks && blocks[n].time == time
    ensures Interact(table, txs, blocks, es) == InteractionsAdded(es, rows, time) + table
  {
    if es != [] {
      var shorter := es[..|es| - 1];
      InteractAdds(table, txs, rows, blocks, shorter, n, time);
      InteractionRows(shorter, rows, n, time);
      assert es[|es| - 1].block == n && es[|es| - 1].key.tx in rows;
    }
  }

  lemma {:induction false} InteractionRows(es: seq<Evidence>, rows: map<Hash, TxRow>, n: nat, time: nat)
    requires AtBlock(es, n)
    ensures forall k :: k in InteractionsAdded(es, rows, time) ==>
              k.tx in rows && InteractionsAdded(es, rows, time)[k] == Moment(n, time)
  {
    if es != [] {
      InteractionRows(es[..|es| - 1], rows, n, time);
    }
  }

  // ---------------------------------------------------------- whole block

  /** All tables but the cursors, the recorded ranges and the daily statistics. */
  datatype Core = Core(
    blocks: map<nat, BlockRow>, txs: map<Hash, TxRow>, evidence: map<Key, Evidence>, payments: map<Key, Payment>,
    agents: map<Address, Agent>, services: set<Address>, interactions: map<InteractionKey, Moment>)

  function CoreOf(db: Db): Core {
    Core(db.blocks, db.txs, db.evidence, db.payments, db.agents, db.services, db.interactions)
  }

  /** What a block contributes, whatever the store holds. */
  datatype Delta = Delta(
    number: nat, row: BlockRow, txs: map<Hash, TxRow>, evidence: map<Key, Evidence>, payments: map<Key, Payment>,
    agents: map<Address, Agent>, services: set<Address>, interactions: map<InteractionKey, Moment>)

  function PromotedOf(cfg: Config, b: Block): seq<Evidence> { Promoted(BlockEvidence(cfg, b), cfg.threshold) }

  function DeltaOf(cfg: Config, b: Block): Delta {
    var rows := TxRows(BlockCandidates(cfg, b));
    Delta(b.number, HeaderRow(b), rows,
          EvidenceAdded(BlockEvidence(cfg, b)),
          PaymentsAdded(PromotedOf(cfg, b), b.time),
          See(map[], cfg.contracts, PromotedOf(cfg, b)),
          Payees(PromotedOf(cfg, b)),
          InteractionsAdded(PromotedOf(cfg, b), rows, b.time))
  }

  function Apply(c: Core, d: Delta, prices: map<Bucket, real>): Core {
    Core(c.blocks[d.number := d.row],
         c.txs + d.txs,
         c.evidence + d.evidence,
         WithPayments(c.payments, d.payments, prices),
         Merge(c.agents, d.agents),
         c.services + d.services,
         d.interactions + c.interactions)
  }

  lemma {:induction false} PromotedAreEvidence(es: seq<Evidence>, threshold: nat)
    ensures forall e :: e in Promoted(es, threshold) <==> e in es && e.confidence >= threshold
  {
    if es != [] {
      PromotedAreEvidence(es[..|es| - 1], threshold);
      assert es == es[..|es| - 1] + [es[|es| - 1]];
    }
  }

  lemma {:induction false} ByTxRows(cs: seq<Candidate>)
    ensures forall h :: h in ByTx(cs) ==> ByTx(cs)[h] in cs && ByTx(cs)[h].transfer.tx == h
    ensures forall c :: c in cs ==> c.transfer.tx in ByTx(cs)
  {
    if cs != [] {
      ByTxRows(cs[..|cs| - 1]);
      assert cs == cs[..|cs| - 1] + [cs[|cs| - 1]];
    }
  }

  function BlockTxs(b: Block): set<Hash> { set t | t in b.transfers :: t.tx }

  lemma CandidatesAreLogs(cfg: Config, b: Block)
    ensures forall c :: c in BlockCandidates(cfg, b) ==> c.transfer in b.transfers && c.block == b.number
  {
    var known := KnownAt(cfg.registry, b.number);
    forall c | c in BlockCandidates(cfg, b)
      ensures c.transfer in b.transfers && c.block == b.number
    {
      CandidateIff(TransfersOf(b.transfers, known.assets), b, known, cfg.hardFilter, c);
      TransfersOfAreLogs(b.transfers, known.assets);
    }
  }

  /** The evidence of a block sits at its height, on transactions it stores. */
  lemma BlockRowsFit(cfg: Config, b: Block)
    ensures AtBlock(BlockEvidence(cfg, b), b.number) && AtBlock(PromotedOf(cfg, b), b.number)
    ensures forall e :: e in BlockEvidence(cfg, b) ==> e.key.tx in TxRows(BlockCandidates(cfg, b))
    ensures forall e :: e in PromotedOf(cfg, b) ==> e in BlockEvidence(cfg, b)
    ensures forall h :: h in TxRows(BlockCandidates(cfg, b)) ==>
              TxRows(BlockCandidates(cfg, b))[h].block == b.number && h in BlockTxs(b)
    ensures forall e :: e in BlockEvidence(cfg, b) ==> e.key.tx in BlockTxs(b)
  {
    var cs, es, ps := BlockCandidates(cfg, b), BlockEvidence(cfg, b), PromotedOf(cfg, b);
    CandidatesAreLogs(cfg, b);
    ByTxRows(cs);
    PromotedAreEvidence(es, cfg.threshold);
    hide BlockCandidates, Promoted, ByTx, BlockTxs;
    EvidenceRowsFit(cfg, b);
    assert forall i :: 0 <= i < |ps| ==> ps[i] in ps;
  }

  lemma EvidenceRowsFit(cfg: Config, b: Block)
    ensures forall e :: e in BlockEvidence(cfg, b) ==>
              e.block == b.number && e.key.tx in TxRows(BlockCandidates(cfg, b)) && e.key.tx in BlockTxs(b)
  {
    var cs, es := BlockCandidates(cfg, b), BlockEvidence(cfg, b);
    CandidatesAreLogs(cfg, b);
    ByTxRows(cs);
    hide BlockCandidates, ByTx;
    forall i | 0 <= i < |es|
      ensures es[i].block == b.number && es[i].key.tx in TxRows(cs) && es[i].key.tx in BlockTxs(b)
    {
      assert cs[i] in cs && es[i] == EvidenceOf(cs[i], KnownAt(cfg.registry, b.number));
    }
  }

  /** Stored evidence for one of the block's keys sits on a stored block row or at the block's height. */
  ghost predicate Joinable(c: Core, cfg: Config, b: Block) {
    forall e :: e in BlockEvidence(cfg, b) && e.key in c.evidence ==>
      c.evidence[e.key].block == b.number || c.evidence[e.key].block in c.blocks
  }

  /** The contribution of a block as it lands in a store: rows of evidence keep the block number
      they have, and payments take the timestamp of that block. */
  function Placed(c: Core, d: Delta): Delta {
    var evidence := PlacedEvidence(c.evidence, d.evidence, d.number);
    d.(evidence := evidence,
       payments := PlacedPayments(d.payments, c.evidence + evidence, c.blocks[d.number := d.row], d.row.time))
  }

  /** The evidence behind a block's payments is part of the block's evidence. */
  lemma PromotedKeys(cfg: Config, b: Block)
    ensures EvidenceAdded(BlockEvidence(cfg, b)).Keys == Keys(BlockEvidence(cfg, b))
    ensures PaymentsAdded(PromotedOf(cfg, b), b.time).Keys == Keys(PromotedOf(cfg, b)) <= Keys(BlockEvidence(cfg, b))
    ensures forall k :: k in PaymentsAdded(PromotedOf(cfg, b), b.time) ==>
              PaymentsAdded(PromotedOf(cfg, b), b.time)[k].time == b.time
  {
    var es, ps := BlockEvidence(cfg, b), PromotedOf(cfg, b);
    BlockRowsFit(cfg, b);
    EvidenceAddedRows(es, b.number);
    AddedPaymentRows(ps, b.time, b.number);
    PaymentTimes(ps, b.time);
  }

  lemma {:induction false} PaymentTimes(es: seq<Evidence>, time: nat)
    ensures forall k :: k in PaymentsAdded(es, time) ==> PaymentsAdded(es, time)[k].time == time
  {
    if es != [] {
      PaymentTimes(es[..|es| - 1], time);
    }
  }

  lemma PlacedRow(table: map<Key, Evidence>, added: map<Key, Evidence>, n: nat, k: Key)
    requires k in added
    ensures var t := table + PlacedEvidence(table, added, n);
            k in t && t[k] == added[k].(block := HeightAt(table, k, n))
  {
  }

  /** The timestamp joined for a key after an upsert at height `n`. */
  lemma JoinTimeAt(table: map<Key, Evidence>, added: map<Key, Evidence>, blocks: map<nat, BlockRow>, n: nat,
                   row: BlockRow, k: Key, otherwise: nat)
    requires k in added && (HeightAt(table, k, n) == n || HeightAt(table, k, n) in blocks)
    ensures var h := HeightAt(table, k, n);
            JoinTime(table + PlacedEvidence(table, added, n), blocks[n := row], k, otherwise)
            == if h == n then row.time else blocks[h].time
  {
    PlacedRow(table, added, n, k);
  }

  lemma BlockNumberKept(table: map<Key, Evidence>, added: map<Key, Evidence>, n: nat, k: Key)
    requires k in table
    ensures var t := table + PlacedEvidence(table, added, n); k in t && t[k].block == table[k].block
  {
  }

  lemma PersistedJoin(c: Core, cfg: Config, b: Block)
    requires Joinable(c, cfg, b)
    ensures var evidence := Persist(c.evidence, BlockEvidence(cfg, b));
            && evidence == c.evidence + PlacedEvidence(c.evidence, EvidenceAdded(BlockEvidence(cfg, b)), b.number)
            && Joined(PromotedOf(cfg, b), evidence, StoreBlock(c.blocks, b))
  {
    hide Persist, EvidenceAdded, BlockEvidence, PromotedOf, PlacedEvidence;
    var es, ps := BlockEvidence(cfg, b), PromotedOf(cfg, b);
    BlockRowsFit(cfg, b);
    PersistPlaces(c.evidence, es, b.number);
    PromotedKeys(cfg, b);
    forall i | 0 <= i < |ps|
      ensures ps[i].key in Persist(c.evidence, es)
      ensures Persist(c.evidence, es)[ps[i].key].block in StoreBlock(c.blocks, b)
    {
      assert ps[i] in ps && ps[i] in es;
      PlacedRow(c.evidence, EvidenceAdded(es), b.number, ps[i].key);
    }
  }

  /** Where a contribution lands depends on the heights and the joined timestamps of its keys only. */
  lemma PlacedAlike(c: Core, other: Core, d: Delta)
    requires forall k :: k in d.evidence ==> HeightAt(c.evidence, k, d.number) == HeightAt(other.evidence, k, d.number)
    requires forall k :: k in d.payments ==> PaidAt(c, d, k) == PaidAt(other, d, k)
    ensures Placed(c, d) == Placed(other, d)
  {
    hide JoinTime;
    assert PlacedEvidence(c.evidence, d.evidence, d.number) == PlacedEvidence(other.evidence, d.evidence, d.number);
    forall k | k in d.payments
      ensures Placed(c, d).payments[k] == Placed(other, d).payments[k]
    {
      assert PaidAt(c, d, k) == PaidAt(other, d, k);
    }
  }

  /** The timestamp a contribution's payment takes in a store. */
  function PaidAt(c: Core, d: Delta, k: Key): nat {
    JoinTime(c.evidence + PlacedEvidence(c.evidence, d.evidence, d.number), c.blocks[d.number := d.row], k, d.row.time)
  }

  lemma StoredRows(db: Db, cfg: Config, b: Block)
    requires Joinable(CoreOf(db), cfg, b)
    ensures var s, placed := Stored(db, cfg, b), Placed(CoreOf(db), DeltaOf(cfg, b));
            && s.evidence == db.evidence + placed.evidence
            && Joined(PromotedOf(cfg, b), s.evidence, s.blocks)
            && placed.payments
               == PlacedPayments(PaymentsAdded(PromotedOf(cfg, b), b.time), s.evidence, s.blocks, b.time)
            && placed.payments.Keys == Keys(PromotedOf(cfg, b))
  {
    hide BlockEvidence, PromotedOf, Persist, EvidenceAdded, TxRows, See, InteractionsAdded, PaymentsAdded, Joined;
    hide Joinable;
    PersistedJoin(CoreOf(db), cfg, b);
    PromotedKeys(cfg, b);
    hide PlacedEvidence;
  }

  lemma PromoteCore(db: Db, cfg: Config, ps: seq<Evidence>)
    ensures var after := Promote(db, cfg, ps);
            CoreOf(after) == CoreOf(db).(
              agents := See(db.agents, cfg.contracts, ps),
              services := db.services + Payees(ps),
              payments := Convert(Pay(db.payments, db.evidence, db.blocks, ps), cfg.prices, Keys(ps)),
              interactions := Interact(db.interactions, db.txs, db.blocks, ps))
  {
  }

  /** Accepting a block is applying its contribution as it lands. */
  lemma AcceptApplies(db: Db, cfg: Config, b: Block, w: Worker)
    requires Joinable(CoreOf(db), cfg, b)
    ensures CoreOf(Accept(db, cfg, b, w)) == Apply(CoreOf(db), Placed(CoreOf(db), DeltaOf(cfg, b)), cfg.prices)
  {
    hide Promote, Pay, See, Interact, Convert, MergePayments, Merge, InteractionsAdded, TxRows, Persist, EvidenceAdded;
    hide BlockCandidates, BlockEvidence, Joined, Joinable, PaymentsAdded, PlacedPayments, PlacedEvidence;
    var ps, s := PromotedOf(cfg, b), Stored(db, cfg, b);
    StoredRows(db, cfg, b);
    BlockRowsFit(cfg, b);
    PromoteCore(s, cfg, ps);
    SeeIsMerge(db.agents, cfg.contracts, ps);
    PayMerges(db.payments, s.evidence, s.blocks, ps, b.time);
    var rows := TxRows(BlockCandidates(cfg, b));
    assert TxsPresent(ps, rows) by {
      assert forall i :: 0 <= i < |ps| ==> ps[i] in ps;
    }
    InteractAdds(db.interactions, s.txs, rows, s.blocks, ps, b.number, b.time);
  }

  /** Evidence already stored under one of the block's keys is at the block's height. */
  ghost predicate KeepsHeight(evidence: map<Key, Evidence>, cfg: Config, b: Block) {
    KeysAtBlock(evidence, BlockEvidence(cfg, b), b.number)
  }

  lemma PlacedAtHeight(c: Core, cfg: Config, b: Block)
    requires KeepsHeight(c.evidence, cfg, b)
    ensures Joinable(c, cfg, b) && Placed(c, DeltaOf(cfg, b)) == DeltaOf(cfg, b)
  {
    hide BlockEvidence, PromotedOf, Persist, EvidenceAdded, TxRows, See, InteractionsAdded, PaymentsAdded;
    var es, d := BlockEvidence(cfg, b), DeltaOf(cfg, b);
    PromotedKeys(cfg, b);
    assert Joinable(c, cfg, b);
    forall k | k in d.evidence ensures HeightAt(c.evidence, k, b.number) == b.number {
      var e :| e in es && e.key == k;
    }
    BlockRowsFit(cfg, b);
    EvidenceAddedRows(es, b.number);
    assert PlacedEvidence(c.evidence, d.evidence, b.number) == d.evidence;
    assert PlacedPayments(d.payments, c.evidence + d.evidence, c.blocks[d.number := d.row], b.time) == d.payments;
  }

  /** When what is stored is at the block's height, the contribution lands as it is. */
  lemma AcceptAddsAsIs(db: Db, cfg: Config, b: Block, w: Worker)
    requires KeepsHeight(db.evidence, cfg, b)
    ensures CoreOf(Accept(db, cfg, b, w)) == Apply(CoreOf(db), DeltaOf(cfg, b), cfg.prices)
  {
    PlacedAtHeight(CoreOf(db), cfg, b);
    AcceptApplies(db, cfg, b, w);
  }
}
