/** What one block puts into each derived table, and cutting a table at a height. */
module BlockTables {
  import opened Types
  import opened ReorgRecovery
  import opened BlockEffects
  import opened Confluence

  /** The payments a block has in a store that held none of them. */
  function PaymentsOf(cfg: Config, b: Block): map<Key, Payment> {
    WithPayments(map[], DeltaOf(cfg, b).payments, cfg.prices)
  }

  lemma PaymentsOfBlock(cfg: Config, b: Block)
    ensures PaymentsOf(cfg, b).Keys == DeltaOf(cfg, b).payments.Keys
    ensures forall k :: k in PaymentsOf(cfg, b) ==> PaymentsOf(cfg, b)[k].block == b.number
  {
    BlockRowsFit(cfg, b);
    AddedPaymentRows(PromotedOf(cfg, b), b.time, b.number);
    hide PaymentsAdded;
    forall k
      ensures k in PaymentsOf(cfg, b) <==> k in DeltaOf(cfg, b).payments
      ensures k in PaymentsOf(cfg, b) ==> PaymentsOf(cfg, b)[k].block == b.number
    {
      WithPaymentsAt(map[], DeltaOf(cfg, b).payments, cfg.prices, k);
    }
  }

  function EvidenceTable(cfg: Config): Block -> map<Key, Evidence> { b => DeltaOf(cfg, b).evidence }
  function PaymentTable(cfg: Config): Block -> map<Key, Payment> { b => PaymentsOf(cfg, b) }
  function InteractionTable(cfg: Config): Block -> map<InteractionKey, Moment> { b => DeltaOf(cfg, b).interactions }

  function KeyTx(k: Key): Hash { k.tx }
  function InteractionTx(k: InteractionKey): Hash { k.tx }
  function EvidenceHeight(e: Evidence): nat { e.block }
  function PaymentHeight(p: Payment): nat { p.block }
  function InteractionHeight(m: Moment): nat { m.block }

  predicate Adds<K, V>(added: Block -> map<K, V>, b: Block, k: K) { k in added(b) }

  /** What a block adds names its transactions and sits at its height. */
  ghost predicate OwnBlock<K(!new), V>(added: Block -> map<K, V>, tx: K -> Hash, height: V -> nat) {
    forall b, k :: Adds(added, b, k) ==> tx(k) in BlockTxs(b) && height(added(b)[k]) == b.number
  }

  lemma TablesOwnBlock(cfg: Config)
    ensures OwnBlock(EvidenceTable(cfg), KeyTx, EvidenceHeight)
    ensures OwnBlock(PaymentTable(cfg), KeyTx, PaymentHeight)
    ensures OwnBlock(InteractionTable(cfg), InteractionTx, InteractionHeight)
  {
    hide DeltaOf, PaymentsOf, BlockTxs;
    forall b: Block
      ensures forall k :: k in DeltaOf(cfg, b).evidence ==>
                k.tx in BlockTxs(b) && DeltaOf(cfg, b).evidence[k].block == b.number
      ensures forall k :: k in PaymentsOf(cfg, b) ==> k.tx in BlockTxs(b) && PaymentsOf(cfg, b)[k].block == b.number
      ensures forall k :: k in DeltaOf(cfg, b).interactions ==>
                k.tx in BlockTxs(b) && DeltaOf(cfg, b).interactions[k].block == b.number
    {
      DeltaKeysAreBlockTxs(cfg, b);
      PaymentsOfBlock(cfg, b);
    }
  }

  // ---------------------------------------------------------------- cutting

  function UpTo<K, V>(table: map<K, V>, height: V -> nat, a: nat): map<K, V> {
    map k | k in table && height(table[k]) <= a :: table[k]
  }

  lemma CutTables(db: Db, a: nat)
    ensures EvidenceUpTo(db.evidence, a) == UpTo(db.evidence, EvidenceHeight, a)
    ensures PaymentsUpTo(db.payments, a) == UpTo(db.payments, PaymentHeight, a)
    ensures InteractionsUpTo(db.interactions, a) == UpTo(db.interactions, InteractionHeight, a)
  {
  }
}
