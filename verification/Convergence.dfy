/** After a fork: recovering and replaying the new chain ends where indexing the new chain from
    the same start would have ended. */
module Convergence {
  import opened Types
  import opened Candidates
  import opened Checkpoints
  import opened ReorgDetection
  import opened ReorgRecovery
  import opened Domain
  import opened Orchestrator
  import opened BlockEffects
  import opened Confluence
  import opened BlockTables

  // ------------------------------------------------ what a chain amounts to

  predicate Has(chain: View, lo: nat, hi: nat) {
    forall n :: lo <= n < hi ==> n in chain
  }

  function RowsOf(chain: View, lo: nat, hi: nat): map<nat, BlockRow>
    requires Has(chain, lo, hi)
    decreases hi
  {
    if hi <= lo then map[] else RowsOf(chain, lo, hi - 1)[hi - 1 := HeaderRow(chain[hi - 1])]
  }

  /** One table of a chain: all that its blocks add to it. */
  function OfChain<K, V>(added: Block -> map<K, V>, chain: View, lo: nat, hi: nat): map<K, V>
    requires Has(chain, lo, hi)
    decreases hi
  {
    if hi <= lo then map[] else OfChain(added, chain, lo, hi - 1) + added(chain[hi - 1])
  }

  /** Rows below `lo` whose transactions are not in the chain from `lo` on. */
  ghost predicate Clear<K, V>(base: map<K, V>, chain: View, lo: nat, tx: K -> Hash, height: V -> nat) {
    forall k :: k in base ==>
      && height(base[k]) < lo
      && forall n :: n in chain && lo <= n ==> tx(k) !in BlockTxs(chain[n])
  }

  /** A start from which blocks `lo` and up can be indexed: nothing is stored at or above `lo`,
      the cursor is absent or right below it, and no stored key belongs to the chain above. */
  ghost predicate Start(base: Db, cfg: Config, chain: View, w: Worker, lo: nat) {
    && 0 < lo
    && (forall n: nat :: Live(base.blocks, n) ==> n < lo)
    && Clear(base.evidence, chain, lo, KeyTx, EvidenceHeight)
    && Clear(base.payments, chain, lo, KeyTx, PaymentHeight)
    && Clear(base.interactions, chain, lo, InteractionTx, InteractionHeight)
    && Ready(base, chain, w, lo)
  }

  /** The cursor accepts block `lo` of the chain. */
  ghost predicate Ready(db: Db, chain: View, w: Worker, lo: nat) {
    Last(db.checkpoints, w).Some? ==>
      && Last(db.checkpoints, w).value.block + 1 == lo
      && (lo in chain ==> chain[lo].parent == Last(db.checkpoints, w).value.hash)
  }

  /** The store holds the start plus exactly the blocks from `lo` up to but excluding `hi`. */
  ghost predicate Follows(db: Db, base: Db, cfg: Config, chain: View, w: Worker, lo: nat, hi: nat)
    requires Has(chain, lo, hi)
  {
    && LiveRows(db.blocks) == LiveRows(base.blocks) + RowsOf(chain, lo, hi)
    && db.evidence == base.evidence + OfChain(EvidenceTable(cfg), chain, lo, hi)
    && db.payments == base.payments + OfChain(PaymentTable(cfg), chain, lo, hi)
    && db.interactions == base.interactions + OfChain(InteractionTable(cfg), chain, lo, hi)
    && (hi > lo ==> CursorAt(db, w, hi - 1, chain[hi - 1].hash))
  }

  ghost predicate CursorAt(db: Db, w: Worker, n: nat, hash: Hash) {
    && Last(db.checkpoints, w).Some?
    && Last(db.checkpoints, w).value.block == n && Last(db.checkpoints, w).value.hash == hash
  }

  // -------------------------------------------------- one table of a chain

  /** The block that a row of a chain's table comes from. */
  lemma {:induction false} Home<K(!new), V>(added: Block -> map<K, V>, tx: K -> Hash, height: V -> nat,
                                      chain: View, lo: nat, hi: nat, k: K) returns (n: nat)
    requires Has(chain, lo, hi) && OwnBlock(added, tx, height) && k in OfChain(added, chain, lo, hi)
    ensures lo <= n < hi && tx(k) in BlockTxs(chain[n]) && height(OfChain(added, chain, lo, hi)[k]) == n
    ensures Adds(added, chain[n], k)
    decreases hi
  {
    hide BlockTxs;
    if k in added(chain[hi - 1]) {
      n := hi - 1;
    } else {
      n := Home(added, tx, height, chain, lo, hi - 1, k);
    }
  }

  /** A transaction of the next block names no row so far. */
  lemma KeysAreFresh<K(!new), V>(base: map<K, V>, added: Block -> map<K, V>, tx: K -> Hash, height: V -> nat,
                           chain: View, lo: nat, hi: nat, k: K)
    requires Has(chain, lo, hi) && hi in chain && lo <= hi && Canonical(chain)
    requires OwnBlock(added, tx, height) && Clear(base, chain, lo, tx, height)
    requires tx(k) in BlockTxs(chain[hi])
    ensures k !in base + OfChain(added, chain, lo, hi)
  {
    hide BlockTxs, OwnBlock;
    if k in OfChain(added, chain, lo, hi) {
      var n := Home(added, tx, height, chain, lo, hi, k);
    }
  }

  lemma CutAdded<K, V>(t: map<K, V>, m: map<K, V>, height: V -> nat, a: nat)
    requires t.Keys !! m.Keys && forall k :: k in m ==> height(m[k]) > a
    ensures UpTo(t + m, height, a) == UpTo(t, height, a)
  {
  }

  lemma NothingCut<K(!new), V>(base: map<K, V>, added: Block -> map<K, V>, tx: K -> Hash, height: V -> nat,
                         chain: View, lo: nat, hi: nat)
    requires Has(chain, lo, hi) && lo <= hi && 0 < hi
    requires OwnBlock(added, tx, height) && Clear(base, chain, lo, tx, height)
    ensures var all := base + OfChain(added, chain, lo, hi); UpTo(all, height, hi - 1) == all
  {
    hide OfChain, BlockTxs, OwnBlock;
    var all := base + OfChain(added, chain, lo, hi);
    forall k | k in all ensures height(all[k]) <= hi - 1 {
      if k in OfChain(added, chain, lo, hi) {
        var n := Home(added, tx, height, chain, lo, hi, k);
      }
    }
  }

  /** Undoing back to block `a` leaves the table of the chain up to `a`. */
  lemma {:induction false} Cut<K(!new), V>(base: map<K, V>, added: Block -> map<K, V>, tx: K -> Hash, height: V -> nat,
                                     chain: View, lo: nat, hi: nat, a: nat)
    requires Has(chain, lo, hi) && lo <= a + 1 <= hi && Canonical(chain)
    requires OwnBlock(added, tx, height) && Clear(base, chain, lo, tx, height)
    ensures UpTo(base + OfChain(added, chain, lo, hi), height, a) == base + OfChain(added, chain, lo, a + 1)
    decreases hi
  {
    hide BlockTxs, Canonical, UpTo, OwnBlock, Clear;
    if hi == a + 1 {
      NothingCut(base, added, tx, height, chain, lo, hi);
    } else {
      var last := hi - 1;
      var earlier := base + OfChain(added, chain, lo, last);
      Cut(base, added, tx, height, chain, lo, last, a);
      LastIsFresh(base, added, tx, height, chain, lo, last);
      CutAdded(earlier, added(chain[last]), height, a);
      UnionAssociates(base, OfChain(added, chain, lo, last), added(chain[last]));
    }
  }

  lemma LastIsFresh<K(!new), V>(base: map<K, V>, added: Block -> map<K, V>, tx: K -> Hash, height: V -> nat,
                          chain: View, lo: nat, last: nat)
    requires Has(chain, lo, last) && last in chain && lo <= last && Canonical(chain)
    requires OwnBlock(added, tx, height) && Clear(base, chain, lo, tx, height)
    ensures (base + OfChain(added, chain, lo, last)).Keys !! added(chain[last]).Keys
    ensures forall k :: k in added(chain[last]) ==> height(added(chain[last])[k]) == last
  {
    hide BlockTxs, Canonical, OfChain, Clear;
    forall k | k in added(chain[last])
      ensures k !in base + OfChain(added, chain, lo, last)
      ensures height(added(chain[last])[k]) == last
    {
      assert chain[last].number == last;
      KeysAreFresh(base, added, tx, height, chain, lo, last, k);
    }
  }

  lemma {:induction false} AgreeingTables<K, V>(added: Block -> map<K, V>, a: View, b: View, lo: nat, hi: nat)
    requires Has(a, lo, hi) && Has(b, lo, hi) && forall n: nat :: lo <= n < hi ==> a[n] == b[n]
    ensures OfChain(added, a, lo, hi) == OfChain(added, b, lo, hi)
    decreases hi
  {
    if lo < hi {
      AgreeingTables(added, a, b, lo, hi - 1);
    }
  }

  lemma UnionAssociates<K, V>(a: map<K, V>, b: map<K, V>, c: map<K, V>)
    ensures a + b + c == a + (b + c)
  {
  }

  // ---------------------------------------------------------- one more block

  /** Rows under keys the table does not hold are just added. */
  lemma FreshPayments(p: map<Key, Payment>, added: map<Key, Payment>, prices: map<Bucket, real>)
    requires p.Keys !! added.Keys
    ensures WithPayments(p, added, prices) == p + WithPayments(map[], added, prices)
  {
  }

  lemma NextIsValid(db: Db, cfg: Config, chain: View, w: Worker, backfill: bool, lo: nat, hi: nat)
    requires Has(chain, lo, hi) && hi in chain && 0 < lo <= hi && Canonical(chain)
    requires if hi > lo then CursorAt(db, w, hi - 1, chain[hi - 1].hash) else Ready(db, chain, w, lo)
    ensures Detect(db, cfg.maxReorgDepth, chain, chain[hi], w, backfill) == Valid
    ensures Fetchable(cfg, chain[hi])
  {
    hide Ancestor, BlockTxs;
    AnsweredIsFetchable(cfg, chain[hi]);
    hide Fetchable;
  }

  /** No row of the store names a transaction of the block. */
  ghost predicate AllNew(db: Db, b: Block) {
    && (forall k: Key :: k.tx in BlockTxs(b) ==> k !in db.evidence && k !in db.payments)
    && (forall k: InteractionKey :: k.tx in BlockTxs(b) ==> k !in db.interactions)
  }

  /** Accepting a block whose transactions are all new only adds rows. */
  lemma AcceptAddsFresh(db: Db, cfg: Config, b: Block, w: Worker)
    requires AllNew(db, b)
    ensures var after := Accept(db, cfg, b, w);
            && LiveRows(after.blocks) == LiveRows(db.blocks)[b.number := HeaderRow(b)]
            && after.evidence == db.evidence + DeltaOf(cfg, b).evidence
            && after.payments == db.payments + PaymentsOf(cfg, b)
            && after.interactions == db.interactions + DeltaOf(cfg, b).interactions
            && after.checkpoints == Advance(db.checkpoints, w, b)
  {
    var d := DeltaOf(cfg, b);
    DeltaKeysAreBlockTxs(cfg, b);
    DeltaRow(cfg, b);
    FreshHeights(db, cfg, b);
    AcceptAddsAsIs(db, cfg, b, w);
    AcceptAdvances(db, cfg, b, w);
    hide Accept, WithPayments, Merge, BlockTxs, LiveRows, Advance, DeltaOf, KeepsHeight;
    FreshPayments(db.payments, d.payments, cfg.prices);
    FreshEitherWay(db.interactions, d.interactions);
    AddLive(db.blocks, b);
    assert CoreOf(Accept(db, cfg, b, w)).blocks == StoreBlock(db.blocks, b);
  }

  lemma FreshEitherWay<K, V>(a: map<K, V>, b: map<K, V>)
    requires a.Keys !! b.Keys
    ensures a + b == b + a
  {
  }

  lemma FreshHeights(db: Db, cfg: Config, b: Block)
    requires AllNew(db, b)
    ensures KeepsHeight(db.evidence, cfg, b)
  {
    BlockRowsFit(cfg, b);
    hide BlockEvidence, BlockTxs;
    var es := BlockEvidence(cfg, b);
    forall i | 0 <= i < |es|
      ensures es[i].key !in db.evidence
    {
      assert es[i] in es;
    }
  }

  /** In a store that follows the chain the transactions of the next block are new. */
  lemma NextIsNew(db: Db, base: Db, cfg: Config, chain: View, w: Worker, lo: nat, hi: nat)
    requires Has(chain, lo, hi) && hi in chain && lo <= hi && Canonical(chain) && Start(base, cfg, chain, w, lo)
    requires Follows(db, base, cfg, chain, w, lo, hi)
    ensures AllNew(db, chain[hi])
  {
    hide BlockTxs, Canonical, OfChain, Clear, OwnBlock, LiveRows, RowsOf, CursorAt, Ready;
    TablesOwnBlock(cfg);
    forall k: Key | k.tx in BlockTxs(chain[hi]) ensures k !in db.evidence && k !in db.payments {
      KeysAreFresh(base.evidence, EvidenceTable(cfg), KeyTx, EvidenceHeight, chain, lo, hi, k);
      KeysAreFresh(base.payments, PaymentTable(cfg), KeyTx, PaymentHeight, chain, lo, hi, k);
    }
    forall k: InteractionKey | k.tx in BlockTxs(chain[hi]) ensures k !in db.interactions {
      KeysAreFresh(base.interactions, InteractionTable(cfg), InteractionTx, InteractionHeight, chain, lo, hi, k);
    }
  }

  /** The next block of the chain is accepted and the store follows the chain one block further. */
  lemma FollowNext(db: Db, base: Db, cfg: Config, chain: View, w: Worker, backfill: bool, lo: nat, hi: nat)
    requires Has(chain, lo, hi) && hi in chain && lo <= hi && Canonical(chain) && Start(base, cfg, chain, w, lo)
    requires Follows(db, base, cfg, chain, w, lo, hi)
    requires hi == lo ==> Ready(db, chain, w, lo)
    ensures Detect(db, cfg.maxReorgDepth, chain, chain[hi], w, backfill) == Valid
    ensures Has(chain, lo, hi + 1)
    ensures var r := Process(db, cfg, chain, hi, w, backfill);
            && r == Ok(Accept(db, cfg, chain[hi], w))
            && Follows(r.value, base, cfg, chain, w, lo, hi + 1)
  {
    hide Accept, DeltaOf, PaymentsOf, Canonical, BlockTxs, LiveRows, OfChain, RowsOf, Ancestor, Clear, Fetchable;
    hide AllNew, Recover;
    NextIsValid(db, cfg, chain, w, backfill, lo, hi);
    NextIsNew(db, base, cfg, chain, w, lo, hi);
    AcceptAddsFresh(db, cfg, chain[hi], w);
    hide Detect;
    FollowsGrows(db, Accept(db, cfg, chain[hi], w), base, cfg, chain, w, lo, hi);
  }

  lemma AddRow(base: map<nat, BlockRow>, rows: map<nat, BlockRow>, n: nat, row: BlockRow)
    ensures (base + rows)[n := row] == base + rows[n := row]
  {
  }

  lemma CursorMoves(db: Db, after: Db, chain: View, w: Worker, lo: nat, hi: nat)
    requires hi in chain && 0 < lo <= hi && (hi > lo ==> hi - 1 in chain)
    requires if hi > lo then CursorAt(db, w, hi - 1, chain[hi - 1].hash) else Ready(db, chain, w, lo)
    requires after.checkpoints == Advance(db.checkpoints, w, chain[hi])
    ensures CursorAt(after, w, hi, chain[hi].hash)
  {
  }

  lemma FollowsGrows(db: Db, after: Db, base: Db, cfg: Config, chain: View, w: Worker, lo: nat, hi: nat)
    requires Has(chain, lo, hi) && hi in chain && 0 < lo <= hi
    requires Follows(db, base, cfg, chain, w, lo, hi)
    requires hi == lo ==> Ready(db, chain, w, lo)
    requires LiveRows(after.blocks) == LiveRows(db.blocks)[hi := HeaderRow(chain[hi])]
    requires after.evidence == db.evidence + DeltaOf(cfg, chain[hi]).evidence
    requires after.payments == db.payments + PaymentsOf(cfg, chain[hi])
    requires after.interactions == db.interactions + DeltaOf(cfg, chain[hi]).interactions
    requires after.checkpoints == Advance(db.checkpoints, w, chain[hi])
    ensures Has(chain, lo, hi + 1) && Follows(after, base, cfg, chain, w, lo, hi + 1)
  {
    hide DeltaOf, PaymentsOf, LiveRows, HeaderRow, Ready, CursorAt, Advance, OfChain;
    CursorMoves(db, after, chain, w, lo, hi);
    TableGrows(base.evidence, EvidenceTable(cfg), chain, lo, hi);
    TableGrows(base.payments, PaymentTable(cfg), chain, lo, hi);
    TableGrows(base.interactions, InteractionTable(cfg), chain, lo, hi);
    AddRow(LiveRows(base.blocks), RowsOf(chain, lo, hi), hi, HeaderRow(chain[hi]));
  }

  lemma TableGrows<K, V>(base: map<K, V>, added: Block -> map<K, V>, chain: View, lo: nat, hi: nat)
    requires Has(chain, lo, hi) && hi in chain && lo <= hi
    ensures Has(chain, lo, hi + 1)
    ensures base + OfChain(added, chain, lo, hi + 1) == base + OfChain(added, chain, lo, hi) + added(chain[hi])
  {
    UnionAssociates(base, OfChain(added, chain, lo, hi), added(chain[hi]));
  }

  lemma AddLive(blocks: map<nat, BlockRow>, b: Block)
    ensures LiveRows(StoreBlock(blocks, b)) == LiveRows(blocks)[b.number := HeaderRow(b)]
  {
  }

  // -------------------------------------------------------------- recovery

  lemma {:induction false} RowsOfChain(chain: View, lo: nat, hi: nat)
    requires Has(chain, lo, hi)
    ensures forall n: nat :: n in RowsOf(chain, lo, hi) <==> lo <= n < hi
    ensures forall n: nat :: lo <= n < hi ==> RowsOf(chain, lo, hi)[n] == HeaderRow(chain[n])
    decreases hi
  {
    if lo < hi {
      RowsOfChain(chain, lo, hi - 1);
    }
  }

  lemma CutRows(base: map<nat, BlockRow>, chain: View, lo: nat, hi: nat, a: nat)
    requires Has(chain, lo, hi) && lo <= a + 1 <= hi && forall n :: n in base ==> n < lo
    ensures RowsUpTo(base + RowsOf(chain, lo, hi), a) == base + RowsOf(chain, lo, a + 1)
  {
    RowsOfChain(chain, lo, hi);
    RowsOfChain(chain, lo, a + 1);
    hide RowsOf;
  }

  function RowsUpTo(rows: map<nat, BlockRow>, a: nat): map<nat, BlockRow> {
    map n | n in rows && n <= a :: rows[n]
  }

  lemma OrphanCutsLive(blocks: map<nat, BlockRow>, a: nat)
    ensures LiveRows(Orphan(blocks, a)) == RowsUpTo(LiveRows(blocks), a)
  {
  }

  /** A recovery to `a` takes the store back to where the old chain stood after block `a`. */
  lemma RecoverFollows(db: Db, base: Db, cfg: Config, chain: View, view: View, w: Worker, lo: nat, hi: nat, a: nat)
    requires Has(chain, lo, hi) && lo <= a + 1 <= hi && Canonical(chain) && Start(base, cfg, chain, w, lo)
    requires Follows(db, base, cfg, chain, w, lo, hi)
    requires a in view && (lo <= a ==> view[a].hash == chain[a].hash)
    ensures var after := Recover(db, cfg, view, hi, a, w);
            && Follows(after, base, cfg, chain, w, lo, a + 1)
            && after.checkpoints == Rewind(db.checkpoints, w, a, view[a].hash)
  {
    hide Recover, LiveRows, OfChain, RowsOf, Canonical, EvidenceUpTo, PaymentsUpTo, InteractionsUpTo, Orphan, RowsUpTo;
    hide UpTo, Clear, OwnBlock, BlockTxs, EvidenceTable, PaymentTable, InteractionTable;
    RecoverFrame(db, cfg, view, hi, a, w);
    OrphanCutsLive(db.blocks, a);
    LiveBelow(base, cfg, chain, w, lo);
    CutRows(LiveRows(base.blocks), chain, lo, hi, a);
    TablesCut(db, base, cfg, chain, w, lo, hi, a);
  }

  lemma TablesCut(db: Db, base: Db, cfg: Config, chain: View, w: Worker, lo: nat, hi: nat, a: nat)
    requires Has(chain, lo, hi) && lo <= a + 1 <= hi && Canonical(chain) && Start(base, cfg, chain, w, lo)
    requires Follows(db, base, cfg, chain, w, lo, hi)
    ensures EvidenceUpTo(db.evidence, a) == base.evidence + OfChain(EvidenceTable(cfg), chain, lo, a + 1)
    ensures PaymentsUpTo(db.payments, a) == base.payments + OfChain(PaymentTable(cfg), chain, lo, a + 1)
    ensures InteractionsUpTo(db.interactions, a) == base.interactions + OfChain(InteractionTable(cfg), chain, lo, a + 1)
  {
    hide LiveRows, OfChain, RowsOf, Canonical, EvidenceUpTo, PaymentsUpTo, InteractionsUpTo, CursorAt, Ready;
    hide UpTo, Clear, OwnBlock, BlockTxs, EvidenceTable, PaymentTable, InteractionTable;
    CutTables(db, a);
    TablesOwnBlock(cfg);
    Cut(base.evidence, EvidenceTable(cfg), KeyTx, EvidenceHeight, chain, lo, hi, a);
    Cut(base.payments, PaymentTable(cfg), KeyTx, PaymentHeight, chain, lo, hi, a);
    Cut(base.interactions, InteractionTable(cfg), InteractionTx, InteractionHeight, chain, lo, hi, a);
  }

  /** In a store that follows a chain evidence and payment of a key come from one block, so undoing
      back to the start or further up never meets a foreign key. */
  lemma FollowerNotBlocked(db: Db, base: Db, cfg: Config, chain: View, w: Worker, lo: nat, hi: nat, a: nat)
    requires Has(chain, lo, hi) && lo <= a + 1 && Canonical(chain) && Start(base, cfg, chain, w, lo)
    requires Follows(db, base, cfg, chain, w, lo, hi)
    ensures !Blocked(db, a)
  {
    hide LiveRows, OfChain, RowsOf, Canonical, CursorAt, Ready, OwnBlock, BlockTxs, EvidenceTable, PaymentTable;
    hide InteractionTable;
    TablesOwnBlock(cfg);
    var evidence, payments := OfChain(EvidenceTable(cfg), chain, lo, hi), OfChain(PaymentTable(cfg), chain, lo, hi);
    forall k | k in db.payments && k in db.evidence && db.evidence[k].block > a
      ensures db.payments[k].block > a
    {
      assert k in evidence;
      var n := Home(EvidenceTable(cfg), KeyTx, EvidenceHeight, chain, lo, hi, k);
      if k in payments {
        var m := Home(PaymentTable(cfg), KeyTx, PaymentHeight, chain, lo, hi, k);
        OneHome(chain, m, n, k.tx);
      }
    }
  }

  lemma OneHome(chain: View, m: nat, n: nat, tx: Hash)
    requires Canonical(chain) && m in chain && n in chain && tx in BlockTxs(chain[m]) && tx in BlockTxs(chain[n])
    ensures m == n
  {
    hide BlockTxs;
  }

  lemma LiveBelow(base: Db, cfg: Config, chain: View, w: Worker, lo: nat)
    requires Start(base, cfg, chain, w, lo)
    ensures forall n :: n in LiveRows(base.blocks) ==> n < lo
  {
    hide Ready, BlockTxs;
    forall n | n in LiveRows(base.blocks) ensures n < lo {
      assert Live(base.blocks, n);
    }
  }

  // ----------------------------------------------------------- convergence

  /** Blocks `first` up to but excluding `to`, one after another on one view of the chain. */
  ghost function IndexRun(db: Db, cfg: Config, chain: View, w: Worker, backfill: bool, first: nat,
                          past: nat): Result<Db>
    decreases past
  {
    if past <= first then Ok(db)
    else match IndexRun(db, cfg, chain, w, backfill, first, past - 1)
      case Ok(d) => Process(d, cfg, chain, past - 1, w, backfill)
      case Thrown(e) => Thrown(e)
  }

  /** A run on the chain is accepted block by block and follows the chain. */
  lemma {:induction false} RunFollows(db: Db, base: Db, cfg: Config, chain: View, w: Worker, backfill: bool,
                                      lo: nat, first: nat, past: nat)
    requires Has(chain, lo, past) && lo <= first <= past && Canonical(chain) && Start(base, cfg, chain, w, lo)
    requires Follows(db, base, cfg, chain, w, lo, first)
    requires first == lo ==> Ready(db, chain, w, lo)
    ensures var r := IndexRun(db, cfg, chain, w, backfill, first, past);
            r.Ok? && Follows(r.value, base, cfg, chain, w, lo, past)
    ensures past > first ==>
              var d := IndexRun(db, cfg, chain, w, backfill, first, past - 1);
              d.Ok? && Detect(d.value, cfg.maxReorgDepth, chain, chain[past - 1], w, backfill) == Valid
    decreases past
  {
    hide Process, Accept, Follows, Start, Canonical, Detect, Ready;
    if past > first {
      RunFollows(db, base, cfg, chain, w, backfill, lo, first, past - 1);
      FollowNext(IndexRun(db, cfg, chain, w, backfill, first, past - 1).value, base, cfg, chain, w, backfill, lo,
                 past - 1);
    }
  }

  /** A hash stands for one block. */
  ghost predicate HashFixesBlock(a: View, b: View) {
    forall m, n :: m in a && n in b && a[m].hash == b[n].hash ==> a[m] == b[n]
  }

  /** Two linked chains that agree at one height agree below it. */
  lemma {:induction false} ChainsAgreeBelow(a: View, b: View, lo: nat, top: nat, n: nat)
    requires lo <= n <= top && Has(a, lo, top + 1) && Has(b, lo, top + 1)
    requires Canonical(a) && Canonical(b) && HashFixesBlock(a, b)
    requires a[top].hash == b[top].hash
    ensures a[n] == b[n]
    decreases top - n
  {
    hide BlockTxs;
    if n < top {
      ChainsAgreeBelow(a, b, lo, top, n + 1);
      assert n in a && n + 1 in a && n in b && n + 1 in b;
    }
  }

  lemma {:induction false} AgreeingRows(a: View, b: View, lo: nat, hi: nat)
    requires Has(a, lo, hi) && Has(b, lo, hi) && forall n: nat :: lo <= n < hi ==> a[n] == b[n]
    ensures RowsOf(a, lo, hi) == RowsOf(b, lo, hi)
    decreases hi
  {
    if lo < hi {
      AgreeingRows(a, b, lo, hi - 1);
    }
  }

  /** The canonical rows, the evidence, the payments, the interactions and the cursor agree. */
  ghost predicate SameOutcome(x: Db, y: Db, w: Worker) {
    && LiveRows(x.blocks) == LiveRows(y.blocks)
    && x.evidence == y.evidence
    && x.payments == y.payments
    && x.interactions == y.interactions
    && Last(x.checkpoints, w).Some? && Last(y.checkpoints, w).Some?
    && Last(x.checkpoints, w).value.block == Last(y.checkpoints, w).value.block
    && Last(x.checkpoints, w).value.hash == Last(y.checkpoints, w).value.hash
  }

  lemma StartFollows(base: Db, cfg: Config, chain: View, w: Worker, lo: nat)
    requires Start(base, cfg, chain, w, lo)
    ensures Follows(base, base, cfg, chain, w, lo, lo) && Ready(base, chain, w, lo)
  {
    hide Clear, BlockTxs, LiveRows;
    NothingOfChain(EvidenceTable(cfg), chain, lo);
    NothingOfChain(PaymentTable(cfg), chain, lo);
    NothingOfChain(InteractionTable(cfg), chain, lo);
    hide OfChain;
  }

  lemma NothingOfChain<K, V>(added: Block -> map<K, V>, chain: View, lo: nat)
    ensures OfChain(added, chain, lo, lo) == map[]
  {
  }

  lemma LiveRowOfChain(db: Db, base: Db, cfg: Config, chain: View, w: Worker, lo: nat, hi: nat, n: nat)
    requires Has(chain, lo, hi) && Start(base, cfg, chain, w, lo) && Follows(db, base, cfg, chain, w, lo, hi)
    requires lo <= n < hi
    ensures Live(db.blocks, n) && db.blocks[n].hash == chain[n].hash
  {
    hide Ready, BlockTxs, OfChain, Start, CursorAt, RowsOf;
    RowsOfChain(chain, lo, hi);
    assert n in LiveRows(db.blocks) && LiveRows(db.blocks)[n] == HeaderRow(chain[n]);
  }

  /** On the stretch where two chains agree, following one is following the other. */
  lemma FollowsAlike(db: Db, base: Db, cfg: Config, a: View, b: View, w: Worker, lo: nat, hi: nat)
    requires Has(a, lo, hi) && Has(b, lo, hi) && forall n: nat :: lo <= n < hi ==> a[n] == b[n]
    requires Follows(db, base, cfg, a, w, lo, hi)
    ensures Follows(db, base, cfg, b, w, lo, hi)
  {
    hide OfChain, RowsOf, LiveRows, CursorAt;
    AgreeingRows(a, b, lo, hi);
    AgreeingTables(EvidenceTable(cfg), a, b, lo, hi);
    AgreeingTables(PaymentTable(cfg), a, b, lo, hi);
    AgreeingTables(InteractionTable(cfg), a, b, lo, hi);
  }

  /** A cursor rewound to a block of the chain accepts its successor. */
  lemma RewoundIsReady(db: Db, chain: View, w: Worker, lo: nat, n: nat)
    requires Canonical(chain) && n in chain && n + 1 == lo
    requires Last(db.checkpoints, w).Some? ==>
               Last(db.checkpoints, w).value.block == n && Last(db.checkpoints, w).value.hash == chain[n].hash
    ensures Ready(db, chain, w, lo)
  {
    hide BlockTxs;
  }

  /** Where a recovery on the new chain leaves a store that followed the old one. */
  lemma ForkRecovered(db: Db, base: Db, cfg: Config, oldChain: View, newChain: View, w: Worker, backfill: bool,
                      lo: nat, m: nat, a: nat)
    requires Canonical(oldChain) && Canonical(newChain) && HashFixesBlock(oldChain, newChain)
    requires Start(base, cfg, oldChain, w, lo) && lo < m && Has(oldChain, lo, m) && Has(newChain, lo, m + 1)
    requires Follows(db, base, cfg, oldChain, w, lo, m)
    requires var d := Detect(db, cfg.maxReorgDepth, newChain, newChain[m], w, backfill); d.Reorg? && d.ancestor == a
    requires lo <= a + 1
    ensures a < m && Process(db, cfg, newChain, m, w, backfill).Ok?
    ensures var after := Process(db, cfg, newChain, m, w, backfill).value;
            && Follows(after, base, cfg, newChain, w, lo, a + 1)
            && (a + 1 == lo ==> Ready(after, newChain, w, lo))
  {
    hide Detect, Recover, Canonical, Follows, Start, BlockTxs, HashFixesBlock, Accept, Ready, Fetchable, Blocked;
    AncestorInView(db, cfg.maxReorgDepth, newChain, newChain[m], w, backfill);
    AncestorAgrees(db, base, cfg, oldChain, newChain, w, backfill, lo, m, a);
    FollowerNotBlocked(db, base, cfg, oldChain, w, lo, m, a);
    var after := Recover(db, cfg, newChain, m, a, w);
    assert Process(db, cfg, newChain, m, w, backfill) == Ok(after);
    hide Process, Follows, Start;
    RecoverFollows(db, base, cfg, oldChain, newChain, w, lo, m, a);
    FollowsAlike(after, base, cfg, oldChain, newChain, w, lo, a + 1);
    if a + 1 == lo {
      RewoundIsReady(after, newChain, w, lo, a);
    }
  }

  /** Down to the start, the two chains are the same up to the ancestor that was found. */
  lemma AncestorAgrees(db: Db, base: Db, cfg: Config, oldChain: View, newChain: View, w: Worker, backfill: bool,
                       lo: nat, m: nat, a: nat)
    requires Canonical(oldChain) && Canonical(newChain) && HashFixesBlock(oldChain, newChain)
    requires Start(base, cfg, oldChain, w, lo) && lo <= m && Has(oldChain, lo, m)
    requires Has(newChain, lo, m) && m in newChain
    requires Follows(db, base, cfg, oldChain, w, lo, m)
    requires var d := Detect(db, cfg.maxReorgDepth, newChain, newChain[m], w, backfill); d.Reorg? && d.ancestor == a
    requires lo <= a + 1
    ensures forall n: nat :: lo <= n <= a ==> n in oldChain && n in newChain && oldChain[n] == newChain[n]
  {
    hide Canonical, Follows, Start, BlockTxs;
    assert 0 < lo by { hide *; PositiveStart(base, cfg, oldChain, w, lo); }
    AncestorFound(db.blocks, newChain, m - 1, cfg.maxReorgDepth, a);
    if lo <= a {
      LiveRowOfChain(db, base, cfg, oldChain, w, lo, m, a);
      forall n: nat | lo <= n <= a ensures oldChain[n] == newChain[n] {
        ChainsAgreeBelow(oldChain, newChain, lo, a, n);
      }
    }
  }

  lemma PositiveStart(base: Db, cfg: Config, chain: View, w: Worker, lo: nat)
    requires Start(base, cfg, chain, w, lo)
    ensures 0 < lo
  {
  }

  /** No block from `first` up to but excluding `past` triggers a recovery. */
  ghost predicate NoRecovery(db: Db, cfg: Config, chain: View, w: Worker, backfill: bool, first: nat, past: nat)
    requires Has(chain, first, past)
  {
    forall n: nat :: first <= n < past ==>
      var d := IndexRun(db, cfg, chain, w, backfill, first, n);
      d.Ok? && Detect(d.value, cfg.maxReorgDepth, chain, chain[n], w, backfill) == Valid
  }

  lemma RunIsClean(db: Db, base: Db, cfg: Config, chain: View, w: Worker, backfill: bool, lo: nat, first: nat,
                   past: nat)
    requires Has(chain, lo, past) && lo <= first <= past && Canonical(chain) && Start(base, cfg, chain, w, lo)
    requires Follows(db, base, cfg, chain, w, lo, first)
    requires first == lo ==> Ready(db, chain, w, lo)
    ensures NoRecovery(db, cfg, chain, w, backfill, first, past)
  {
    hide Follows, Canonical, Start, Ready, IndexRun, Detect;
    forall n: nat | first <= n < past
      ensures var d := IndexRun(db, cfg, chain, w, backfill, first, n);
              d.Ok? && Detect(d.value, cfg.maxReorgDepth, chain, chain[n], w, backfill) == Valid
    {
      RunFollows(db, base, cfg, chain, w, backfill, lo, first, n + 1);
    }
  }

  lemma FollowersAgree(x: Db, y: Db, base: Db, cfg: Config, chain: View, w: Worker, lo: nat, hi: nat)
    requires Has(chain, lo, hi) && lo < hi
    requires Follows(x, base, cfg, chain, w, lo, hi) && Follows(y, base, cfg, chain, w, lo, hi)
    ensures SameOutcome(x, y, w)
  {
    hide LiveRows, RowsOf, OfChain;
  }

  /** The cursor of the start stands on the canonical row below `lo`; without a cursor there is
      no canonical row at all. */
  ghost predicate Anchored(base: Db, w: Worker, lo: nat)
    requires 0 < lo
  {
    match Last(base.checkpoints, w)
    case Some(c) => Live(base.blocks, lo - 1) && base.blocks[lo - 1].hash == c.hash
    case None => forall n: nat :: !Live(base.blocks, n)
  }

  /** From an anchored start the ancestor is block 0 or not below the start. */
  lemma AncestorNotBelowStart(base: Db, cfg: Config, oldChain: View, newChain: View, w: Worker, backfill: bool,
                              lo: nat, m: nat, a: nat)
    requires Canonical(oldChain) && Canonical(newChain)
    requires Start(base, cfg, oldChain, w, lo) && Start(base, cfg, newChain, w, lo) && Anchored(base, w, lo)
    requires lo < m && Has(oldChain, lo, m) && Has(newChain, lo, m + 1)
    requires IndexRun(base, cfg, oldChain, w, backfill, lo, m).Ok?
    requires var indexed := IndexRun(base, cfg, oldChain, w, backfill, lo, m).value;
             var d := Detect(indexed, cfg.maxReorgDepth, newChain, newChain[m], w, backfill);
             d.Reorg? && d.ancestor == a
    ensures a == 0 || lo <= a + 1
  {
    hide IndexRun, Follows, Start, Canonical, BlockTxs, Ready, RowsOf;
    StartFollows(base, cfg, oldChain, w, lo);
    RunFollows(base, base, cfg, oldChain, w, backfill, lo, lo, m);
    var indexed := IndexRun(base, cfg, oldChain, w, backfill, lo, m).value;
    AncestorFound(indexed.blocks, newChain, m - 1, cfg.maxReorgDepth, a);
    if 0 < a && a + 1 < lo {
      LiveRowBelow(indexed, base, cfg, oldChain, w, lo, m, a);
      LiveRowBelow(indexed, base, cfg, oldChain, w, lo, m, lo - 1);
      AnchorMatches(base, cfg, newChain, w, lo);
    }
  }

  /** Rows below the start are as they were. */
  lemma LiveRowBelow(db: Db, base: Db, cfg: Config, chain: View, w: Worker, lo: nat, hi: nat, n: nat)
    requires Has(chain, lo, hi) && Follows(db, base, cfg, chain, w, lo, hi) && n < lo
    ensures Live(db.blocks, n) <==> Live(base.blocks, n)
    ensures Live(db.blocks, n) ==> db.blocks[n] == base.blocks[n]
  {
    hide OfChain, CursorAt, RowsOf;
    RowsOfChain(chain, lo, hi);
    assert n !in RowsOf(chain, lo, hi);
    assert n in LiveRows(db.blocks) <==> n in LiveRows(base.blocks);
    assert Live(db.blocks, n) ==> LiveRows(db.blocks)[n] == LiveRows(base.blocks)[n];
  }

  lemma AnchorMatches(base: Db, cfg: Config, chain: View, w: Worker, lo: nat)
    requires Start(base, cfg, chain, w, lo) && Canonical(chain) && lo in chain && lo - 1 in chain
    requires Last(base.checkpoints, w).Some?
    ensures chain[lo - 1].hash == Last(base.checkpoints, w).value.hash
  {
  }

  /** Convergence when the ancestor is known not to lie below the start. Index the old chain from `lo`
      up to `m`, meet the new chain at block `m`, recover, and replay the new chain from the ancestor on:
      the store ends as if the new chain had been indexed from the same start, and no replayed block
      triggers another recovery. */
  lemma ConvergesFrom(base: Db, cfg: Config, oldChain: View, newChain: View, w: Worker, backfill: bool,
                       lo: nat, m: nat, a: nat, end: nat)
    requires Canonical(oldChain) && Canonical(newChain) && HashFixesBlock(oldChain, newChain)
    requires Start(base, cfg, oldChain, w, lo) && Start(base, cfg, newChain, w, lo)
    requires lo < m && Has(oldChain, lo, m) && Has(newChain, lo, m + 1)
    requires lo <= a + 1 <= end && lo < end && Has(newChain, lo, end)
    requires var indexed := IndexRun(base, cfg, oldChain, w, backfill, lo, m);
             indexed.Ok? ==>
               var d := Detect(indexed.value, cfg.maxReorgDepth, newChain, newChain[m], w, backfill);
               d.Reorg? && d.ancestor == a
    ensures var indexed := IndexRun(base, cfg, oldChain, w, backfill, lo, m);
            && indexed.Ok?
            && var recovered := Process(indexed.value, cfg, newChain, m, w, backfill);
            && recovered.Ok?
            && NoRecovery(recovered.value, cfg, newChain, w, backfill, a + 1, end)
            && var replayed := IndexRun(recovered.value, cfg, newChain, w, backfill, a + 1, end);
            && var direct := IndexRun(base, cfg, newChain, w, backfill, lo, end);
            && replayed.Ok? && direct.Ok?
            && SameOutcome(replayed.value, direct.value, w)
  {
    hide *;
    StartFollows(base, cfg, oldChain, w, lo);
    StartFollows(base, cfg, newChain, w, lo);
    RunFollows(base, base, cfg, oldChain, w, backfill, lo, lo, m);
    RunFollows(base, base, cfg, newChain, w, backfill, lo, lo, end);
    var indexed := IndexRun(base, cfg, oldChain, w, backfill, lo, m).value;
    ForkRecovered(indexed, base, cfg, oldChain, newChain, w, backfill, lo, m, a);
    var recovered := Process(indexed, cfg, newChain, m, w, backfill).value;
    RunFollows(recovered, base, cfg, newChain, w, backfill, lo, a + 1, end);
    RunIsClean(recovered, base, cfg, newChain, w, backfill, lo, a + 1, end);
    FollowersAgree(IndexRun(recovered, cfg, newChain, w, backfill, a + 1, end).value,
                   IndexRun(base, cfg, newChain, w, backfill, lo, end).value, base, cfg, newChain, w, lo, end);
  }

  /** Index the old chain from an anchored start, meet the new chain at block `m`, recover to a
      non-zero ancestor and replay the new chain from there: the store ends as if the new chain had
      been indexed from the same start, and no replayed block triggers another recovery. */
  lemma ReorgConverges(base: Db, cfg: Config, oldChain: View, newChain: View, w: Worker, backfill: bool,
                       lo: nat, m: nat, a: nat, end: nat)
    requires Canonical(oldChain) && Canonical(newChain) && HashFixesBlock(oldChain, newChain)
    requires Start(base, cfg, oldChain, w, lo) && Start(base, cfg, newChain, w, lo) && Anchored(base, w, lo)
    requires lo < m && Has(oldChain, lo, m) && Has(newChain, lo, m + 1)
    requires a < end && lo < end && Has(newChain, lo, end)
    requires var indexed := IndexRun(base, cfg, oldChain, w, backfill, lo, m);
             indexed.Ok? ==>
               var d := Detect(indexed.value, cfg.maxReorgDepth, newChain, newChain[m], w, backfill);
               d.Reorg? && d.ancestor == a && (a != 0 || lo == 1)
    ensures var indexed := IndexRun(base, cfg, oldChain, w, backfill, lo, m);
            && indexed.Ok? && lo <= a + 1 <= end
            && var recovered := Process(indexed.value, cfg, newChain, m, w, backfill);
            && recovered.Ok?
            && NoRecovery(recovered.value, cfg, newChain, w, backfill, a + 1, end)
            && var replayed := IndexRun(recovered.value, cfg, newChain, w, backfill, a + 1, end);
            && var direct := IndexRun(base, cfg, newChain, w, backfill, lo, end);
            && replayed.Ok? && direct.Ok?
            && SameOutcome(replayed.value, direct.value, w)
  {
    hide *;
    StartFollows(base, cfg, oldChain, w, lo);
    RunFollows(base, base, cfg, oldChain, w, backfill, lo, lo, m);
    AncestorNotBelowStart(base, cfg, oldChain, newChain, w, backfill, lo, m, a);
    ConvergesFrom(base, cfg, oldChain, newChain, w, backfill, lo, m, a, end);
  }
}
