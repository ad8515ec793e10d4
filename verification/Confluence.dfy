/** Backfilling a set of blocks of one canonical chain: the order and the repeats do not matter. */
module Confluence {
  import opened Types
  import opened Candidates
  import opened Checkpoints
  import opened ReorgDetection
  import opened Domain
  import opened Aggregates
  import opened Orchestrator
  import opened BlockEffects

  // ------------------------------------------------- contributions commute

  /** Contributions of two blocks that share no transaction. */
  ghost predicate Independent(d: Delta, e: Delta) {
    && d.number != e.number
    && d.txs.Keys !! e.txs.Keys
    && d.evidence.Keys !! e.evidence.Keys
    && d.payments.Keys !! e.payments.Keys
    && d.interactions.Keys !! e.interactions.Keys
  }

  lemma WithPaymentsAt(p: map<Key, Payment>, a: map<Key, Payment>, prices: map<Bucket, real>, k: Key)
    ensures k in WithPayments(p, a, prices) <==> k in p || k in a
    ensures k in a ==> WithPayments(p, a, prices)[k] == ConvertOne(a[k].(usd := OldUsd(p, k)), prices)
    ensures k in p && k !in a ==> WithPayments(p, a, prices)[k] == p[k]
  {
  }

  lemma PaymentsCommute(p: map<Key, Payment>, a: map<Key, Payment>, b: map<Key, Payment>, prices: map<Bucket, real>)
    requires a.Keys !! b.Keys
    ensures WithPayments(WithPayments(p, a, prices), b, prices) == WithPayments(WithPayments(p, b, prices), a, prices)
  {
    hide WithPayments;
    var pa, pb := WithPayments(p, a, prices), WithPayments(p, b, prices);
    var x, y := WithPayments(pa, b, prices), WithPayments(pb, a, prices);
    forall k
      ensures k in x <==> k in y
      ensures k in x ==> x[k] == y[k]
    {
      WithPaymentsAt(p, a, prices, k);
      WithPaymentsAt(p, b, prices, k);
      WithPaymentsAt(pa, b, prices, k);
      WithPaymentsAt(pb, a, prices, k);
    }
  }

  lemma PaymentsIdempotent(p: map<Key, Payment>, a: map<Key, Payment>, prices: map<Bucket, real>)
    ensures WithPayments(WithPayments(p, a, prices), a, prices) == WithPayments(p, a, prices)
  {
  }

  lemma UnionCommutes<K, V>(t: map<K, V>, a: map<K, V>, b: map<K, V>)
    requires a.Keys !! b.Keys
    ensures t + a + b == t + b + a
    ensures a + (b + t) == b + (a + t)
  {
  }

  lemma UnionIdempotent<K, V>(t: map<K, V>, a: map<K, V>)
    ensures t + a + a == t + a
    ensures a + (a + t) == a + t
  {
  }

  /** First and last sighting are a minimum and a maximum, whatever comes first. */
  lemma AgentsCommute(agents: map<Address, Agent>, a: map<Address, Agent>, b: map<Address, Agent>)
    requires forall x :: x in a && x in b ==> a[x].isContract == b[x].isContract
    ensures Merge(Merge(agents, a), b) == Merge(Merge(agents, b), a)
    ensures Merge(Merge(agents, a), a) == Merge(agents, a)
  {
  }

  lemma ApplyCommutes(c: Core, d: Delta, e: Delta, prices: map<Bucket, real>)
    requires Independent(d, e)
    requires forall x :: x in d.agents && x in e.agents ==> d.agents[x].isContract == e.agents[x].isContract
    ensures Apply(Apply(c, d, prices), e, prices) == Apply(Apply(c, e, prices), d, prices)
  {
    hide WithPayments, Merge;
    PaymentsCommute(c.payments, d.payments, e.payments, prices);
    AgentsCommute(c.agents, d.agents, e.agents);
    UnionCommutes(c.txs, d.txs, e.txs);
    UnionCommutes(c.evidence, d.evidence, e.evidence);
    UnionCommutes(c.interactions, d.interactions, e.interactions);
  }

  lemma ApplyIdempotent(c: Core, d: Delta, prices: map<Bucket, real>)
    ensures Apply(Apply(c, d, prices), d, prices) == Apply(c, d, prices)
  {
    hide WithPayments, Merge;
    PaymentsIdempotent(c.payments, d.payments, prices);
    AgentsCommute(c.agents, d.agents, d.agents);
    UnionIdempotent(c.txs, d.txs);
    UnionIdempotent(c.evidence, d.evidence);
    UnionIdempotent(c.interactions, d.interactions);
  }

  // ------------------------------------------------------- the fixed chain

  /** A canonical chain: blocks are linked, no transaction is in two of them, and the node knows
      the transactions of the logs it returns. */
  ghost predicate Canonical(chain: View) {
    && (forall n :: n in chain ==> Answered(chain[n].transfers, chain[n].txs))
    && (forall n :: n in chain && n + 1 in chain ==> chain[n + 1].parent == chain[n].hash)
    && (forall m, n :: m in chain && n in chain && m != n ==> BlockTxs(chain[m]) !! BlockTxs(chain[n]))
  }

  lemma {:induction false} SeenContracts(contracts: set<Address>, es: seq<Evidence>)
    ensures forall a :: a in See(map[], contracts, es) ==> (See(map[], contracts, es)[a].isContract <==> a in contracts)
  {
    if es != [] {
      SeenContracts(contracts, es[..|es| - 1]);
    }
  }

  lemma DeltaKeysAreBlockTxs(cfg: Config, b: Block)
    ensures var d := DeltaOf(cfg, b);
            && d.number == b.number
            && d.txs.Keys <= BlockTxs(b)
            && (forall k :: k in d.evidence || k in d.payments ==> k.tx in BlockTxs(b))
            && d.payments.Keys <= d.evidence.Keys
            && (forall k :: k in d.evidence ==> d.evidence[k].block == b.number)
            && (forall k :: k in d.interactions ==> k.tx in BlockTxs(b) && d.interactions[k].block == b.number)
  {
    var es, ps := BlockEvidence(cfg, b), PromotedOf(cfg, b);
    BlockRowsFit(cfg, b);
    EvidenceAddedRows(es, b.number);
    AddedPaymentRows(ps, b.time, b.number);
    InteractionRows(ps, TxRows(BlockCandidates(cfg, b)), b.number, b.time);
    PromotedKeys(cfg, b);
    hide EvidenceAdded, PaymentsAdded, InteractionsAdded, TxRows, See, BlockCandidates, BlockEvidence, Promoted;
    assert forall k :: k in Keys(es) ==> k.tx in BlockTxs(b);
    assert forall k :: k in Keys(ps) ==> k.tx in BlockTxs(b);
  }

  lemma DeltasIndependent(cfg: Config, chain: View, m: nat, n: nat)
    requires Canonical(chain) && m in chain && n in chain && m != n
    ensures Independent(DeltaOf(cfg, chain[m]), DeltaOf(cfg, chain[n]))
    ensures forall x :: x in DeltaOf(cfg, chain[m]).agents && x in DeltaOf(cfg, chain[n]).agents ==>
              DeltaOf(cfg, chain[m]).agents[x].isContract == DeltaOf(cfg, chain[n]).agents[x].isContract
  {
    DeltaKeysAreBlockTxs(cfg, chain[m]);
    DeltaKeysAreBlockTxs(cfg, chain[n]);
    SeenContracts(cfg.contracts, PromotedOf(cfg, chain[m]));
    SeenContracts(cfg.contracts, PromotedOf(cfg, chain[n]));
    hide EvidenceAdded, PaymentsAdded, InteractionsAdded, TxRows, See, BlockCandidates, BlockEvidence, Promoted;
    hide BlockTxs;
    assert BlockTxs(chain[m]) !! BlockTxs(chain[n]);
  }

  // ------------------------------------------- contributions to one start

  /** Every stored piece of evidence sits on a stored block row: the foreign key of its table. */
  ghost predicate HeightsStored(c: Core) {
    forall k :: k in c.evidence ==> c.evidence[k].block in c.blocks
  }

  lemma StoredIsJoinable(c: Core, cfg: Config, b: Block)
    requires HeightsStored(c)
    ensures Joinable(c, cfg, b)
  {
    hide BlockEvidence;
  }

  /** What block `n` of the chain adds to a store that began as `c`. */
  function Contribution(c: Core, cfg: Config, chain: View, n: nat): Delta
    requires n in chain
  {
    Placed(c, DeltaOf(cfg, chain[n]))
  }

  lemma ContributionsIndependent(c: Core, cfg: Config, chain: View, m: nat, n: nat)
    requires Canonical(chain) && m in chain && n in chain && m != n
    ensures var d, e := Contribution(c, cfg, chain, m), Contribution(c, cfg, chain, n);
            && Independent(d, e)
            && forall x :: x in d.agents && x in e.agents ==> d.agents[x].isContract == e.agents[x].isContract
  {
    hide DeltaOf, Canonical;
    DeltasIndependent(cfg, chain, m, n);
  }

  lemma DeltaRow(cfg: Config, b: Block)
    ensures DeltaOf(cfg, b).number == b.number && DeltaOf(cfg, b).row == HeaderRow(b)
  {
    hide EvidenceAdded, PaymentsAdded, InteractionsAdded, TxRows, See, BlockCandidates, BlockEvidence, Promoted;
  }

  /** Where block `n` is paid through the row of block `h`, that row has the chain's timestamp. */
  ghost predicate SettledBetween(c: Core, cfg: Config, chain: View, n: nat, h: nat)
    requires n in chain && h in chain
  {
    forall k :: k in DeltaOf(cfg, chain[n]).payments && k in c.evidence && c.evidence[k].block == h && h != n ==>
      h in c.blocks && c.blocks[h].time == chain[h].time
  }

  /** Evidence stored at another height than the chain pays it at sits on a row whose timestamp is
      the chain's, wherever the chain would replace that row. */
  ghost predicate Settled(c: Core, cfg: Config, chain: View) {
    forall n, h :: n in chain && h in chain && n != 0 && h != 0 ==> SettledBetween(c, cfg, chain, n, h)
  }

  /** A store whose evidence sits where the chain has it is settled: an empty one, say, or one that
      only this chain was indexed into. */
  lemma OwnHeightsAreSettled(c: Core, cfg: Config, chain: View)
    requires forall n :: n in chain ==> KeepsHeight(c.evidence, cfg, chain[n])
    ensures Settled(c, cfg, chain)
  {
    hide DeltaOf, BlockEvidence, KeepsHeight;
    forall n, h | n in chain && h in chain && n != 0 && h != 0
      ensures SettledBetween(c, cfg, chain, n, h)
    {
      forall k | k in DeltaOf(cfg, chain[n]).payments && k in c.evidence ensures c.evidence[k].block == n {
        PaidKeyHeight(c, cfg, chain[n], k);
      }
    }
  }

  lemma PaidKeyHeight(c: Core, cfg: Config, b: Block, k: Key)
    requires KeepsHeight(c.evidence, cfg, b) && k in DeltaOf(cfg, b).payments && k in c.evidence
    ensures c.evidence[k].block == b.number
  {
    PromotedKeys(cfg, b);
    hide BlockEvidence, PromotedOf, PaymentsAdded, EvidenceAdded, TxRows, See, InteractionsAdded;
    var e :| e in BlockEvidence(cfg, b) && e.key == k;
  }

  lemma PaidAtHeight(c: Core, cfg: Config, chain: View, n: nat, k: Key)
    requires n in chain && HeightsStored(c) && k in DeltaOf(cfg, chain[n]).evidence
    ensures var h := HeightAt(c.evidence, k, n);
            && (h != n ==> k in c.evidence && c.evidence[k].block == h && h in c.blocks)
            && PaidAt(c, DeltaOf(cfg, chain[n]), k) == if h == n then chain[n].time else c.blocks[h].time
  {
    DeltaRow(cfg, chain[n]);
    var d := DeltaOf(cfg, chain[n]);
    hide DeltaOf, PlacedEvidence, JoinTime;
    JoinTimeAt(c.evidence, d.evidence, c.blocks, n, d.row, k, d.row.time);
  }

  /** Where a key's row sits after a contribution, given where it sat before. */
  lemma NextHeight(c: Core, cfg: Config, chain: View, evidence: map<Key, Evidence>, m: nat, n: nat, k: Key)
    requires Canonical(chain) && m in chain && n in chain && k in DeltaOf(cfg, chain[n]).evidence
    requires HeightAt(evidence, k, n) == HeightAt(c.evidence, k, n)
    ensures HeightAt(evidence + Contribution(c, cfg, chain, m).evidence, k, n) == HeightAt(c.evidence, k, n)
  {
    DeltaKeysAreBlockTxs(cfg, chain[m]);
    DeltaKeysAreBlockTxs(cfg, chain[n]);
    DeltaRow(cfg, chain[m]);
    hide DeltaOf, BlockTxs;
  }

  // -------------------------------------------- order and repeats vanish

  ghost function ApplySet(c: Core, cfg: Config, chain: View, s: set<nat>): Core
    requires s <= chain.Keys
    decreases |s|
  {
    if s == {} then c else
      var n :| n in s;
      Apply(ApplySet(c, cfg, chain, s - {n}), Contribution(c, cfg, chain, n), cfg.prices)
  }

  lemma {:induction false} ApplySetLast(c: Core, cfg: Config, chain: View, s: set<nat>, n: nat)
    requires Canonical(chain) && s <= chain.Keys && n in s
    ensures ApplySet(c, cfg, chain, s)
            == Apply(ApplySet(c, cfg, chain, s - {n}), Contribution(c, cfg, chain, n), cfg.prices)
    decreases |s|
  {
    hide Apply, Contribution, Canonical;
    var m :| m in s && ApplySet(c, cfg, chain, s)
                       == Apply(ApplySet(c, cfg, chain, s - {m}), Contribution(c, cfg, chain, m), cfg.prices);
    if m != n {
      ApplySetLast(c, cfg, chain, s - {m}, n);
      ApplySetLast(c, cfg, chain, s - {n}, m);
      assert s - {m} - {n} == s - {n} - {m};
      ContributionsIndependent(c, cfg, chain, m, n);
      ApplyCommutes(ApplySet(c, cfg, chain, s - {m} - {n}), Contribution(c, cfg, chain, n),
                    Contribution(c, cfg, chain, m), cfg.prices);
    }
  }

  function Numbers(ns: seq<nat>): set<nat> { set n | n in ns }

  /** The block rows and the heights of the evidence after a set of blocks. */
  /** The rows of the blocks listed are those of the chain, the others are as they were. */
  ghost predicate RowsOver(rows: map<nat, BlockRow>, after: map<nat, BlockRow>, chain: View, s: set<nat>)
    requires s <= chain.Keys
  {
    && (forall h :: h in after <==> h in rows || h in s)
    && (forall h :: h in after ==> after[h] == if h in s then HeaderRow(chain[h]) else rows[h])
  }

  lemma OneMoreRow(rows: map<nat, BlockRow>, before: map<nat, BlockRow>, chain: View, s: set<nat>, m: nat)
    requires s <= chain.Keys && m in s && RowsOver(rows, before, chain, s - {m})
    ensures RowsOver(rows, before[m := HeaderRow(chain[m])], chain, s)
  {
    hide HeaderRow;
  }

  lemma {:induction false} ApplySetRows(c: Core, cfg: Config, chain: View, s: set<nat>)
    requires Canonical(chain) && s <= chain.Keys && HeightsStored(c)
    ensures var after := ApplySet(c, cfg, chain, s);
            && HeightsStored(after)
            && RowsOver(c.blocks, after.blocks, chain, s)
            && (forall n, k :: n in chain && k in DeltaOf(cfg, chain[n]).evidence ==>
                  HeightAt(after.evidence, k, n) == HeightAt(c.evidence, k, n))
    decreases |s|
  {
    hide Apply, Contribution, HeightAt, Canonical, HeightsStored, DeltaOf, HeaderRow;
    if s != {} {
      var m :| m in s && ApplySet(c, cfg, chain, s)
                         == Apply(ApplySet(c, cfg, chain, s - {m}), Contribution(c, cfg, chain, m), cfg.prices);
      var before := ApplySet(c, cfg, chain, s - {m});
      hide ApplySet;
      ApplySetRows(c, cfg, chain, s - {m});
      RowsStep(c, before, cfg, chain, m);
      OneMoreRow(c.blocks, before.blocks, chain, s, m);
      hide RowsOver;
    }
  }

  lemma RowsStep(c: Core, before: Core, cfg: Config, chain: View, m: nat)
    requires Canonical(chain) && m in chain && HeightsStored(c) && HeightsStored(before)
    requires forall h :: h in c.blocks ==> h in before.blocks
    requires forall n, k :: n in chain && k in DeltaOf(cfg, chain[n]).evidence ==>
               HeightAt(before.evidence, k, n) == HeightAt(c.evidence, k, n)
    ensures var after := Apply(before, Contribution(c, cfg, chain, m), cfg.prices);
            && HeightsStored(after)
            && after.blocks == before.blocks[m := HeaderRow(chain[m])]
            && (forall n, k :: n in chain && k in DeltaOf(cfg, chain[n]).evidence ==>
                  HeightAt(after.evidence, k, n) == HeightAt(c.evidence, k, n))
  {
    hide DeltaOf, HeightAt, Canonical, Apply, Contribution, HeightsStored;
    ContributedRows(c, before, cfg, chain, m);
    var after := Apply(before, Contribution(c, cfg, chain, m), cfg.prices);
    forall n, k | n in chain && k in DeltaOf(cfg, chain[n]).evidence
      ensures HeightAt(after.evidence, k, n) == HeightAt(c.evidence, k, n)
    {
      NextHeight(c, cfg, chain, before.evidence, m, n, k);
    }
  }

  lemma ContributedRows(c: Core, before: Core, cfg: Config, chain: View, m: nat)
    requires m in chain && HeightsStored(before) && forall h :: h in c.blocks ==> h in before.blocks
    requires HeightsStored(c)
    ensures var after := Apply(before, Contribution(c, cfg, chain, m), cfg.prices);
            && HeightsStored(after)
            && after.blocks == before.blocks[m := HeaderRow(chain[m])]
            && after.evidence == before.evidence + Contribution(c, cfg, chain, m).evidence
  {
    DeltaRow(cfg, chain[m]);
    hide DeltaOf, WithPayments, Merge, PlacedPayments;
  }

  /** A block lands after others where it would have landed first, if it is settled with them. */
  lemma LandsAfterSet(c: Core, cfg: Config, chain: View, s: set<nat>, n: nat)
    requires Canonical(chain) && s <= chain.Keys && HeightsStored(c) && n in chain
    requires forall h :: h in s ==> SettledBetween(c, cfg, chain, n, h)
    ensures Contribution(ApplySet(c, cfg, chain, s), cfg, chain, n) == Contribution(c, cfg, chain, n)
  {
    hide ApplySet, PaidAt, HeightAt, Canonical, HeightsStored, DeltaOf, Placed;
    var after, d := ApplySet(c, cfg, chain, s), DeltaOf(cfg, chain[n]);
    ApplySetRows(c, cfg, chain, s);
    DeltaRow(cfg, chain[n]);
    DeltaKeysAreBlockTxs(cfg, chain[n]);
    forall k | k in d.payments ensures PaidAt(c, d, k) == PaidAt(after, d, k) {
      PaidAtHeight(c, cfg, chain, n, k);
      PaidAtHeight(after, cfg, chain, n, k);
    }
    PlacedAlike(c, after, d);
  }

  // ------------------------------------------------------------ the runs

  /** Blocks processed one after another by a backfill worker. */
  ghost function BackfillAll(db: Db, cfg: Config, chain: View, w: Worker, ns: seq<nat>): Result<Db> {
    if ns == [] then Ok(db)
    else match BackfillAll(db, cfg, chain, w, ns[..|ns| - 1])
      case Ok(d) => Process(d, cfg, chain, ns[|ns| - 1], w, true)
      case Thrown(e) => Thrown(e)
  }

  /** The numbers a backfill of the chain may list. */
  ghost predicate Listed(chain: View, ns: seq<nat>) {
    forall n :: n in ns ==> n != 0 && n in chain
  }

  /** The worker's cursor, if any, is on the chain. */
  ghost predicate OnChain(db: Db, chain: View, w: Worker) {
    Last(db.checkpoints, w).Some? ==>
      var c := Last(db.checkpoints, w).value; c.block in chain && chain[c.block].hash == c.hash
  }

  /** A block of the chain is always accepted, whatever the tables hold. */
  lemma BackfillStep(db: Db, cfg: Config, chain: View, w: Worker, n: nat)
    requires Canonical(chain) && OnChain(db, chain, w) && n != 0 && n in chain
    ensures Detect(db, cfg.maxReorgDepth, chain, chain[n], w, true) == Valid
    ensures var after := Accept(db, cfg, chain[n], w);
            && Process(db, cfg, chain, n, w, true) == Ok(after)
            && after.checkpoints == Advance(db.checkpoints, w, chain[n])
            && OnChain(after, chain, w)
  {
    hide Accept, Ancestor, BlockTxs, Answered;
    AcceptAdvances(db, cfg, chain[n], w);
    AnsweredIsFetchable(cfg, chain[n]);
    hide Fetchable;
  }

  lemma AcceptContributes(db: Db, cfg: Config, chain: View, w: Worker, n: nat)
    requires n in chain && HeightsStored(CoreOf(db))
    ensures CoreOf(Accept(db, cfg, chain[n], w))
            == Apply(CoreOf(db), Contribution(CoreOf(db), cfg, chain, n), cfg.prices)
  {
    hide Accept, Apply, Placed, DeltaOf, BlockEvidence;
    AcceptApplies(db, cfg, chain[n], w);
  }

  /** Accepting block `n` after the blocks of a set it is settled with. */
  lemma AcceptJoinsSet(db: Db, c: Core, cfg: Config, chain: View, w: Worker, s: set<nat>, n: nat)
    requires Canonical(chain) && s <= chain.Keys && HeightsStored(c) && n in chain
    requires forall h :: h in s ==> SettledBetween(c, cfg, chain, n, h)
    requires CoreOf(db) == ApplySet(c, cfg, chain, s)
    ensures CoreOf(Accept(db, cfg, chain[n], w)) == ApplySet(c, cfg, chain, s + {n})
  {
    hide Accept, Apply, ApplySet, Contribution, Canonical, SettledBetween, HeightsStored;
    ApplySetRows(c, cfg, chain, s);
    AcceptContributes(db, cfg, chain, w, n);
    LandsAfterSet(c, cfg, chain, s, n);
    ApplySetLast(c, cfg, chain, s + {n}, n);
    if n in s {
      assert s + {n} == s;
      ApplyIdempotent(ApplySet(c, cfg, chain, s - {n}), Contribution(c, cfg, chain, n), cfg.prices);
    } else {
      assert s + {n} - {n} == s;
    }
  }

  /** The headers of the numbers listed. */
  function Headers(chain: View, ns: seq<nat>): seq<Block>
    requires forall n :: n in ns ==> n in chain
  {
    if ns == [] then [] else Headers(chain, ns[..|ns| - 1]) + [chain[ns[|ns| - 1]]]
  }

  /** Every block is accepted, and the cursor takes the advances of the blocks listed. */
  lemma {:induction false} BackfillAllAdvances(db: Db, cfg: Config, chain: View, w: Worker, ns: seq<nat>)
    requires Canonical(chain) && OnChain(db, chain, w) && Listed(chain, ns)
    ensures var r := BackfillAll(db, cfg, chain, w, ns);
            && r.Ok?
            && r.value.checkpoints == AdvanceAll(db.checkpoints, w, Headers(chain, ns))
            && OnChain(r.value, chain, w)
  {
    hide Process, Canonical, OnChain;
    if ns != [] {
      var earlier, n := ns[..|ns| - 1], ns[|ns| - 1];
      assert ns == earlier + [n];
      BackfillAllAdvances(db, cfg, chain, w, earlier);
      assert n in ns;
      BackfillStep(BackfillAll(db, cfg, chain, w, earlier).value, cfg, chain, w, n);
      LastAdvance(db.checkpoints, w, chain, ns);
    } else {
      assert Headers(chain, ns) == [];
    }
  }

  lemma LastAdvance(cps: map<Worker, Checkpoint>, w: Worker, chain: View, ns: seq<nat>)
    requires ns != [] && Listed(chain, ns) && Listed(chain, ns[..|ns| - 1])
    ensures AdvanceAll(cps, w, Headers(chain, ns))
         == Advance(AdvanceAll(cps, w, Headers(chain, ns[..|ns| - 1])), w, chain[ns[|ns| - 1]])
  {
    var hs := Headers(chain, ns);
    assert hs[..|hs| - 1] == Headers(chain, ns[..|ns| - 1]) && hs[|hs| - 1] == chain[ns[|ns| - 1]];
  }

  /** From a settled start the tables take the contributions of the blocks listed. */
  lemma {:induction false} BackfillAllApplies(db: Db, cfg: Config, chain: View, w: Worker, ns: seq<nat>)
    requires Canonical(chain) && OnChain(db, chain, w) && Listed(chain, ns)
    requires HeightsStored(CoreOf(db)) && Settled(CoreOf(db), cfg, chain)
    ensures Numbers(ns) <= chain.Keys
    ensures var r := BackfillAll(db, cfg, chain, w, ns);
            r.Ok? && CoreOf(r.value) == ApplySet(CoreOf(db), cfg, chain, Numbers(ns))
  {
    hide Process, Canonical, OnChain, HeightsStored, SettledBetween;
    var all := Numbers(ns);
    if ns != [] {
      var earlier, n := ns[..|ns| - 1], ns[|ns| - 1];
      assert ns == earlier + [n];
      assert all == Numbers(earlier) + {n};
      BackfillAllApplies(db, cfg, chain, w, earlier);
      BackfillAllAdvances(db, cfg, chain, w, earlier);
      var before := BackfillAll(db, cfg, chain, w, earlier).value;
      hide ApplySet;
      BackfillStep(before, cfg, chain, w, n);
      AcceptJoinsSet(before, CoreOf(db), cfg, chain, w, Numbers(earlier), n);
    }
  }

  lemma {:induction false} HeadersAre(chain: View, ns: seq<nat>)
    requires forall n :: n in ns ==> n in chain
    ensures |Headers(chain, ns)| == |ns|
    ensures forall i :: 0 <= i < |ns| ==> Headers(chain, ns)[i] == chain[ns[i]]
  {
    if ns != [] {
      assert ns == ns[..|ns| - 1] + [ns[|ns| - 1]];
      HeadersAre(chain, ns[..|ns| - 1]);
    }
  }

  lemma GreatestHeader(chain: View, ns: seq<nat>, top: nat) returns (i: nat)
    requires forall n :: n in ns ==> n in chain
    requires top in ns && forall n :: n in ns ==> n <= top
    ensures LastGreatest(Headers(chain, ns), i) && Headers(chain, ns)[i] == chain[top]
  {
    HeadersAre(chain, ns);
    var hs := Headers(chain, ns);
    i := GreatestIndex(hs);
    var k :| 0 <= k < |ns| && ns[k] == top;
    assert hs[k].number == top && hs[i] == chain[ns[i]] && ns[i] in ns;
  }

  lemma PutBack<K, V>(m: map<K, V>, end: map<K, V>, k: K)
    requires k in end && end - {k} == m - {k}
    ensures end == m[k := end[k]]
  {
    forall x | x in end && x != k
      ensures x in m && m[x] == end[x]
    {
      assert x in end - {k};
    }
    forall x | x in m && x != k
      ensures x in end
    {
      assert x in m - {k};
    }
  }

  /** The cursor after a list of blocks is the greatest number seen, with its canonical hash,
      whatever the tables hold. */
  lemma CursorIsGreatest(db: Db, cfg: Config, chain: View, w: Worker, ns: seq<nat>, top: nat)
    requires Canonical(chain) && OnChain(db, chain, w) && Listed(chain, ns)
    requires top in ns && forall n :: n in ns ==> n <= top
    ensures var r := BackfillAll(db, cfg, chain, w, ns);
            var at := if w in db.checkpoints && db.checkpoints[w].block > top then db.checkpoints[w].block else top;
            && r.Ok? && at in chain
            && r.value.checkpoints == db.checkpoints[w := Checkpoint(at, chain[at].hash, Running)]
  {
    hide Process, Canonical, BackfillAll, AdvanceAll, Advance, Headers, LastGreatest;
    BackfillAllAdvances(db, cfg, chain, w, ns);
    var i := GreatestHeader(chain, ns, top);
    var hs := Headers(chain, ns);
    AdvanceAllIsMaximum(db.checkpoints, w, hs, i);
    PutBack(db.checkpoints, AdvanceAll(db.checkpoints, w, hs), w);
  }

  /** Both runs complete and leave the same tables and the same cursors. */
  ghost predicate SameEnd(x: Result<Db>, y: Result<Db>) {
    x.Ok? && y.Ok? && CoreOf(x.value) == CoreOf(y.value) && x.value.checkpoints == y.value.checkpoints
  }

  /** From a settled start two lists of blocks with the same members, in whatever order and
      however often each is repeated, are accepted throughout and end alike. */
  lemma BackfillConfluent(db: Db, cfg: Config, chain: View, w: Worker, ns: seq<nat>, ms: seq<nat>)
    requires Canonical(chain) && OnChain(db, chain, w) && HeightsStored(CoreOf(db)) && Settled(CoreOf(db), cfg, chain)
    requires Listed(chain, ns) && Listed(chain, ms) && Numbers(ns) == Numbers(ms)
    ensures SameEnd(BackfillAll(db, cfg, chain, w, ns), BackfillAll(db, cfg, chain, w, ms))
  {
    hide Process, Canonical, BackfillAll, ApplySet, Settled, HeightsStored, OnChain;
    BackfillAllApplies(db, cfg, chain, w, ns);
    BackfillAllApplies(db, cfg, chain, w, ms);
    assert forall n :: n in ms <==> n in Numbers(ms);
    assert forall n :: n in ns <==> n in Numbers(ns);
    SomeNumber(ns);
    SomeNumber(ms);
    if ns != [] {
      var top := Greatest(ns);
      assert top in Numbers(ns);
      CursorIsGreatest(db, cfg, chain, w, ns, top);
      CursorIsGreatest(db, cfg, chain, w, ms, top);
    }
  }

  lemma SomeNumber(ns: seq<nat>)
    ensures ns == [] <==> Numbers(ns) == {}
  {
    if ns != [] {
      assert ns[0] in Numbers(ns);
    }
  }

  lemma {:induction false} Greatest(ns: seq<nat>) returns (top: nat)
    requires ns != []
    ensures top in ns && forall n :: n in ns ==> n <= top
  {
    var last := ns[|ns| - 1];
    top := last;
    if |ns| > 1 {
      var earlier := ns[..|ns| - 1];
      var rest := Greatest(earlier);
      top := if rest > last then rest else last;
      forall i | 0 <= i < |ns| ensures ns[i] <= top {
        assert i < |earlier| ==> earlier[i] in earlier;
      }
    }
  }

  // ------------------------------------------------- exactly when it holds

  ghost predicate OrderIrrelevant(db: Db, cfg: Config, chain: View, w: Worker) {
    forall ns, ms :: Listed(chain, ns) && Listed(chain, ms) && Numbers(ns) == Numbers(ms) ==>
      SameEnd(BackfillAll(db, cfg, chain, w, ns), BackfillAll(db, cfg, chain, w, ms))
  }

  /** The tables after block `n`, wherever they stood. */
  function After(c: Core, cfg: Config, chain: View, n: nat): Core
    requires n in chain
  {
    Apply(c, Contribution(c, cfg, chain, n), cfg.prices)
  }

  lemma TwoBlocks(db: Db, cfg: Config, chain: View, w: Worker, m: nat, n: nat)
    requires Canonical(chain) && OnChain(db, chain, w) && HeightsStored(CoreOf(db))
    requires m in chain && n in chain && m != 0 && n != 0
    ensures var r := BackfillAll(db, cfg, chain, w, [m, n]);
            r.Ok? && CoreOf(r.value) == After(After(CoreOf(db), cfg, chain, m), cfg, chain, n)
  {
    hide Process, Apply, Contribution, Canonical, OnChain, HeightsStored;
    assert [m, n][..1] == [m] && [m][..0] == [];
    assert BackfillAll(db, cfg, chain, w, []) == Ok(db);
    BackfillStep(db, cfg, chain, w, m);
    var once := Accept(db, cfg, chain[m], w);
    assert BackfillAll(db, cfg, chain, w, [m]) == Ok(once);
    BackfillStep(once, cfg, chain, w, n);
    AcceptContributes(db, cfg, chain, w, m);
    KeepsHeightsStored(CoreOf(db), cfg, chain, m);
    AcceptContributes(once, cfg, chain, w, n);
  }

  lemma KeepsHeightsStored(c: Core, cfg: Config, chain: View, m: nat)
    requires m in chain && HeightsStored(c)
    ensures HeightsStored(Apply(c, Contribution(c, cfg, chain, m), cfg.prices))
  {
    hide Apply, Contribution;
    ContributedRows(c, c, cfg, chain, m);
  }

  /** The timestamp a payment of block `n` gets right after that block, and what keeps it. */
  lemma PaidTime(c: Core, cfg: Config, chain: View, n: nat, k: Key)
    requires n in chain && HeightsStored(c) && k in DeltaOf(cfg, chain[n]).payments
    requires k in c.evidence && c.evidence[k].block != n
    ensures var after := Apply(c, Contribution(c, cfg, chain, n), cfg.prices);
            && k in after.payments && after.payments[k].time == c.blocks[c.evidence[k].block].time
            && k in after.evidence && after.evidence[k].block == c.evidence[k].block
  {
    DeltaRow(cfg, chain[n]);
    DeltaKeysAreBlockTxs(cfg, chain[n]);
    var d := DeltaOf(cfg, chain[n]);
    BlockNumberKept(c.evidence, d.evidence, n, k);
    JoinTimeAt(c.evidence, d.evidence, c.blocks, n, d.row, k, d.row.time);
    hide DeltaOf, WithPayments, Merge, BlockTxs, PlacedEvidence, JoinTime;
    WithPaymentsAt(c.payments, Placed(c, d).payments, cfg.prices, k);
  }

  lemma OtherBlockLeaves(c: Core, cfg: Config, chain: View, h: nat, n: nat, k: Key)
    requires Canonical(chain) && h in chain && n in chain && h != n && k in DeltaOf(cfg, chain[n]).payments
    ensures var after := Apply(c, Contribution(c, cfg, chain, h), cfg.prices);
            && (k in after.payments <==> k in c.payments) && (k in c.payments ==> after.payments[k] == c.payments[k])
            && (k in after.evidence <==> k in c.evidence) && (k in c.evidence ==> after.evidence[k] == c.evidence[k])
            && after.blocks == c.blocks[h := DeltaOf(cfg, chain[h]).row]
  {
    DeltaKeysAreBlockTxs(cfg, chain[n]);
    DeltaKeysAreBlockTxs(cfg, chain[h]);
    DeltaRow(cfg, chain[h]);
    var d := DeltaOf(cfg, chain[h]);
    hide DeltaOf, WithPayments, Merge, BlockTxs;
    WithPaymentsAt(c.payments, Placed(c, d).payments, cfg.prices, k);
  }

  /** Where a block is paid through a row that another block of the chain replaces by one with
      another timestamp, the two orders of these blocks give the payment different timestamps. */
  lemma UnsettledCoresDiffer(c: Core, cfg: Config, chain: View, n: nat, h: nat)
    requires Canonical(chain) && HeightsStored(c) && n in chain && h in chain
    requires !SettledBetween(c, cfg, chain, n, h)
    ensures n != h && After(After(c, cfg, chain, n), cfg, chain, h) != After(After(c, cfg, chain, h), cfg, chain, n)
  {
    var k :| k in DeltaOf(cfg, chain[n]).payments && k in c.evidence && c.evidence[k].block == h && h != n
             && !(h in c.blocks && c.blocks[h].time == chain[h].time);
    DeltaRow(cfg, chain[h]);
    KeepsHeightsStored(c, cfg, chain, h);
    hide Apply, Contribution, Canonical, DeltaOf;
    PaidTime(c, cfg, chain, n, k);
    OtherBlockLeaves(After(c, cfg, chain, n), cfg, chain, h, n, k);
    OtherBlockLeaves(c, cfg, chain, h, n, k);
    PaidTime(After(c, cfg, chain, h), cfg, chain, n, k);
  }

  lemma UnsettledOrderMatters(db: Db, cfg: Config, chain: View, w: Worker, n: nat, h: nat)
    requires Canonical(chain) && OnChain(db, chain, w) && HeightsStored(CoreOf(db))
    requires n in chain && h in chain && n != 0 && h != 0 && !SettledBetween(CoreOf(db), cfg, chain, n, h)
    ensures !SameEnd(BackfillAll(db, cfg, chain, w, [n, h]), BackfillAll(db, cfg, chain, w, [h, n]))
  {
    hide Process, Apply, Contribution, Canonical, OnChain, BackfillAll, SettledBetween, HeightsStored;
    TwoBlocks(db, cfg, chain, w, n, h);
    TwoBlocks(db, cfg, chain, w, h, n);
    UnsettledCoresDiffer(CoreOf(db), cfg, chain, n, h);
  }

  /** The order and the repeats of pipeline steps are irrelevant if and only if the start is settled. */
  lemma OrderIrrelevantIffSettled(db: Db, cfg: Config, chain: View, w: Worker)
    requires Canonical(chain) && OnChain(db, chain, w) && HeightsStored(CoreOf(db))
    ensures OrderIrrelevant(db, cfg, chain, w) <==> Settled(CoreOf(db), cfg, chain)
  {
    hide Canonical, OnChain, HeightsStored, BackfillAll, SettledBetween, SameEnd;
    if Settled(CoreOf(db), cfg, chain) {
      forall ns, ms | Listed(chain, ns) && Listed(chain, ms) && Numbers(ns) == Numbers(ms)
        ensures SameEnd(BackfillAll(db, cfg, chain, w, ns), BackfillAll(db, cfg, chain, w, ms))
      {
        BackfillConfluent(db, cfg, chain, w, ns, ms);
      }
    } else {
      var n, h :| n in chain && h in chain && n != 0 && h != 0 && !SettledBetween(CoreOf(db), cfg, chain, n, h);
      UnsettledOrderMatters(db, cfg, chain, w, n, h);
      assert Numbers([n, h]) == Numbers([h, n]);
      assert Listed(chain, [n, h]) && Listed(chain, [h, n]);
    }
  }
}
