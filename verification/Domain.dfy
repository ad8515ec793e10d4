/** Raw rows, evidence and the domain tables derived from it. Each table has the function that
    says what its upserts leave behind and the loop that performs them. */
module Domain {
  import opened Types
  import opened Sums
  import opened Stores
  import opened Candidates

  // ------------------------------------------------------------- raw rows

  function HeaderRow(b: Block): BlockRow { BlockRow(b.hash, b.parent, b.time, false) }

  function StoreBlock(blocks: map<nat, BlockRow>, b: Block): map<nat, BlockRow> {
    blocks[b.number := HeaderRow(b)]
  }

  /** The last candidate of each transaction. */
  function ByTx(cs: seq<Candidate>): map<Hash, Candidate> {
    if cs == [] then map[] else
      var c := cs[|cs| - 1];
      ByTx(cs[..|cs| - 1])[c.transfer.tx := c]
  }

  function TxRows(cs: seq<Candidate>): map<Hash, TxRow> {
    var last := ByTx(cs);
    map h | h in last :: TxRow(last[h].block, last[h].detail)
  }

  /** The block is live with its own hash and parent, and no other row changes. */
  method StoreBlockOnly(s: Store, b: Block)
    modifies s`blocks
    ensures Live(s.blocks, b.number) && s.blocks[b.number].hash == b.hash && s.blocks[b.number].parent == b.parent
    ensures s.blocks - {b.number} == old(s.blocks) - {b.number}
    ensures s.blocks == StoreBlock(old(s.blocks), b)
  {
    s.blocks := s.blocks[b.number := BlockRow(b.hash, b.parent, b.time, false)];
  }

  method StoreRaw(s: Store, b: Block, cs: seq<Candidate>)
    modifies s`blocks, s`txs
    ensures s.blocks == StoreBlock(old(s.blocks), b)
    ensures s.txs == old(s.txs) + TxRows(cs)
  {
    s.blocks := s.blocks[b.number := BlockRow(b.hash, b.parent, b.time, false)];
    var unique: map<Hash, Candidate> := map[];
    for i := 0 to |cs|
      invariant unique == ByTx(cs[..i])
    {
      assert cs[..i + 1][..i] == cs[..i];
      unique := unique[cs[i].transfer.tx := cs[i]];
    }
    assert cs[..|cs|] == cs;
    var hashes := List(unique.Keys);
    for i := 0 to |hashes|
      invariant s.blocks == StoreBlock(old(s.blocks), b)
      invariant forall h :: h in s.txs <==> h in old(s.txs) || h in hashes[..i]
      invariant forall h :: h in s.txs ==> s.txs[h] == if h in hashes[..i] then TxRows(cs)[h] else old(s.txs)[h]
    {
      var h := hashes[i];
      assert hashes[..i + 1] == hashes[..i] + [h];
      s.txs := s.txs[h := TxRow(unique[h].block, unique[h].detail)];
    }
    assert hashes[..|hashes|] == hashes;
  }

  // ------------------------------------------------------------- evidence

  /** A conflicting row takes every new value except its block number. */
  function PersistOne(table: map<Key, Evidence>, e: Evidence): map<Key, Evidence> {
    table[e.key := if e.key in table then e.(block := table[e.key].block) else e]
  }

  function Persist(table: map<Key, Evidence>, es: seq<Evidence>): map<Key, Evidence> {
    if es == [] then table else PersistOne(Persist(table, es[..|es| - 1]), es[|es| - 1])
  }

  method PersistEvidence(s: Store, es: seq<Evidence>)
    modifies s`evidence
    ensures s.evidence == Persist(old(s.evidence), es)
  {
    for i := 0 to |es|
      invariant s.evidence == Persist(old(s.evidence), es[..i])
    {
      assert es[..i + 1][..i] == es[..i];
      var e := es[i];
      s.evidence := s.evidence[e.key := if e.key in s.evidence then e.(block := s.evidence[e.key].block) else e];
    }
    assert es[..|es|] == es;
  }

  function Promoted(es: seq<Evidence>, threshold: nat): seq<Evidence> {
    if es == [] then [] else
      var rest := Promoted(es[..|es| - 1], threshold);
      if es[|es| - 1].confidence >= threshold then rest + [es[|es| - 1]] else rest
  }

  function Keys(es: seq<Evidence>): set<Key> { set e | e in es :: e.key }

  // --------------------------------------------------------------- agents

  function Min(a: nat, b: nat): nat { if a < b then a else b }
  function Max(a: nat, b: nat): nat { if a > b then a else b }

  function SeeOne(agents: map<Address, Agent>, contracts: set<Address>, e: Evidence): map<Address, Agent> {
    agents[e.payer :=
      if e.payer in agents
      then Agent(agents[e.payer].isContract,
                 Min(agents[e.payer].firstSeen, e.block), Max(agents[e.payer].lastSeen, e.block))
      else Agent(e.payer in contracts, e.block, e.block)]
  }

  function See(agents: map<Address, Agent>, contracts: set<Address>, es: seq<Evidence>): map<Address, Agent> {
    if es == [] then agents else SeeOne(See(agents, contracts, es[..|es| - 1]), contracts, es[|es| - 1])
  }

  function MergeOne(agents: map<Address, Agent>, a: Address, seen: Agent): Agent {
    if a in agents
    then Agent(agents[a].isContract, Min(agents[a].firstSeen, seen.firstSeen), Max(agents[a].lastSeen, seen.lastSeen))
    else seen
  }

  /** Upserting a batch of sightings with LEAST and GREATEST. */
  function Merge(agents: map<Address, Agent>, seen: map<Address, Agent>): map<Address, Agent> {
    map a | a in agents.Keys + seen.Keys :: if a in seen then MergeOne(agents, a, seen[a]) else agents[a]
  }

  lemma {:induction false} SeeIsMerge(agents: map<Address, Agent>, contracts: set<Address>, es: seq<Evidence>)
    ensures See(agents, contracts, es) == Merge(agents, See(map[], contracts, es))
  {
    if es != [] {
      SeeIsMerge(agents, contracts, es[..|es| - 1]);
    }
  }

  /** Code is looked up only for payers that are not yet agents: the rows already there keep
      their flag, so the lookups left out change nothing. */
  lemma {:induction false} KnownPayersNeedNoCode(agents: map<Address, Agent>, contracts: set<Address>,
                                                 es: seq<Evidence>)
    ensures var x, y := See(map[], contracts - agents.Keys, es), See(map[], contracts, es);
            && x.Keys == y.Keys
            && forall a :: a in x ==>
                 x[a].firstSeen == y[a].firstSeen && x[a].lastSeen == y[a].lastSeen && (a !in agents ==> x[a] == y[a])
  {
    if es != [] {
      KnownPayersNeedNoCode(agents, contracts, es[..|es| - 1]);
    }
  }

  method WriteAgents(s: Store, seen: map<Address, Agent>)
    modifies s`agents
    ensures s.agents == Merge(old(s.agents), seen)
  {
    var payers := List(seen.Keys);
    for i := 0 to |payers|
      invariant forall a :: a in s.agents <==> a in old(s.agents) || a in payers[..i]
      invariant forall a :: a in s.agents ==>
                  s.agents[a] == if a in payers[..i] then MergeOne(old(s.agents), a, seen[a]) else old(s.agents)[a]
    {
      var a := payers[i];
      assert payers[..i + 1] == payers[..i] + [a];
      assert a !in payers[..i];
      s.agents := s.agents[a := MergeOne(s.agents, a, seen[a])];
    }
    assert payers[..|payers|] == payers;
  }

  method UpsertAgents(s: Store, contracts: set<Address>, es: seq<Evidence>)
    modifies s`agents
    ensures s.agents == See(old(s.agents), contracts, es)
  {
    var code := contracts - s.agents.Keys;
    var seen: map<Address, Agent> := map[];
    for i := 0 to |es|
      invariant seen == See(map[], code, es[..i])
    {
      assert es[..i + 1][..i] == es[..i];
      var e := es[i];
      if e.payer !in seen {
        seen := seen[e.payer := Agent(e.payer in code, e.block, e.block)];
      } else {
        var current := seen[e.payer];
        var first, last := Min(current.firstSeen, e.block), Max(current.lastSeen, e.block);
        seen := seen[e.payer := Agent(current.isContract, first, last)];
      }
    }
    assert es[..|es|] == es;
    WriteAgents(s, seen);
    KnownPayersNeedNoCode(old(s.agents), contracts, es);
    SeeIsMerge(old(s.agents), contracts, es);
    assert Merge(old(s.agents), seen) == Merge(old(s.agents), See(map[], contracts, es));
  }

  // ------------------------------------------------------------- services

  function Payees(es: seq<Evidence>): set<Address> { set e | e in es :: e.payTo }

  method UpsertServices(s: Store, es: seq<Evidence>)
    modifies s`services
    ensures s.services == old(s.services) + Payees(es)
  {
    for i := 0 to |es|
      invariant s.services == old(s.services) + Payees(es[..i])
    {
      assert es[..i + 1] == es[..i] + [es[i]];
      s.services := s.services + {es[i].payTo};
    }
    assert es[..|es|] == es;
  }

  // ------------------------------------------------------------- payments

  function PayOne(payments: map<Key, Payment>, evidence: map<Key, Evidence>, blocks: map<nat, BlockRow>, e: Evidence)
    : map<Key, Payment>
  {
    if e.key in evidence && evidence[e.key].block in blocks then
      payments[e.key :=
        Payment(e.block, blocks[evidence[e.key].block].time, e.payer, e.payTo, e.asset, e.amount,
                if e.key in payments then payments[e.key].usd else None)]
    else payments
  }

  function Pay(payments: map<Key, Payment>, evidence: map<Key, Evidence>, blocks: map<nat, BlockRow>, es: seq<Evidence>)
    : map<Key, Payment>
  {
    if es == [] then payments
    else PayOne(Pay(payments, evidence, blocks, es[..|es| - 1]), evidence, blocks, es[|es| - 1])
  }

  method InsertPayments(s: Store, es: seq<Evidence>)
    modifies s`payments
    ensures s.payments == Pay(old(s.payments), s.evidence, s.blocks, es)
  {
    for i := 0 to |es|
      invariant s.payments == Pay(old(s.payments), s.evidence, s.blocks, es[..i])
    {
      assert es[..i + 1][..i] == es[..i];
      var e := es[i];
      if e.key !in s.evidence || s.evidence[e.key].block !in s.blocks {
        continue;
      }
      var usd := if e.key in s.payments then s.payments[e.key].usd else None;
      s.payments := s.payments[e.key :=
        Payment(e.block, s.blocks[s.evidence[e.key].block].time, e.payer, e.payTo, e.asset, e.amount, usd)];
    }
    assert es[..|es|] == es;
  }

  // --------------------------------------------------------- interactions

  function InteractOne(
    table: map<InteractionKey, Moment>, txs: map<Hash, TxRow>, blocks: map<nat, BlockRow>, e: Evidence)
    : map<InteractionKey, Moment>
  {
    if e.key.tx in txs && txs[e.key.tx].block in blocks then
      var tx := txs[e.key.tx];
      var key := InteractionKey(e.key.tx, e.payer, tx.detail.to, Selector(tx.detail.input));
      if key in table then table else table[key := Moment(e.block, blocks[tx.block].time)]
    else table
  }

  function Interact(
    table: map<InteractionKey, Moment>, txs: map<Hash, TxRow>, blocks: map<nat, BlockRow>, es: seq<Evidence>)
    : map<InteractionKey, Moment>
  {
    if es == [] then table else InteractOne(Interact(table, txs, blocks, es[..|es| - 1]), txs, blocks, es[|es| - 1])
  }

  method InsertInteractions(s: Store, es: seq<Evidence>)
    modifies s`interactions
    ensures s.interactions == Interact(old(s.interactions), s.txs, s.blocks, es)
  {
    for i := 0 to |es|
      invariant s.interactions == Interact(old(s.interactions), s.txs, s.blocks, es[..i])
    {
      assert es[..i + 1][..i] == es[..i];
      var e := es[i];
      if e.key.tx !in s.txs || s.txs[e.key.tx].block !in s.blocks {
        continue;
      }
      var tx := s.txs[e.key.tx];
      var key := InteractionKey(e.key.tx, e.payer, tx.detail.to, Selector(tx.detail.input));
      if key !in s.interactions {
        s.interactions := s.interactions[key := Moment(e.block, s.blocks[tx.block].time)];
      }
    }
    assert es[..|es|] == es;
  }

  // -------------------------------------------------------- whole derive

  function Derive(db: Db, contracts: set<Address>, es: seq<Evidence>): Db {
    db.(agents := See(db.agents, contracts, es),
        services := db.services + Payees(es),
        payments := Pay(db.payments, db.evidence, db.blocks, es),
        interactions := Interact(db.interactions, db.txs, db.blocks, es))
  }

  lemma DeriveFrame(db: Db, contracts: set<Address>, es: seq<Evidence>)
    ensures var after := Derive(db, contracts, es);
            after == db.(agents := after.agents, services := after.services, payments := after.payments,
                         interactions := after.interactions)
  {
    hide See, Pay, Interact;
  }

  method DeriveDomain(s: Store, contracts: set<Address>, es: seq<Evidence>)
    modifies s`agents, s`services, s`payments, s`interactions
    ensures s.Db() == Derive(old(s.Db()), contracts, es)
  {
    if es == [] {
      return;
    }
    UpsertAgents(s, contracts, es);
    UpsertServices(s, es);
    InsertPayments(s, es);
    InsertInteractions(s, es);
  }
}
