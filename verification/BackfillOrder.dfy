/** The loop of a backfill job over any list of blocks of one chain. It skips a block that is live
    and not above the worker's cursor, so a block can be lost when a greater one comes first: when
    the order and the repeats of the list matter, and when they do not. */
module BackfillOrder {
  import opened Types
  import opened Candidates
  import opened Checkpoints
  import opened Domain
  import opened Aggregates
  import opened Orchestrator
  import opened BackfillWorkers
  import opened BlockEffects
  import opened Confluence

  /** Blocks handled one after another, as the loop of a job handles them. */
  ghost function LoopAll(db: Db, cfg: Config, chain: View, w: Worker, ns: seq<nat>): Result<Db> {
    if ns == [] then Ok(db)
    else match LoopAll(db, cfg, chain, w, ns[..|ns| - 1])
      case Ok(d) => JobStep(d, cfg, chain, w, ns[|ns| - 1])
      case Thrown(e) => Thrown(e)
  }

  function Reach(db: Db, w: Worker): nat { if w in db.checkpoints then db.checkpoints[w].block else 0 }

  /** Live, but above the worker's cursor: the loop still takes the block, unless a greater one
      comes first. */
  ghost predicate Waiting(db: Db, w: Worker, n: nat) {
    Live(db.blocks, n) && !AlreadyProcessed(db, w, n)
  }

  /** The blocks of a list that the loop does not skip. */
  ghost function Picked(db: Db, w: Worker, ns: seq<nat>): set<nat> {
    if ns == [] then {}
    else
      var earlier, n := ns[..|ns| - 1], ns[|ns| - 1];
      var before := Picked(db, w, earlier);
      if AlreadyProcessed(db, w, n) || (Live(db.blocks, n) && Overtaken(earlier, n)) then before else before + {n}
  }

  ghost predicate Overtaken(ns: seq<nat>, n: nat) {
    exists m :: m in ns && m > n
  }

  lemma {:induction false} PickedIf(db: Db, w: Worker, ns: seq<nat>, n: nat)
    requires n in ns && !AlreadyProcessed(db, w, n) && !(Live(db.blocks, n) && Overtaken(ns, n))
    ensures n in Picked(db, w, ns)
  {
    var earlier, last := ns[..|ns| - 1], ns[|ns| - 1];
    assert ns == earlier + [last];
    if Overtaken(earlier, n) {
      var m :| m in earlier && m > n;
      assert m in ns;
    }
    if n != last {
      PickedIf(db, w, earlier, n);
    }
  }

  lemma {:induction false} PickedAreListed(db: Db, w: Worker, ns: seq<nat>)
    ensures Picked(db, w, ns) <= Numbers(ns)
    ensures forall n :: n in Picked(db, w, ns) ==> !AlreadyProcessed(db, w, n)
  {
    if ns != [] {
      var earlier := ns[..|ns| - 1];
      assert ns == earlier + [ns[|ns| - 1]];
      PickedAreListed(db, w, earlier);
    }
  }

  // ------------------------------------------------- rows and the cursor

  ghost predicate PassedRows(db: Db, after: Db, w: Worker, ns: seq<nat>) {
    forall n: nat :: Live(after.blocks, n) <==> Live(db.blocks, n) || n in Picked(db, w, ns)
  }

  ghost predicate PassedCursor(db: Db, after: Db, chain: View, w: Worker, ns: seq<nat>, moved: bool) {
    var at := Reach(after, w);
    && OnChain(after, chain, w)
    && at >= Reach(db, w) && (forall n :: n in ns ==> n <= at) && (at == Reach(db, w) || at in ns)
    && (!moved ==> after.checkpoints == db.checkpoints)
    && (moved ==> at in chain && after.checkpoints == db.checkpoints[w := Checkpoint(at, chain[at].hash, Running)])
  }

  /** What a run of the loop over `ns` leaves of rows and cursors. */
  ghost predicate Passed(db: Db, after: Db, chain: View, w: Worker, ns: seq<nat>) {
    PassedRows(db, after, w, ns) && PassedCursor(db, after, chain, w, ns, Picked(db, w, ns) != {})
  }

  /** The loop takes a block exactly when it is one more to be picked, or skips it. */
  lemma SkipsOrPicks(db: Db, before: Db, chain: View, w: Worker, earlier: seq<nat>, n: nat)
    requires Passed(db, before, chain, w, earlier) && n != 0
    ensures var picked := Picked(db, w, earlier);
            AlreadyProcessed(before, w, n)
            <==> AlreadyProcessed(db, w, n) || (Live(db.blocks, n) && Overtaken(earlier, n)) || n in picked
  {
    PickedAreListed(db, w, earlier);
    var picked, at := Picked(db, w, earlier), Reach(before, w);
    assert AlreadyProcessed(before, w, n) <==> Live(before.blocks, n) && at >= n;
    if n in picked {
      assert n in earlier;
    } else if Live(db.blocks, n) && !AlreadyProcessed(db, w, n) {
      assert Reach(db, w) < n;
      if Overtaken(earlier, n) {
        var m :| m in earlier && m > n;
      } else if n in earlier {
        PickedIf(db, w, earlier, n);
      }
    }
  }

  lemma PickedNext(db: Db, w: Worker, earlier: seq<nat>, n: nat)
    ensures Picked(db, w, earlier + [n])
         == if AlreadyProcessed(db, w, n) || (Live(db.blocks, n) && Overtaken(earlier, n)) then Picked(db, w, earlier)
            else Picked(db, w, earlier) + {n}
  {
    var ns := earlier + [n];
    assert ns[..|ns| - 1] == earlier;
  }

  lemma CursorPasses(db: Db, before: Db, after: Db, chain: View, w: Worker, earlier: seq<nat>, moved: bool, n: nat)
    requires PassedCursor(db, before, chain, w, earlier, moved) && OnChain(db, chain, w)
    requires n != 0 && n in chain && after.checkpoints == Advance(before.checkpoints, w, chain[n])
    ensures PassedCursor(db, after, chain, w, earlier + [n], true)
  {
    assert forall m :: m in earlier + [n] <==> m in earlier || m == n;
  }

  lemma RowsPass(db: Db, before: Db, after: Db, w: Worker, earlier: seq<nat>, b: Block)
    requires PassedRows(db, before, w, earlier) && after.blocks == StoreBlock(before.blocks, b)
    requires Picked(db, w, earlier + [b.number]) == Picked(db, w, earlier) + {b.number}
    ensures PassedRows(db, after, w, earlier + [b.number])
  {
    hide Picked;
    assert forall m: nat :: Live(after.blocks, m) <==> Live(before.blocks, m) || m == b.number;
  }

  lemma PassesPicked(db: Db, before: Db, cfg: Config, chain: View, w: Worker, earlier: seq<nat>, n: nat)
    requires Passed(db, before, chain, w, earlier) && Canonical(chain) && OnChain(db, chain, w)
    requires n != 0 && n in chain && !AlreadyProcessed(before, w, n)
    ensures JobStep(before, cfg, chain, w, n) == Ok(Accept(before, cfg, chain[n], w))
    ensures Picked(db, w, earlier + [n]) == Picked(db, w, earlier) + {n} && n !in Picked(db, w, earlier)
    ensures Passed(db, Accept(before, cfg, chain[n], w), chain, w, earlier + [n])
  {
    assert OnChain(before, chain, w);
    hide Process, Canonical, Accept, Picked, Overtaken, PassedRows, PassedCursor, OnChain, AlreadyProcessed, Advance;
    hide StoreBlock;
    var after := Accept(before, cfg, chain[n], w);
    SkipsOrPicks(db, before, chain, w, earlier, n);
    PickedNext(db, w, earlier, n);
    BackfillStep(before, cfg, chain, w, n);
    AcceptedRows(before, cfg, chain[n], w);
    CursorPasses(db, before, after, chain, w, earlier, Picked(db, w, earlier) != {}, n);
    RowsPass(db, before, after, w, earlier, chain[n]);
  }

  lemma AcceptedRows(db: Db, cfg: Config, b: Block, w: Worker)
    ensures Accept(db, cfg, b, w).blocks == StoreBlock(db.blocks, b)
  {
    IndexFrame(db, cfg, b);
    hide Index, StoreBlock;
  }

  lemma PassesSkipped(db: Db, before: Db, cfg: Config, chain: View, w: Worker, earlier: seq<nat>, n: nat)
    requires Passed(db, before, chain, w, earlier) && n != 0 && AlreadyProcessed(before, w, n)
    ensures JobStep(before, cfg, chain, w, n) == Ok(before)
    ensures Picked(db, w, earlier + [n]) == Picked(db, w, earlier)
    ensures Passed(db, before, chain, w, earlier + [n])
  {
    hide Process;
    var ns := earlier + [n];
    assert ns[..|ns| - 1] == earlier;
    SkipsOrPicks(db, before, chain, w, earlier, n);
    assert forall m :: m in ns <==> m in earlier || m == n;
  }

  /** Whatever the tables hold, the loop completes, exactly the picked blocks become live, and the
      cursor ends at the greatest number listed with its canonical hash unless it was higher. */
  lemma {:induction false} LoopPasses(db: Db, cfg: Config, chain: View, w: Worker, ns: seq<nat>)
    requires Canonical(chain) && OnChain(db, chain, w) && Listed(chain, ns)
    ensures var r := LoopAll(db, cfg, chain, w, ns); r.Ok? && Passed(db, r.value, chain, w, ns)
  {
    hide JobStep, Canonical, Passed, AlreadyProcessed, OnChain;
    if ns == [] {
      NothingPassed(db, chain, w);
    } else {
      var earlier, n := ns[..|ns| - 1], ns[|ns| - 1];
      assert ns == earlier + [n];
      LoopPasses(db, cfg, chain, w, earlier);
      var before := LoopAll(db, cfg, chain, w, earlier).value;
      if AlreadyProcessed(before, w, n) {
        PassesSkipped(db, before, cfg, chain, w, earlier, n);
      } else {
        PassesPicked(db, before, cfg, chain, w, earlier, n);
      }
    }
  }

  lemma NothingPassed(db: Db, chain: View, w: Worker)
    requires OnChain(db, chain, w)
    ensures Passed(db, db, chain, w, [])
  {
  }

  // ------------------------------------------------------------ the tables

  /** The loop may take block `n` after block `h`. */
  ghost predicate MayFollow(db: Db, w: Worker, n: nat, h: nat) {
    && !AlreadyProcessed(db, w, n) && !AlreadyProcessed(db, w, h)
    && (Live(db.blocks, n) ==> h < n)
  }

  /** The start is settled between blocks that the loop may take one after the other. */
  ghost predicate SettledWhereMet(db: Db, cfg: Config, chain: View, w: Worker) {
    forall n, h :: n in chain && h in chain && n != 0 && h != 0 && MayFollow(db, w, n, h) ==>
      SettledBetween(CoreOf(db), cfg, chain, n, h)
  }

  /** A picked block is settled with those picked before it. */
  lemma PickedAreSettled(db: Db, cfg: Config, chain: View, w: Worker, earlier: seq<nat>, n: nat)
    requires Listed(chain, earlier) && n != 0 && n in chain && SettledWhereMet(db, cfg, chain, w)
    requires !AlreadyProcessed(db, w, n) && !(Live(db.blocks, n) && Overtaken(earlier, n))
            && n !in Picked(db, w, earlier)
    ensures Picked(db, w, earlier) <= chain.Keys
    ensures forall h :: h in Picked(db, w, earlier) ==> SettledBetween(CoreOf(db), cfg, chain, n, h)
  {
    hide AlreadyProcessed, SettledBetween;
    PickedAreListed(db, w, earlier);
    forall h | h in Picked(db, w, earlier) ensures MayFollow(db, w, n, h) && h in chain && h != 0 {
      assert h in earlier && h != n;
      assert Live(db.blocks, n) ==> !(h > n);
    }
  }

  /** The tables after the loop are the start and the picked blocks. */
  lemma {:induction false} LoopApplies(db: Db, cfg: Config, chain: View, w: Worker, ns: seq<nat>)
    requires Canonical(chain) && OnChain(db, chain, w) && Listed(chain, ns)
    requires HeightsStored(CoreOf(db)) && SettledWhereMet(db, cfg, chain, w)
    ensures Picked(db, w, ns) <= chain.Keys
    ensures var r := LoopAll(db, cfg, chain, w, ns);
            r.Ok? && CoreOf(r.value) == ApplySet(CoreOf(db), cfg, chain, Picked(db, w, ns))
  {
    hide JobStep, Canonical, OnChain, HeightsStored, SettledWhereMet, AlreadyProcessed, Passed;
    if ns == [] {
      assert ApplySet(CoreOf(db), cfg, chain, {}) == CoreOf(db);
    } else {
      var earlier, n := ns[..|ns| - 1], ns[|ns| - 1];
      assert ns == earlier + [n];
      LoopApplies(db, cfg, chain, w, earlier);
      LoopPasses(db, cfg, chain, w, earlier);
      var before := LoopAll(db, cfg, chain, w, earlier).value;
      hide ApplySet, Picked;
      if AlreadyProcessed(before, w, n) {
        PassesSkipped(db, before, cfg, chain, w, earlier, n);
      } else {
        PassesPicked(db, before, cfg, chain, w, earlier, n);
        SkipsOrPicks(db, before, chain, w, earlier, n);
        PickedAreSettled(db, cfg, chain, w, earlier, n);
        AcceptJoinsSet(before, CoreOf(db), cfg, chain, w, Picked(db, w, earlier), n);
      }
    }
  }

  // ------------------------------------------------- blocks with nothing new

  /** The store has the rows of a contribution already. */
  ghost predicate RowsPresent(c: Core, d: Delta, prices: map<Bucket, real>) {
    && d.number in c.blocks && c.blocks[d.number] == d.row
    && (forall h :: h in d.txs ==> h in c.txs && c.txs[h] == d.txs[h])
    && (forall k :: k in d.evidence ==> k in c.evidence && c.evidence[k] == d.evidence[k])
    && (forall k :: k in d.payments ==>
          k in c.payments && c.payments[k] == ConvertOne(d.payments[k].(usd := c.payments[k].usd), prices))
    && (forall k :: k in d.interactions ==> k in c.interactions)
  }

  /** The store, with what the later block `e` adds, knows the people of a contribution: its agents
      early enough and, unless `e` sees them again, late enough. */
  ghost predicate PeoplePresent(c: Core, d: Delta, e: Delta) {
    && d.services <= c.services + e.services
    && (forall x :: x in d.agents ==>
          x in c.agents && c.agents[x].firstSeen <= d.number && (x in e.agents || d.number <= c.agents[x].lastSeen))
  }

  /** All agents of a contribution are seen at its height. */
  ghost predicate SeenAt(d: Delta) {
    forall x :: x in d.agents ==> d.agents[x].firstSeen == d.agents[x].lastSeen == d.number
  }

  lemma AbsorbedRows<K, V>(t: map<K, V>, a: map<K, V>, b: map<K, V>)
    requires a.Keys !! b.Keys
    ensures t + a + b == t + b <==> forall k :: k in a ==> k in t && t[k] == a[k]
  {
    if t + a + b == t + b {
      forall k | k in a ensures k in t && t[k] == a[k] {
        assert (t + a + b)[k] == a[k] && k in t + b;
      }
    }
  }

  lemma AbsorbedKept<K, V>(t: map<K, V>, a: map<K, V>, b: map<K, V>)
    requires a.Keys !! b.Keys
    ensures b + (a + t) == b + t <==> forall k :: k in a ==> k in t
  {
    if b + (a + t) == b + t {
      forall k | k in a ensures k in t {
        assert k in b + (a + t);
      }
    }
    if forall k :: k in a ==> k in t {
      assert a + t == t;
    }
  }

  lemma AbsorbedPayments(p: map<Key, Payment>, a: map<Key, Payment>, b: map<Key, Payment>, prices: map<Bucket, real>)
    requires a.Keys !! b.Keys
    ensures WithPayments(WithPayments(p, a, prices), b, prices) == WithPayments(p, b, prices)
            <==> forall k :: k in a ==> k in p && p[k] == ConvertOne(a[k].(usd := p[k].usd), prices)
  {
    hide WithPayments;
    var x, y := WithPayments(WithPayments(p, a, prices), b, prices), WithPayments(p, b, prices);
    forall k
      ensures k in x <==> k in p || k in a || k in b
      ensures k in y <==> k in p || k in b
      ensures k in a ==> x[k] == ConvertOne(a[k].(usd := OldUsd(p, k)), prices)
      ensures k in a && k in p ==> y[k] == p[k]
      ensures k !in a && (k in p || k in b) ==> x[k] == y[k]
    {
      WithPaymentsAt(p, a, prices, k);
      WithPaymentsAt(p, b, prices, k);
      WithPaymentsAt(WithPayments(p, a, prices), b, prices, k);
    }
    if x == y {
      forall k | k in a ensures k in p && p[k] == ConvertOne(a[k].(usd := p[k].usd), prices) {
        assert k in x && k in y && x[k] == y[k];
      }
    }
    if forall k :: k in a ==> k in p && p[k] == ConvertOne(a[k].(usd := p[k].usd), prices) {
      assert x == y;
    }
  }

  lemma AbsorbedAgents(agents: map<Address, Agent>, a: map<Address, Agent>, b: map<Address, Agent>, n: nat, m: nat)
    requires n < m
    requires forall x :: x in a ==> a[x].firstSeen == a[x].lastSeen == n
    requires forall x :: x in b ==> b[x].firstSeen == b[x].lastSeen == m
    ensures Merge(Merge(agents, a), b) == Merge(agents, b)
            <==> forall x :: x in a ==>
                   x in agents && agents[x].firstSeen <= n && (x in b || n <= agents[x].lastSeen)
  {
    var p, q := Merge(Merge(agents, a), b), Merge(agents, b);
    forall x | x in a
      ensures (x in q && p[x] == q[x])
              <==> (x in agents && agents[x].firstSeen <= n && (x in b || n <= agents[x].lastSeen))
    {
    }
    if p == q {
      forall x | x in a ensures x in q && p[x] == q[x] {
        assert x in p;
      }
    }
  }

  lemma AbsorbedBlock(blocks: map<nat, BlockRow>, n: nat, row: BlockRow, m: nat, other: BlockRow)
    requires n != m
    ensures blocks[n := row][m := other] == blocks[m := other] <==> n in blocks && blocks[n] == row
  {
    if blocks[n := row][m := other] == blocks[m := other] {
      assert n in blocks[m := other] && blocks[n := row][m := other][n] == row;
    }
  }

  /** Contributing `d` before the later `e` changes nothing exactly when the store has its rows and
      knows its people. */
  lemma AbsorbedIff(c: Core, d: Delta, e: Delta, prices: map<Bucket, real>)
    requires Independent(d, e) && d.number < e.number && SeenAt(d) && SeenAt(e)
    ensures Apply(Apply(c, d, prices), e, prices) == Apply(c, e, prices)
            <==> RowsPresent(c, d, prices) && PeoplePresent(c, d, e)
  {
    hide *;
    var x, y := Apply(Apply(c, d, prices), e, prices), Apply(c, e, prices);
    SameCore(x, y);
    RowsAbsorbed(c, d, e, prices);
    PeopleAbsorbed(c, d, e, prices);
  }

  lemma RowsAbsorbed(c: Core, d: Delta, e: Delta, prices: map<Bucket, real>)
    requires Independent(d, e)
    ensures var x, y := Apply(Apply(c, d, prices), e, prices), Apply(c, e, prices);
            (&& x.blocks == y.blocks && x.txs == y.txs && x.evidence == y.evidence && x.payments == y.payments
             && x.interactions == y.interactions)
            <==> RowsPresent(c, d, prices)
  {
    hide Apply, WithPayments, Merge, ConvertOne;
    AppliedTwice(c, d, e, prices);
    AbsorbedBlock(c.blocks, d.number, d.row, e.number, e.row);
    AbsorbedRows(c.txs, d.txs, e.txs);
    AbsorbedRows(c.evidence, d.evidence, e.evidence);
    AbsorbedPayments(c.payments, d.payments, e.payments, prices);
    AbsorbedKept(c.interactions, d.interactions, e.interactions);
  }

  lemma PeopleAbsorbed(c: Core, d: Delta, e: Delta, prices: map<Bucket, real>)
    requires d.number < e.number && SeenAt(d) && SeenAt(e)
    ensures var x, y := Apply(Apply(c, d, prices), e, prices), Apply(c, e, prices);
            (x.agents == y.agents && x.services == y.services) <==> PeoplePresent(c, d, e)
  {
    hide Apply, WithPayments, Merge;
    AppliedTwice(c, d, e, prices);
    AbsorbedAgents(c.agents, d.agents, e.agents, d.number, e.number);
  }

  lemma SameCore(x: Core, y: Core)
    ensures x == y <==>
              && x.blocks == y.blocks && x.txs == y.txs && x.evidence == y.evidence && x.payments == y.payments
              && x.agents == y.agents && x.services == y.services && x.interactions == y.interactions
  {
  }

  lemma AppliedTwice(c: Core, d: Delta, e: Delta, prices: map<Bucket, real>)
    ensures var x, y := Apply(Apply(c, d, prices), e, prices), Apply(c, e, prices);
            && x.blocks == c.blocks[d.number := d.row][e.number := e.row] && y.blocks == c.blocks[e.number := e.row]
            && x.txs == c.txs + d.txs + e.txs && y.txs == c.txs + e.txs
            && x.evidence == c.evidence + d.evidence + e.evidence && y.evidence == c.evidence + e.evidence
            && x.payments == WithPayments(WithPayments(c.payments, d.payments, prices), e.payments, prices)
            && y.payments == WithPayments(c.payments, e.payments, prices)
            && x.agents == Merge(Merge(c.agents, d.agents), e.agents) && y.agents == Merge(c.agents, e.agents)
            && (x.services == y.services <==> d.services <= c.services + e.services)
            && x.interactions == e.interactions + (d.interactions + c.interactions)
            && y.interactions == e.interactions + c.interactions
  {
    hide WithPayments, Merge;
  }

  lemma {:induction false} SeenAtBlock(contracts: set<Address>, es: seq<Evidence>, n: nat)
    requires AtBlock(es, n)
    ensures forall a :: a in See(map[], contracts, es) ==>
              See(map[], contracts, es)[a].firstSeen == See(map[], contracts, es)[a].lastSeen == n
  {
    if es != [] {
      SeenAtBlock(contracts, es[..|es| - 1], n);
    }
  }

  lemma ContributionSeenAt(c: Core, cfg: Config, chain: View, n: nat)
    requires n in chain
    ensures Contribution(c, cfg, chain, n).number == n && SeenAt(Contribution(c, cfg, chain, n))
  {
    BlockRowsFit(cfg, chain[n]);
    SeenAtBlock(cfg.contracts, PromotedOf(cfg, chain[n]), n);
    hide EvidenceAdded, PaymentsAdded, InteractionsAdded, TxRows, See, BlockCandidates, BlockEvidence, Promoted;
  }

  /** Block `n` has nothing to add that the later block `m` would not bring. */
  ghost predicate NothingNew(c: Core, cfg: Config, chain: View, n: nat, m: nat)
    requires n in chain && m in chain
  {
    && RowsPresent(c, Contribution(c, cfg, chain, n), cfg.prices)
    && PeoplePresent(c, Contribution(c, cfg, chain, n), Contribution(c, cfg, chain, m))
  }

  lemma NothingNewIff(c: Core, cfg: Config, chain: View, n: nat, m: nat)
    requires Canonical(chain) && n in chain && m in chain && n < m
    ensures NothingNew(c, cfg, chain, n, m)
            <==> Apply(Apply(c, Contribution(c, cfg, chain, n), cfg.prices), Contribution(c, cfg, chain, m), cfg.prices)
                 == Apply(c, Contribution(c, cfg, chain, m), cfg.prices)
  {
    hide Contribution, Canonical, Apply, RowsPresent, PeoplePresent, SeenAt;
    ContributionsIndependent(c, cfg, chain, n, m);
    ContributionSeenAt(c, cfg, chain, n);
    ContributionSeenAt(c, cfg, chain, m);
    AbsorbedIff(c, Contribution(c, cfg, chain, n), Contribution(c, cfg, chain, m), cfg.prices);
  }

  // ------------------------------------------- overtaken blocks are absorbed

  /** A block absorbed by a later one on the start is absorbed by it after any others. */
  lemma {:induction false} AbsorbedLater(c: Core, cfg: Config, chain: View, s: set<nat>, n: nat, m: nat)
    requires Canonical(chain) && s <= chain.Keys && n in chain && m in chain && n !in s && m !in s && n < m
    requires NothingNew(c, cfg, chain, n, m)
    ensures var x, d, e := ApplySet(c, cfg, chain, s), Contribution(c, cfg, chain, n), Contribution(c, cfg, chain, m);
            Apply(Apply(x, d, cfg.prices), e, cfg.prices) == Apply(x, e, cfg.prices)
    decreases |s|
  {
    hide Apply, Contribution, Canonical, NothingNew;
    var d, e := Contribution(c, cfg, chain, n), Contribution(c, cfg, chain, m);
    if s == {} {
      NothingNewIff(c, cfg, chain, n, m);
    } else {
      var r :| r in s;
      var y, f := ApplySet(c, cfg, chain, s - {r}), Contribution(c, cfg, chain, r);
      ApplySetLast(c, cfg, chain, s, r);
      AbsorbedLater(c, cfg, chain, s - {r}, n, m);
      hide ApplySet;
      ContributionsIndependent(c, cfg, chain, r, n);
      ContributionsIndependent(c, cfg, chain, r, m);
      ApplyCommutes(y, f, d, cfg.prices);
      ApplyCommutes(Apply(y, d, cfg.prices), f, e, cfg.prices);
      ApplyCommutes(y, f, e, cfg.prices);
    }
  }

  lemma AbsorbedBySet(c: Core, cfg: Config, chain: View, s: set<nat>, n: nat, m: nat)
    requires Canonical(chain) && s <= chain.Keys && n in chain && n !in s && m in s && n < m
    requires NothingNew(c, cfg, chain, n, m)
    ensures ApplySet(c, cfg, chain, s + {n}) == ApplySet(c, cfg, chain, s)
  {
    hide Apply, ApplySet, Contribution, Canonical, NothingNew;
    assert s + {n} - {m} - {n} == s - {m};
    ApplySetLast(c, cfg, chain, s + {n}, m);
    ApplySetLast(c, cfg, chain, s + {n} - {m}, n);
    ApplySetLast(c, cfg, chain, s, m);
    AbsorbedLater(c, cfg, chain, s - {m}, n, m);
  }

  /** Every waiting block has nothing to add that each greater block of the chain would not bring. */
  ghost predicate NothingLost(db: Db, cfg: Config, chain: View, w: Worker) {
    forall n, m :: n in chain && m in chain && n != 0 && n < m && Waiting(db, w, n) ==>
      NothingNew(CoreOf(db), cfg, chain, n, m)
  }

  /** The listed blocks that the loop does not skip from the start. */
  function Open(db: Db, w: Worker, s: set<nat>): set<nat> {
    set n | n in s && !AlreadyProcessed(db, w, n)
  }

  /** Adding waiting blocks below `top` to a set that has `top` changes nothing. */
  lemma {:induction false} AbsorbAll(db: Db, cfg: Config, chain: View, w: Worker, s: set<nat>, extra: set<nat>,
                                     top: nat)
    requires Canonical(chain) && NothingLost(db, cfg, chain, w)
    requires s <= chain.Keys && extra <= chain.Keys && s !! extra && top in s
    requires forall n :: n in extra ==> n != 0 && n < top && Waiting(db, w, n)
    ensures ApplySet(CoreOf(db), cfg, chain, s + extra) == ApplySet(CoreOf(db), cfg, chain, s)
    decreases |extra|
  {
    hide ApplySet, Canonical, NothingNew, Waiting;
    if extra == {} {
      assert s + extra == s;
    } else {
      var n :| n in extra;
      AbsorbAll(db, cfg, chain, w, s, extra - {n}, top);
      AbsorbedBySet(CoreOf(db), cfg, chain, s + (extra - {n}), n, top);
      assert s + (extra - {n}) + {n} == s + extra;
    }
  }

  /** The greatest open block of a list is never skipped. */
  lemma TopIsPicked(db: Db, w: Worker, ns: seq<nat>, top: nat)
    requires top in Open(db, w, Numbers(ns)) && forall n :: n in Open(db, w, Numbers(ns)) ==> n <= top
    ensures top in Picked(db, w, ns)
  {
    if Live(db.blocks, top) {
      forall m | m in ns ensures m <= top {
        assert AlreadyProcessed(db, w, m) || m in Open(db, w, Numbers(ns));
      }
    }
    PickedIf(db, w, ns, top);
  }

  lemma {:induction false} GreatestOf(s: set<nat>) returns (top: nat)
    requires s != {}
    ensures top in s && forall n :: n in s ==> n <= top
  {
    var first :| first in s;
    top := first;
    if s != {first} {
      assert s - {first} != {};
      var rest := GreatestOf(s - {first});
      top := if rest > first then rest else first;
      assert forall n :: n in s ==> n == first || n in s - {first};
    }
  }

  /** What the loop leaves depends on the set of blocks listed alone. */
  lemma PickedOrOpen(db: Db, cfg: Config, chain: View, w: Worker, ns: seq<nat>)
    requires Canonical(chain) && Listed(chain, ns) && NothingLost(db, cfg, chain, w)
    ensures Picked(db, w, ns) <= chain.Keys && Open(db, w, Numbers(ns)) <= chain.Keys
    ensures ApplySet(CoreOf(db), cfg, chain, Picked(db, w, ns))
            == ApplySet(CoreOf(db), cfg, chain, Open(db, w, Numbers(ns)))
    ensures Picked(db, w, ns) == {} <==> Open(db, w, Numbers(ns)) == {}
  {
    hide ApplySet, Canonical, NothingLost, AlreadyProcessed;
    PickedAreListed(db, w, ns);
    var picked, open := Picked(db, w, ns), Open(db, w, Numbers(ns));
    assert picked <= open;
    if open != {} {
      var top := GreatestOf(open);
      TopIsPicked(db, w, ns, top);
      forall n | n in open - picked ensures n != 0 && n < top && Waiting(db, w, n) {
        if !Live(db.blocks, n) {
          PickedIf(db, w, ns, n);
        }
      }
      AbsorbAll(db, cfg, chain, w, picked, open - picked, top);
      assert picked + (open - picked) == open;
    }
  }

  /** Two ways through the same blocks leave the cursor at the same place. */
  lemma SameCursor(db: Db, x: Db, y: Db, chain: View, w: Worker, ns: seq<nat>, ms: seq<nat>)
    requires Passed(db, x, chain, w, ns) && Passed(db, y, chain, w, ms) && Numbers(ns) == Numbers(ms)
    requires Picked(db, w, ns) == {} <==> Picked(db, w, ms) == {}
    ensures x.checkpoints == y.checkpoints
  {
    assert forall n :: n in ns <==> n in Numbers(ns);
    assert forall n :: n in ms <==> n in Numbers(ms);
    assert Reach(x, w) == Reach(y, w);
  }

  /** Where the loop can lose nothing, two lists of blocks with the same members, in whatever order
      and however often each is repeated, end alike. */
  lemma LoopConfluent(db: Db, cfg: Config, chain: View, w: Worker, ns: seq<nat>, ms: seq<nat>)
    requires Canonical(chain) && OnChain(db, chain, w) && HeightsStored(CoreOf(db))
    requires SettledWhereMet(db, cfg, chain, w) && NothingLost(db, cfg, chain, w)
    requires Listed(chain, ns) && Listed(chain, ms) && Numbers(ns) == Numbers(ms)
    ensures SameEnd(LoopAll(db, cfg, chain, w, ns), LoopAll(db, cfg, chain, w, ms))
  {
    hide Canonical, OnChain, HeightsStored, SettledWhereMet, NothingLost, LoopAll, Passed, ApplySet, Picked, Listed;
    LoopPasses(db, cfg, chain, w, ns);
    LoopPasses(db, cfg, chain, w, ms);
    LoopApplies(db, cfg, chain, w, ns);
    LoopApplies(db, cfg, chain, w, ms);
    PickedOrOpen(db, cfg, chain, w, ns);
    PickedOrOpen(db, cfg, chain, w, ms);
    SameCursor(db, LoopAll(db, cfg, chain, w, ns).value, LoopAll(db, cfg, chain, w, ms).value, chain, w, ns, ms);
  }

  // ------------------------------------------------- exactly when it holds

  ghost predicate LoopOrderIrrelevant(db: Db, cfg: Config, chain: View, w: Worker) {
    forall ns, ms :: Listed(chain, ns) && Listed(chain, ms) && Numbers(ns) == Numbers(ms) ==>
      SameEnd(LoopAll(db, cfg, chain, w, ns), LoopAll(db, cfg, chain, w, ms))
  }

  /** Two open blocks in a row: the second is skipped exactly when it is live and smaller. */
  lemma LoopTwo(db: Db, cfg: Config, chain: View, w: Worker, m: nat, n: nat)
    requires Canonical(chain) && OnChain(db, chain, w) && HeightsStored(CoreOf(db))
    requires m in chain && n in chain && m != 0 && n != 0 && m != n
    requires !AlreadyProcessed(db, w, m) && !AlreadyProcessed(db, w, n)
    ensures var r := LoopAll(db, cfg, chain, w, [m, n]);
            var once := After(CoreOf(db), cfg, chain, m);
            r.Ok? && CoreOf(r.value) == if Live(db.blocks, n) && n < m then once else After(once, cfg, chain, n)
  {
    hide Process, Apply, Contribution, Canonical, HeightsStored, Accept;
    assert [m, n][..1] == [m] && [m][..0] == [];
    assert LoopAll(db, cfg, chain, w, []) == Ok(db);
    BackfillStep(db, cfg, chain, w, m);
    var once := Accept(db, cfg, chain[m], w);
    assert LoopAll(db, cfg, chain, w, [m]) == Ok(once);
    AcceptedRows(db, cfg, chain[m], w);
    AcceptContributes(db, cfg, chain, w, m);
    assert AlreadyProcessed(once, w, n) <==> Live(db.blocks, n) && n < m;
    if !AlreadyProcessed(once, w, n) {
      BackfillStep(once, cfg, chain, w, n);
      KeepsHeightsStored(CoreOf(db), cfg, chain, m);
      AcceptContributes(once, cfg, chain, w, n);
    }
  }

  /** The two lists of a pair. */
  lemma PairEndsAlike(db: Db, cfg: Config, chain: View, w: Worker, m: nat, n: nat)
    requires LoopOrderIrrelevant(db, cfg, chain, w) && m in chain && n in chain && m != 0 && n != 0
    ensures SameEnd(LoopAll(db, cfg, chain, w, [m, n]), LoopAll(db, cfg, chain, w, [n, m]))
  {
    hide LoopAll, SameEnd;
    assert Numbers([m, n]) == Numbers([n, m]);
    assert Listed(chain, [m, n]) && Listed(chain, [n, m]);
  }

  /** A row that a contribution leaves as it is settles it with every other block. */
  lemma SameRowSettles(c: Core, cfg: Config, chain: View, n: nat, m: nat)
    requires n in chain && m in chain && n in c.blocks && c.blocks[n] == HeaderRow(chain[n])
    ensures SettledBetween(c, cfg, chain, m, n)
  {
    hide DeltaOf;
  }

  lemma OneOfSet(c: Core, cfg: Config, chain: View, n: nat)
    requires n in chain
    ensures ApplySet(c, cfg, chain, {n}) == After(c, cfg, chain, n)
  {
    hide Apply, Contribution;
    assert {n} - {n} == {};
  }

  lemma AfterRow(c: Core, cfg: Config, chain: View, n: nat, h: nat)
    requires n in chain
    ensures var after := After(c, cfg, chain, n);
            && (h in after.blocks <==> h in c.blocks || h == n)
            && (h in after.blocks ==> after.blocks[h] == if h == n then HeaderRow(chain[n]) else c.blocks[h])
  {
    DeltaRow(cfg, chain[n]);
    hide DeltaOf, WithPayments, Merge, PlacedEvidence, PlacedPayments;
  }

  /** If no order matters, a waiting block adds nothing that a greater one would not bring. */
  lemma WaitingAddsNothing(db: Db, cfg: Config, chain: View, w: Worker, n: nat, m: nat)
    requires Canonical(chain) && OnChain(db, chain, w) && HeightsStored(CoreOf(db))
    requires LoopOrderIrrelevant(db, cfg, chain, w)
    requires n in chain && m in chain && n != 0 && n < m && Waiting(db, w, n)
    ensures NothingNew(CoreOf(db), cfg, chain, n, m) && SettledBetween(CoreOf(db), cfg, chain, m, n)
  {
    var c := CoreOf(db);
    hide LoopAll, LoopOrderIrrelevant, Canonical, OnChain, HeightsStored, NothingNew, SettledBetween;
    PairEndsAlike(db, cfg, chain, w, n, m);
    LoopTwo(db, cfg, chain, w, n, m);
    LoopTwo(db, cfg, chain, w, m, n);
    hide After;
    AfterRow(c, cfg, chain, m, n);
    AfterRow(c, cfg, chain, n, n);
    AfterRow(After(c, cfg, chain, n), cfg, chain, m, n);
    SameRowSettles(c, cfg, chain, n, m);
    OneOfSet(c, cfg, chain, n);
    LandsAfterSet(c, cfg, chain, {n}, m);
    AbsorbedPair(c, cfg, chain, n, m);
  }

  lemma AbsorbedPair(c: Core, cfg: Config, chain: View, n: nat, m: nat)
    requires Canonical(chain) && n in chain && m in chain && n < m
    requires After(After(c, cfg, chain, n), cfg, chain, m) == After(c, cfg, chain, m)
    requires Contribution(After(c, cfg, chain, n), cfg, chain, m) == Contribution(c, cfg, chain, m)
    ensures NothingNew(c, cfg, chain, n, m)
  {
    hide Apply, Contribution, Canonical, NothingNew;
    NothingNewIff(c, cfg, chain, n, m);
  }

  /** If no order matters, blocks that the loop may take in either order are settled. */
  lemma MetAreSettled(db: Db, cfg: Config, chain: View, w: Worker, n: nat, h: nat)
    requires Canonical(chain) && OnChain(db, chain, w) && HeightsStored(CoreOf(db))
    requires LoopOrderIrrelevant(db, cfg, chain, w)
    requires n in chain && h in chain && n != 0 && h != 0 && MayFollow(db, w, n, h)
    ensures SettledBetween(CoreOf(db), cfg, chain, n, h)
  {
    hide LoopAll, LoopOrderIrrelevant, Canonical, OnChain, HeightsStored, NothingNew, SettledBetween;
    hide AlreadyProcessed, After;
    if Live(db.blocks, h) && h < n {
      WaitingAddsNothing(db, cfg, chain, w, h, n);
    } else if !SettledBetween(CoreOf(db), cfg, chain, n, h) {
      UnsettledCoresDiffer(CoreOf(db), cfg, chain, n, h);
      PairEndsAlike(db, cfg, chain, w, n, h);
      LoopTwo(db, cfg, chain, w, n, h);
      LoopTwo(db, cfg, chain, w, h, n);
    }
  }

  /** The order and the repeats of a backfill are irrelevant if and only if the start is settled
      between blocks that the loop may take one after the other, and every live block above the
      cursor has nothing to add that each greater block of the chain would not bring. */
  lemma LoopOrderIrrelevantIff(db: Db, cfg: Config, chain: View, w: Worker)
    requires Canonical(chain) && OnChain(db, chain, w) && HeightsStored(CoreOf(db))
    ensures LoopOrderIrrelevant(db, cfg, chain, w)
            <==> SettledWhereMet(db, cfg, chain, w) && NothingLost(db, cfg, chain, w)
  {
    hide Canonical, OnChain, HeightsStored, LoopAll, SettledBetween, NothingNew, MayFollow, Waiting, SameEnd;
    if SettledWhereMet(db, cfg, chain, w) && NothingLost(db, cfg, chain, w) {
      forall ns, ms | Listed(chain, ns) && Listed(chain, ms) && Numbers(ns) == Numbers(ms)
        ensures SameEnd(LoopAll(db, cfg, chain, w, ns), LoopAll(db, cfg, chain, w, ms))
      {
        LoopConfluent(db, cfg, chain, w, ns, ms);
      }
    }
    if LoopOrderIrrelevant(db, cfg, chain, w) {
      hide LoopOrderIrrelevant;
      forall n, h | n in chain && h in chain && n != 0 && h != 0 && MayFollow(db, w, n, h)
        ensures SettledBetween(CoreOf(db), cfg, chain, n, h)
      {
        MetAreSettled(db, cfg, chain, w, n, h);
      }
      forall n, m | n in chain && m in chain && n != 0 && n < m && Waiting(db, w, n)
        ensures NothingNew(CoreOf(db), cfg, chain, n, m)
      {
        WaitingAddsNothing(db, cfg, chain, w, n, m);
      }
    }
  }

  /** With no live block above the cursor and all evidence where the chain has it, no order matters. */
  lemma QuietStart(db: Db, cfg: Config, chain: View, w: Worker)
    requires Canonical(chain) && OnChain(db, chain, w) && HeightsStored(CoreOf(db))
    requires forall n :: n in chain ==> KeepsHeight(db.evidence, cfg, chain[n]) && !Waiting(db, w, n)
    ensures LoopOrderIrrelevant(db, cfg, chain, w)
  {
    hide Canonical, OnChain, HeightsStored, SettledBetween, KeepsHeight, Waiting, NothingNew, LoopOrderIrrelevant;
    OwnHeightsAreSettled(CoreOf(db), cfg, chain);
    LoopOrderIrrelevantIff(db, cfg, chain, w);
  }
}
