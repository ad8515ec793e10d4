/** The derived tables against each other, over whole runs: nothing sits on an orphaned block,
    every payment has the rows it refers to, and payments are exactly the evidence that reaches
    the threshold. */
module Integrity {
  import opened Types
  import opened Candidates
  import opened Domain
  import opened ReorgDetection
  import opened Aggregates
  import opened ReorgRecovery
  import opened Orchestrator
  import opened BlockEffects
  import opened Confluence
  import opened RealtimeWorkers
  import opened Runs
  import opened Samples
  import opened SampleRuns
  import opened StepEffects

  // ------------------------------------------------ no row on an orphan

  ghost predicate OnCanonical(db: Db) {
    && (forall k :: k in db.evidence ==> Live(db.blocks, db.evidence[k].block))
    && (forall k :: k in db.payments ==> Live(db.blocks, db.payments[k].block))
    && (forall k :: k in db.interactions ==> Live(db.blocks, db.interactions[k].block))
  }

  lemma {:induction false} PayHeights(payments: map<Key, Payment>, evidence: map<Key, Evidence>,
                                      blocks: map<nat, BlockRow>, es: seq<Evidence>, n: nat)
    requires AtBlock(es, n)
    ensures forall k :: k in Pay(payments, evidence, blocks, es) ==>
              Pay(payments, evidence, blocks, es)[k].block == n
              || (k in payments && Pay(payments, evidence, blocks, es)[k].block == payments[k].block)
  {
    if es != [] {
      PayHeights(payments, evidence, blocks, es[..|es| - 1], n);
    }
  }

  lemma {:induction false} InteractHeights(table: map<InteractionKey, Moment>, txs: map<Hash, TxRow>,
                                           blocks: map<nat, BlockRow>, es: seq<Evidence>, n: nat)
    requires AtBlock(es, n)
    ensures forall k :: k in Interact(table, txs, blocks, es) ==>
              Interact(table, txs, blocks, es)[k].block == n
              || (k in table && Interact(table, txs, blocks, es)[k] == table[k])
  {
    if es != [] {
      InteractHeights(table, txs, blocks, es[..|es| - 1], n);
    }
  }

  lemma {:induction false} PersistHeights(table: map<Key, Evidence>, es: seq<Evidence>, n: nat)
    requires AtBlock(es, n)
    ensures forall k :: k in Persist(table, es) ==>
              Persist(table, es)[k].block == n || (k in table && Persist(table, es)[k].block == table[k].block)
  {
    if es != [] {
      PersistHeights(table, es[..|es| - 1], n);
    }
  }

  lemma ConvertHeights(payments: map<Key, Payment>, prices: map<Bucket, real>, keys: set<Key>)
    ensures Convert(payments, prices, keys).Keys == payments.Keys
    ensures forall k :: k in payments ==> Convert(payments, prices, keys)[k].block == payments[k].block
  {
  }

  /** A row written for a block sits at its height; the others stay at theirs. */
  lemma IndexHeights(db: Db, cfg: Config, b: Block)
    ensures var after := Index(db, cfg, b);
            && (forall k :: k in after.evidence ==>
                  after.evidence[k].block == b.number
                  || (k in db.evidence && after.evidence[k].block == db.evidence[k].block))
            && (forall k :: k in after.payments ==>
                  after.payments[k].block == b.number
                  || (k in db.payments && after.payments[k].block == db.payments[k].block))
            && (forall k :: k in after.interactions ==>
                  after.interactions[k].block == b.number
                  || (k in db.interactions && after.interactions[k] == db.interactions[k]))
  {
    var stored, ps := Stored(db, cfg, b), PromotedOf(cfg, b);
    hide *;
    IndexFrame(db, cfg, b);
    BlockRowsFit(cfg, b);
    IndexTables(db, cfg, b);
    PersistHeights(db.evidence, BlockEvidence(cfg, b), b.number);
    PayHeights(db.payments, stored.evidence, stored.blocks, ps, b.number);
    ConvertHeights(Pay(db.payments, stored.evidence, stored.blocks, ps), cfg.prices, Keys(ps));
    InteractHeights(db.interactions, stored.txs, stored.blocks, ps, b.number);
  }

  lemma AcceptKeepsOnCanonical(db: Db, cfg: Config, b: Block, w: Worker)
    requires OnCanonical(db)
    ensures OnCanonical(Accept(db, cfg, b, w))
  {
    hide Index;
    IndexFrame(db, cfg, b);
    IndexHeights(db, cfg, b);
    var after := Accept(db, cfg, b, w);
    assert forall n: nat :: Live(db.blocks, n) || n == b.number ==> Live(after.blocks, n);
  }

  lemma IndexTables(db: Db, cfg: Config, b: Block)
    ensures var s, ps, after := Stored(db, cfg, b), PromotedOf(cfg, b), Index(db, cfg, b);
            && after.payments == Convert(Pay(db.payments, s.evidence, s.blocks, ps), cfg.prices, Keys(ps))
            && after.interactions == Interact(db.interactions, s.txs, s.blocks, ps)
  {
    hide Promote, Pay, Interact, Convert, See;
    PromoteCore(Stored(db, cfg, b), cfg, PromotedOf(cfg, b));
  }

  lemma CutStaysOnCanonical(db: Db, after: Db, a: nat)
    requires OnCanonical(db) && after.blocks == Orphan(db.blocks, a)
    requires after.evidence == EvidenceUpTo(db.evidence, a) && after.payments == PaymentsUpTo(db.payments, a)
    requires after.interactions == InteractionsUpTo(db.interactions, a)
    ensures OnCanonical(after)
  {
    assert forall n: nat :: n <= a && Live(db.blocks, n) ==> Live(after.blocks, n);
  }

  lemma RecoverKeepsOnCanonical(db: Db, cfg: Config, view: View, current: nat, a: nat, w: Worker)
    requires OnCanonical(db) && a in view && a < current
    ensures OnCanonical(Recover(db, cfg, view, current, a, w))
  {
    hide Recover, Orphan, EvidenceUpTo, PaymentsUpTo, InteractionsUpTo, OnCanonical;
    RecoverFrame(db, cfg, view, current, a, w);
    CutStaysOnCanonical(db, Recover(db, cfg, view, current, a, w), a);
  }

  /** A recovery that gets stuck leaves evidence on a block it has orphaned. */
  lemma StuckLeavesOrphans(db: Db, a: nat)
    requires Blocked(db, a)
    ensures !OnCanonical(PartlyUndone(db, a))
  {
    var k :| k in db.payments && db.payments[k].block <= a && k in db.evidence && db.evidence[k].block > a;
    assert k in PartlyUndone(db, a).evidence;
  }

  ghost predicate OnCanonicalThroughout(cfg: Config, acts: seq<Action>) {
    OnCanonical(Run(START, cfg, acts).db) && (acts != [] ==> OnCanonicalThroughout(cfg, acts[..|acts| - 1]))
  }

  lemma OnCanonicalTables(x: Db, y: Db)
    requires SameTables(x, y)
    ensures OnCanonical(x) <==> OnCanonical(y)
  {
  }

  lemma StepKeepsOnCanonicalIff(s: System, cfg: Config, a: Action)
    requires OnCanonical(s.db)
    ensures OnCanonical(Step(s, cfg, a).db) <==> !EffectOf(s, cfg, a).Stuck?
  {
    hide Step, EffectOf, Accept, Recover, PartlyUndone, Blocked, OnCanonical, SameTables, ReadyFor;
    StepProduces(s, cfg, a);
    var ready, after := ReadyFor(s, a), Step(s, cfg, a).db;
    OnCanonicalTables(s.db, ready);
    match EffectOf(s, cfg, a)
    case Untouched => OnCanonicalTables(ready, after);
    case Accepted(b, w) =>
      AcceptKeepsOnCanonical(ready, cfg, b, w);
      OnCanonicalTables(Accept(ready, cfg, b, w), after);
    case Recovered(view, current, ancestor, w) =>
      RecoverKeepsOnCanonical(ready, cfg, view, current, ancestor, w);
      OnCanonicalTables(Recover(ready, cfg, view, current, ancestor, w), after);
    case Stuck(ancestor) =>
      StuckLeavesOrphans(ready, ancestor);
      OnCanonicalTables(PartlyUndone(ready, ancestor), after);
  }

  /** However the workers interleave: after every step no evidence, payment or interaction is on an
      orphaned or missing block, if and only if no recovery gets stuck. */
  lemma {:induction false} RunKeepsOnCanonicalIff(cfg: Config, acts: seq<Action>)
    ensures OnCanonicalThroughout(cfg, acts) <==> NeverStuck(cfg, acts)
  {
    hide Step, EffectOf, OnCanonical;
    if acts == [] {
      NothingIsOnCanonical();
    } else {
      var earlier := acts[..|acts| - 1];
      RunKeepsOnCanonicalIff(cfg, earlier);
      if OnCanonicalThroughout(cfg, earlier) {
        StepKeepsOnCanonicalIff(Run(START, cfg, earlier), cfg, acts[|acts| - 1]);
      }
    }
  }

  lemma NothingIsOnCanonical()
    ensures OnCanonical(EMPTY_DB)
  {
  }

  // ------------------------------------------------- the foreign key

  lemma AcceptKeepsStored(db: Db, cfg: Config, b: Block, w: Worker)
    requires HeightsStored(CoreOf(db))
    ensures HeightsStored(CoreOf(Accept(db, cfg, b, w)))
  {
    IndexFrame(db, cfg, b);
    BlockRowsFit(cfg, b);
    PersistHeights(db.evidence, BlockEvidence(cfg, b), b.number);
    hide Index, Persist, BlockEvidence, TxRows, BlockCandidates;
  }

  lemma RecoverKeepsStored(db: Db, cfg: Config, view: View, current: nat, a: nat, w: Worker)
    requires HeightsStored(CoreOf(db)) && a in view && a < current
    ensures HeightsStored(CoreOf(Recover(db, cfg, view, current, a, w)))
  {
    RecoverFrame(db, cfg, view, current, a, w);
    hide Recover;
  }

  /** In every run all evidence sits on stored block rows. */
  lemma {:induction false} RunKeepsStored(cfg: Config, acts: seq<Action>)
    ensures HeightsStored(CoreOf(Run(START, cfg, acts).db))
  {
    hide Step, EffectOf, Accept, Recover, Blocked, PaymentsUpTo, InteractionsUpTo;
    if acts != [] {
      var earlier, a := acts[..|acts| - 1], acts[|acts| - 1];
      RunKeepsStored(cfg, earlier);
      var s := Run(START, cfg, earlier);
      var ready := ReadyFor(s, a);
      StepProduces(s, cfg, a);
      assert HeightsStored(CoreOf(ready));
      match EffectOf(s, cfg, a)
      case Untouched =>
      case Accepted(b, w) => AcceptKeepsStored(ready, cfg, b, w);
      case Recovered(view, current, ancestor, w) => RecoverKeepsStored(ready, cfg, view, current, ancestor, w);
      case Stuck(ancestor) =>
    }
  }

  // ---------------------------------------------- payments and evidence

  /** The rows a payment refers to exist. */
  ghost predicate Referenced(db: Db, k: Key)
    requires k in db.payments
  {
    && k in db.evidence && db.evidence[k].block == db.payments[k].block
    && k.tx in db.txs
    && db.payments[k].payer in db.agents
    && db.payments[k].payTo in db.services
  }

  ghost predicate SoundAt(db: Db, threshold: nat, k: Key) {
    && (k in db.payments ==> Referenced(db, k))
    && (k in db.payments <==> k in db.evidence && db.evidence[k].confidence >= threshold)
  }

  /** Payments refer to stored rows and are exactly the evidence that reaches the threshold. */
  ghost predicate Sound(db: Db, threshold: nat) {
    forall k :: SoundAt(db, threshold, k)
  }

  /** One transaction does not emit two logs with the same index. */
  ghost predicate LogsDistinct(b: Block) {
    forall t, u :: t in b.transfers && u in b.transfers && t.tx == u.tx && t.logIndex == u.logIndex ==> t == u
  }

  /** What a stored row and the evidence derived again for its key must satisfy: a promoted row
      stays promoted, and evidence that is promoted sits at the height it is stored at. */
  ghost predicate Agrees(stored: Evidence, e: Evidence, threshold: nat, n: nat) {
    && (stored.confidence >= threshold ==> e.confidence >= threshold)
    && (e.confidence >= threshold ==> stored.block == n)
  }

  ghost predicate AgreesWithStored(db: Db, cfg: Config, b: Block) {
    forall e :: e in BlockEvidence(cfg, b) && e.key in db.evidence ==>
      Agrees(db.evidence[e.key], e, cfg.threshold, b.number)
  }

  lemma OneEvidencePerKey(cfg: Config, b: Block, e: Evidence, f: Evidence)
    requires LogsDistinct(b) && e in BlockEvidence(cfg, b) && f in BlockEvidence(cfg, b) && e.key == f.key
    ensures e == f
  {
    var cs, known := BlockCandidates(cfg, b), KnownAt(cfg.registry, b.number);
    var i :| 0 <= i < |cs| && e == EvidenceOf(cs[i], known);
    var j :| 0 <= j < |cs| && f == EvidenceOf(cs[j], known);
    CandidatesAreLogs(cfg, b);
    assert cs[i] in cs && cs[j] in cs;
    var logs := TransfersOf(b.transfers, known.assets);
    CandidateIff(logs, b, known, cfg.hardFilter, cs[i]);
    CandidateIff(logs, b, known, cfg.hardFilter, cs[j]);
  }

  /** What a block adds is sound by itself. */
  lemma DeltaSound(cfg: Config, b: Block, k: Key)
    requires LogsDistinct(b)
    ensures var d := DeltaOf(cfg, b);
            && (k in d.payments <==> k in d.evidence && d.evidence[k].confidence >= cfg.threshold)
            && (k in d.evidence ==> d.evidence[k].block == b.number && d.evidence[k] in BlockEvidence(cfg, b)
                                    && d.evidence[k].key == k)
            && (k in d.payments ==>
                  && d.payments[k].block == b.number && k.tx in d.txs
                  && d.payments[k].payer in d.agents && d.payments[k].payTo in d.services)
  {
    hide EvidenceAdded, PaymentsAdded, See, TxRows, BlockCandidates, BlockEvidence, Promoted;
    var es, ps := BlockEvidence(cfg, b), PromotedOf(cfg, b);
    BlockRowsFit(cfg, b);
    EvidenceAddedRows(es, b.number);
    AddedPaymentRows(ps, b.time, b.number);
    PromotedAreEvidence(es, cfg.threshold);
    PaymentPeople(cfg.contracts, ps, b.time);
    if k in Keys(ps) {
      var e :| e in ps && e.key == k;
      OneEvidencePerKey(cfg, b, e, EvidenceAdded(es)[k]);
    }
  }

  lemma {:induction false} PaymentPeople(contracts: set<Address>, ps: seq<Evidence>, time: nat)
    ensures forall k :: k in PaymentsAdded(ps, time) ==>
              && PaymentsAdded(ps, time)[k].payer in See(map[], contracts, ps)
              && PaymentsAdded(ps, time)[k].payTo in Payees(ps)
  {
    if ps != [] {
      PaymentPeople(contracts, ps[..|ps| - 1], time);
      assert ps == ps[..|ps| - 1] + [ps[|ps| - 1]];
    }
  }

  /** What accepting a block leaves under one key. */
  lemma AcceptedRow(db: Db, cfg: Config, b: Block, w: Worker, k: Key)
    requires HeightsStored(CoreOf(db))
    ensures var d, after := DeltaOf(cfg, b), Accept(db, cfg, b, w);
            && (k in after.evidence <==> k in db.evidence || k in d.evidence)
            && (k in d.evidence ==> after.evidence[k] == d.evidence[k].(block := HeightAt(db.evidence, k, b.number)))
            && (k in db.evidence && k !in d.evidence ==> after.evidence[k] == db.evidence[k])
            && (k in after.payments <==> k in db.payments || k in d.payments)
            && (k in d.payments ==> after.payments[k].block == d.payments[k].block
                                    && after.payments[k].payer == d.payments[k].payer
                                    && after.payments[k].payTo == d.payments[k].payTo)
            && (k in db.payments && k !in d.payments ==> after.payments[k] == db.payments[k])
  {
    var d, c := DeltaOf(cfg, b), CoreOf(db);
    hide Accept, DeltaOf, WithPayments, Merge, BlockEvidence;
    StoredIsJoinable(c, cfg, b);
    AcceptApplies(db, cfg, b, w);
    DeltaRow(cfg, b);
    var placed := Placed(c, d);
    WithPaymentsAt(db.payments, placed.payments, cfg.prices, k);
    assert CoreOf(Accept(db, cfg, b, w)).evidence == db.evidence + placed.evidence;
    assert CoreOf(Accept(db, cfg, b, w)).payments == WithPayments(db.payments, placed.payments, cfg.prices);
    if k in d.evidence {
      PlacedRow(db.evidence, d.evidence, b.number, k);
    }
  }

  lemma AcceptedPeople(db: Db, cfg: Config, b: Block, w: Worker)
    requires HeightsStored(CoreOf(db))
    ensures var d, after := DeltaOf(cfg, b), Accept(db, cfg, b, w);
            && after.txs.Keys == db.txs.Keys + d.txs.Keys
            && after.agents.Keys == db.agents.Keys + d.agents.Keys
            && after.services == db.services + d.services
  {
    hide Accept, DeltaOf, WithPayments, PlacedEvidence, PlacedPayments, BlockEvidence;
    StoredIsJoinable(CoreOf(db), cfg, b);
    AcceptApplies(db, cfg, b, w);
    assert CoreOf(Accept(db, cfg, b, w)).agents == Merge(db.agents, DeltaOf(cfg, b).agents);
  }

  /** One key is sound after the block exactly when what was stored for it agrees. */
  lemma AcceptSoundAt(db: Db, cfg: Config, b: Block, w: Worker, k: Key)
    requires Sound(db, cfg.threshold) && HeightsStored(CoreOf(db)) && LogsDistinct(b)
    ensures var d := DeltaOf(cfg, b);
            SoundAt(Accept(db, cfg, b, w), cfg.threshold, k)
            <==> (k in d.evidence && k in db.evidence
                  ==> Agrees(db.evidence[k], d.evidence[k], cfg.threshold, b.number))
  {
    hide Accept, DeltaOf, HeightsStored, LogsDistinct, BlockEvidence;
    assert SoundAt(db, cfg.threshold, k);
    AcceptedRow(db, cfg, b, w, k);
    AcceptedPeople(db, cfg, b, w);
    DeltaSound(cfg, b, k);
  }

  /** An accepted block keeps payments and evidence in agreement if and only if what it derives
      agrees with what is stored. */
  lemma AcceptKeepsSoundIff(db: Db, cfg: Config, b: Block, w: Worker)
    requires Sound(db, cfg.threshold) && HeightsStored(CoreOf(db)) && LogsDistinct(b)
    ensures Sound(Accept(db, cfg, b, w), cfg.threshold) <==> AgreesWithStored(db, cfg, b)
  {
    hide Accept, DeltaOf, HeightsStored, LogsDistinct, BlockEvidence, SoundAt, Agrees;
    var d, t := DeltaOf(cfg, b), cfg.threshold;
    forall k
      ensures SoundAt(Accept(db, cfg, b, w), t, k)
              <==> (k in d.evidence && k in db.evidence ==> Agrees(db.evidence[k], d.evidence[k], t, b.number))
      ensures k in d.evidence ==> d.evidence[k] in BlockEvidence(cfg, b) && d.evidence[k].key == k
    {
      AcceptSoundAt(db, cfg, b, w, k);
      DeltaSound(cfg, b, k);
    }
    forall e | e in BlockEvidence(cfg, b) ensures e.key in d.evidence && d.evidence[e.key] == e {
      EvidenceIsDelta(cfg, b, e);
    }
  }

  lemma EvidenceIsDelta(cfg: Config, b: Block, e: Evidence)
    requires LogsDistinct(b) && e in BlockEvidence(cfg, b)
    ensures e.key in DeltaOf(cfg, b).evidence && DeltaOf(cfg, b).evidence[e.key] == e
  {
    DeltaSound(cfg, b, e.key);
    PromotedKeys(cfg, b);
    hide BlockEvidence, PaymentsAdded, PromotedOf, LogsDistinct, TxRows, See, InteractionsAdded, EvidenceAdded;
    assert e.key in Keys(BlockEvidence(cfg, b));
    OneEvidencePerKey(cfg, b, e, DeltaOf(cfg, b).evidence[e.key]);
  }

  lemma RecoverKeepsSound(db: Db, cfg: Config, view: View, current: nat, a: nat, w: Worker)
    requires Sound(db, cfg.threshold) && a in view && a < current
    ensures Sound(Recover(db, cfg, view, current, a, w), cfg.threshold)
  {
    RecoverFrame(db, cfg, view, current, a, w);
    hide Recover;
    forall k ensures SoundAt(Recover(db, cfg, view, current, a, w), cfg.threshold, k) {
      assert SoundAt(db, cfg.threshold, k);
    }
  }

  // ------------------------------------------------------------------ runs

  /** The blocks a run accepts have distinct logs. */
  ghost predicate DistinctLogs(cfg: Config, acts: seq<Action>) {
    acts != [] ==>
      var earlier := acts[..|acts| - 1];
      var e := EffectOf(Run(START, cfg, earlier), cfg, acts[|acts| - 1]);
      DistinctLogs(cfg, earlier) && (e.Accepted? ==> LogsDistinct(e.block))
  }

  /** What each block accepted during the run derives agrees with what is stored then. */
  ghost predicate Faithful(cfg: Config, acts: seq<Action>) {
    acts != [] ==>
      var earlier := acts[..|acts| - 1];
      var s := Run(START, cfg, earlier);
      var e := EffectOf(s, cfg, acts[|acts| - 1]);
      Faithful(cfg, earlier) && (e.Accepted? ==> AgreesWithStored(s.db, cfg, e.block))
  }

  ghost predicate SoundThroughout(cfg: Config, acts: seq<Action>) {
    && Sound(Run(START, cfg, acts).db, cfg.threshold)
    && (acts != [] ==> SoundThroughout(cfg, acts[..|acts| - 1]))
  }

  /** Sound payments share the height of their evidence, so no recovery gets stuck. */
  lemma SoundNotBlocked(db: Db, threshold: nat, a: nat)
    requires Sound(db, threshold)
    ensures !Blocked(db, a)
  {
    forall k | k in db.payments ensures k in db.evidence && db.evidence[k].block == db.payments[k].block {
      assert SoundAt(db, threshold, k);
    }
  }

  /** Soundness depends on the tables alone. */
  lemma SoundTables(x: Db, y: Db, threshold: nat)
    requires SameTables(x, y)
    ensures Sound(x, threshold) <==> Sound(y, threshold)
  {
    forall k ensures SoundAt(x, threshold, k) <==> SoundAt(y, threshold, k) {
    }
  }

  lemma StepKeepsSoundIff(s: System, cfg: Config, a: Action)
    requires Sound(s.db, cfg.threshold) && HeightsStored(CoreOf(s.db))
    requires EffectOf(s, cfg, a).Accepted? ==> LogsDistinct(EffectOf(s, cfg, a).block)
    ensures var e := EffectOf(s, cfg, a);
            Sound(Step(s, cfg, a).db, cfg.threshold) <==> (e.Accepted? ==> AgreesWithStored(s.db, cfg, e.block))
  {
    hide Step, EffectOf, Accept, Recover, PartlyUndone, Blocked, LogsDistinct, Sound, Agrees, BlockEvidence;
    StepProduces(s, cfg, a);
    var ready, after := ReadyFor(s, a), Step(s, cfg, a).db;
    SoundTables(s.db, ready, cfg.threshold);
    match EffectOf(s, cfg, a)
    case Untouched => SoundTables(s.db, after, cfg.threshold);
    case Accepted(b, w) =>
      AcceptKeepsSoundIff(ready, cfg, b, w);
      SoundTables(Accept(ready, cfg, b, w), after, cfg.threshold);
    case Recovered(view, current, ancestor, w) =>
      RecoverKeepsSound(ready, cfg, view, current, ancestor, w);
      SoundTables(Recover(ready, cfg, view, current, ancestor, w), after, cfg.threshold);
    case Stuck(ancestor) => SoundNotBlocked(ready, cfg.threshold, ancestor);
  }

  /** However the workers interleave and however often the chain forks: after every step all
      payments' evidence, transactions, agents and services exist and the payments are exactly
      the evidence at or above the threshold, if and only if what each accepted block derives
      agreed with what was stored. */
  lemma {:induction false} RunKeepsSoundIff(cfg: Config, acts: seq<Action>)
    requires DistinctLogs(cfg, acts)
    ensures SoundThroughout(cfg, acts) <==> Faithful(cfg, acts)
  {
    hide Step, EffectOf, Sound, LogsDistinct, AgreesWithStored, HeightsStored;
    if acts == [] {
      NothingIsSound(cfg.threshold);
    } else {
      var earlier := acts[..|acts| - 1];
      RunKeepsSoundIff(cfg, earlier);
      RunKeepsStored(cfg, earlier);
      if SoundThroughout(cfg, earlier) {
        StepKeepsSoundIff(Run(START, cfg, earlier), cfg, acts[|acts| - 1]);
      }
    }
  }

  /** Where payments and evidence agree throughout, every recovery completes and no derived row is
      ever left on an orphaned block. */
  lemma {:induction false} SoundIsNeverStuck(cfg: Config, acts: seq<Action>)
    requires SoundThroughout(cfg, acts)
    ensures NeverStuck(cfg, acts) && OnCanonicalThroughout(cfg, acts)
  {
    hide Step, EffectOf, Accept, Recover, PartlyUndone, Blocked, Sound, OnCanonicalThroughout, ReadyFor, SameTables;
    if acts != [] {
      var earlier, a := acts[..|acts| - 1], acts[|acts| - 1];
      SoundIsNeverStuck(cfg, earlier);
      var s := Run(START, cfg, earlier);
      StepProduces(s, cfg, a);
      SoundTables(s.db, ReadyFor(s, a), cfg.threshold);
      var e := EffectOf(s, cfg, a);
      if e.Stuck? {
        SoundNotBlocked(ReadyFor(s, a), cfg.threshold, e.ancestor);
      }
    }
    RunKeepsOnCanonicalIff(cfg, acts);
  }

  lemma NothingIsSound(threshold: nat)
    ensures Sound(EMPTY_DB, threshold)
  {
  }

  /** A block none of whose transactions is in the evidence agrees with what is stored. */
  lemma NewTransactionsAgree(db: Db, cfg: Config, b: Block)
    requires forall k :: k in db.evidence ==> k.tx !in BlockTxs(b)
    ensures AgreesWithStored(db, cfg, b)
  {
    hide BlockEvidence, BlockTxs;
    BlockRowsFit(cfg, b);
  }

  // -------------------------------------------------- a moved transaction

  const FIRST := Paying(10, "a10", "a9", 50)
  const MOVED := Paying(11, "b11", "b10", 60)
  const MOVE := [Head(10, Only(FIRST))] + [Replayed(11, Only(MOVED))]

  /** A transaction that moves to another height without a recovery: the realtime worker indexes
      it in block 10, the backfill worker finds it in block 11 of another fork. The evidence stays
      at block 10, the payment sits at block 11. */
  lemma MovedTransactionSplits()
    ensures var db := Run(START, SETTINGS, MOVE).db;
            && Key(TX, 0) in db.evidence && db.evidence[Key(TX, 0)].block == 10
            && Key(TX, 0) in db.payments && db.payments[Key(TX, 0)].block == 11
    ensures !SoundThroughout(SETTINGS, MOVE)
  {
    hide Accept, DeltaOf, BlockEvidence, Fetchable, Run;
    PayingBlock(10, "a10", "a9", 50);
    PayingBlock(11, "b11", "b10", 60);
    FirstHead(FIRST);
    ThenReplayed([Head(10, Only(FIRST))], MOVED);
    PayingDelta(10, "a10", "a9", 50);
    PayingDelta(11, "b11", "b10", 60);
    PaidElsewhere(FIRST, MOVED, Key(TX, 0));
    assert !SoundAt(Run(START, SETTINGS, MOVE).db, SETTINGS.threshold, Key(TX, 0));
  }

  /** Indexing a payment in one block and then in another keeps the evidence at the first. */
  lemma PaidElsewhere(first: Block, second: Block, k: Key)
    requires k in DeltaOf(SETTINGS, first).evidence && k in DeltaOf(SETTINGS, second).evidence
    requires k in DeltaOf(SETTINGS, second).payments
    ensures var once := Accept(EMPTY_DB, SETTINGS, first, Realtime);
            var twice := Accept(once, SETTINGS, second, BACKFILL_DEFAULT);
            && HeightsStored(CoreOf(twice))
            && k in twice.evidence && twice.evidence[k].block == first.number
            && k in twice.payments && twice.payments[k].block == DeltaOf(SETTINGS, second).payments[k].block
  {
    hide Accept, DeltaOf;
    var once := Accept(EMPTY_DB, SETTINGS, first, Realtime);
    AcceptKeepsStored(EMPTY_DB, SETTINGS, first, Realtime);
    AcceptKeepsStored(once, SETTINGS, second, BACKFILL_DEFAULT);
    AcceptedRow(EMPTY_DB, SETTINGS, first, Realtime, k);
    AcceptedRow(once, SETTINGS, second, BACKFILL_DEFAULT, k);
  }

  // ------------------------------------------------------ a stuck recovery

  const ABOVE := Paying(11, "a11", "a10", 50)
  const BELOW := Paying(10, "b10", "b9", 40)
  const DESCEND := [Head(11, Only(ABOVE))] + [Replayed(10, Only(BELOW))]
  const OTHER_FORK: View := map[10 := BELOW, 11 := Empty(11, "b11", "b10", 55), 12 := Empty(12, "b12", "b11", 60)]

  /** A recovery that gets stuck: the realtime worker indexes a payment in block 11, the backfill
      worker finds its transaction in block 10 of another fork. The next head of that fork asks for a
      recovery to block 10, which would delete the evidence at block 11 that the payment at block 10
      refers to; block 11 is orphaned and its evidence stays. */
  lemma DescendingTransactionSticks()
    ensures EffectOf(Run(START, SETTINGS, DESCEND), SETTINGS, Head(12, OTHER_FORK)) == Stuck(10)
    ensures !OnCanonicalThroughout(SETTINGS, DESCEND + [Head(12, OTHER_FORK)])
  {
    hide Accept, DeltaOf, BlockEvidence, Fetchable, Run, EffectOf, OnCanonicalThroughout;
    PayingBlock(11, "a11", "a10", 50);
    PayingBlock(10, "b10", "b9", 40);
    FirstHead(ABOVE);
    ThenReplayed([Head(11, Only(ABOVE))], BELOW);
    PayingDelta(11, "a11", "a10", 50);
    PayingDelta(10, "b10", "b9", 40);
    PaidElsewhere(ABOVE, BELOW, Key(TX, 0));
    DescendRows();
    DescendSticks(Run(START, SETTINGS, DESCEND));
    var all := DESCEND + [Head(12, OTHER_FORK)];
    assert all[..|all| - 1] == DESCEND;
    RunKeepsOnCanonicalIff(SETTINGS, all);
  }

  lemma DescendRows()
    ensures var once := Accept(EMPTY_DB, SETTINGS, ABOVE, Realtime);
            Accept(once, SETTINGS, BELOW, BACKFILL_DEFAULT).blocks
                == map[11 := HeaderRow(ABOVE), 10 := HeaderRow(BELOW)]
  {
    IndexFrame(EMPTY_DB, SETTINGS, ABOVE);
    IndexFrame(Accept(EMPTY_DB, SETTINGS, ABOVE, Realtime), SETTINGS, BELOW);
    hide Index;
  }

  lemma DescendSticks(s: System)
    requires s.db.blocks == map[11 := HeaderRow(ABOVE), 10 := HeaderRow(BELOW)]
    requires s.db.checkpoints == map[Realtime := Checkpoint(11, Hash("a11"), Running),
                                     BACKFILL_DEFAULT := Checkpoint(10, Hash("b10"), Running)]
    requires Key(TX, 0) in s.db.evidence && s.db.evidence[Key(TX, 0)].block == 11
    requires Key(TX, 0) in s.db.payments && s.db.payments[Key(TX, 0)].block == 10
    ensures EffectOf(s, SETTINGS, Head(12, OTHER_FORK)) == Stuck(10)
  {
    assert HandedOff(s.db.checkpoints) == s.db.checkpoints;
    ForkedAboveTen(s.db.blocks);
    assert Blocked(s.db, 10);
    hide Ancestor, HandedOff, Blocked;
  }

  lemma ForkedAboveTen(blocks: map<nat, BlockRow>)
    requires blocks == map[11 := HeaderRow(ABOVE), 10 := HeaderRow(BELOW)]
    ensures Ancestor(blocks, OTHER_FORK, 11, 10) == Ok(10)
  {
    assert Ancestor(blocks, OTHER_FORK, 10, 9) == Ok(10);
  }
}
