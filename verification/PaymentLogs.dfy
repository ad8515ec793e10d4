/** Which logs of a block are payments and what is recorded of each, in terms of the registry rows,
    the transactions and the logs alone. */
module PaymentLogs {
  import opened Types
  import opened Candidates

  /** The registry has the address under the kind, from its first block up to but excluding its end. */
  predicate Registered(rows: map<Address, RegistryRow>, a: Address, kind: RegistryKind, n: nat) {
    && a in rows && rows[a].kind == kind
    && (rows[a].validFrom.Some? ==> rows[a].validFrom.value <= n)
    && (rows[a].validTo.Some? ==> n < rows[a].validTo.value)
  }

  /** The call starts with the selector of transferWithAuthorization or receiveWithAuthorization. */
  predicate CallsWithAuthorization(input: string) {
    "0xe3ee160e" <= input || "0xef55bec6" <= input
  }

  /** A transfer of a registered asset whose transaction calls a registered asset or proxy with one of
      the two selectors and, in hard mode, comes from a registered facilitator. */
  predicate IsPayment(cfg: Config, b: Block, t: Transfer) {
    && Registered(cfg.registry, t.asset, AssetKind, b.number)
    && t.tx in b.txs
    && var tx := b.txs[t.tx];
    && CallsWithAuthorization(tx.input)
    && tx.to.Some?
    && (Registered(cfg.registry, tx.to.value, AssetKind, b.number)
        || Registered(cfg.registry, tx.to.value, ProxyKind, b.number))
    && (cfg.hardFilter ==> Registered(cfg.registry, tx.sender, FacilitatorKind, b.number))
  }

  /** Out of 100: 40 for a registered facilitator, 30 for an AuthorizationUsed log, 20 for the known
      path, 20 for matching calldata, 10 for success. */
  function Score(cfg: Config, b: Block, t: Transfer): nat
    requires IsPayment(cfg, b, t)
  {
    var tx := b.txs[t.tx];
    var sum := (if Registered(cfg.registry, tx.sender, FacilitatorKind, b.number) then 60 else 20)
               + (if tx.authorizationUsed then 30 else 0)
               + (if t.authorized then 20 else 0)
               + (if tx.succeeded then 10 else 0);
    if sum > 100 then 100 else sum
  }

  function RecordOf(cfg: Config, b: Block, t: Transfer): Evidence
    requires IsPayment(cfg, b, t)
  {
    var proxied := Registered(cfg.registry, b.txs[t.tx].to.value, ProxyKind, b.number);
    Evidence(Key(t.tx, t.logIndex), b.number, if proxied then Permit2Proxy else Eip3009Direct, Score(cfg, b, t),
             t.payer, t.payTo, t.asset, t.amount)
  }

  // ------------------------------------------------------------- one log

  lemma KnownIsRegistered(rows: map<Address, RegistryRow>, n: nat, a: Address)
    ensures a in KnownAt(rows, n).assets <==> Registered(rows, a, AssetKind, n)
    ensures a in KnownAt(rows, n).facilitators <==> Registered(rows, a, FacilitatorKind, n)
    ensures a in KnownAt(rows, n).proxies <==> Registered(rows, a, ProxyKind, n)
  {
  }

  lemma SelectorIsPrefix(input: string)
    ensures Selector(input) in EIP3009_SELECTORS <==> CallsWithAuthorization(input)
  {
    forall s | s in EIP3009_SELECTORS ensures s == Selector(input) <==> s <= input {
      assert |s| == 10;
      if |input| >= 10 {
        assert Selector(input) == input[..10];
      }
    }
  }

  lemma PassesIff(cfg: Config, b: Block, t: Transfer)
    ensures var known := KnownAt(cfg.registry, b.number);
            t.asset in known.assets && Passes(t, b.txs, known, cfg.hardFilter) <==> IsPayment(cfg, b, t)
  {
    KnownIsRegistered(cfg.registry, b.number, t.asset);
    if t.tx in b.txs {
      var tx := b.txs[t.tx];
      SelectorIsPrefix(tx.input);
      KnownIsRegistered(cfg.registry, b.number, tx.sender);
      if tx.to.Some? {
        KnownIsRegistered(cfg.registry, b.number, tx.to.value);
      }
    }
    hide KnownAt, Selector, CallsWithAuthorization, Registered;
  }

  lemma RecordedAs(cfg: Config, b: Block, t: Transfer)
    requires IsPayment(cfg, b, t)
    ensures EvidenceOf(Candidate(t, b.number, b.txs[t.tx]), KnownAt(cfg.registry, b.number)) == RecordOf(cfg, b, t)
  {
    var tx := b.txs[t.tx];
    KnownIsRegistered(cfg.registry, b.number, tx.sender);
    KnownIsRegistered(cfg.registry, b.number, tx.to.value);
    hide KnownAt, CallsWithAuthorization, Registered;
  }

  // ------------------------------------------------------------- all logs

  /** `at` lists, in order, exactly the positions of the logs that are payments. */
  ghost predicate Payments(cfg: Config, b: Block, logs: seq<Transfer>, at: seq<nat>) {
    && (forall j :: 0 <= j < |at| ==> at[j] < |logs| && IsPayment(cfg, b, logs[at[j]]))
    && (forall i, j :: 0 <= i < j < |at| ==> at[i] < at[j])
    && (forall i: nat :: i < |logs| && IsPayment(cfg, b, logs[i]) ==> i in at)
  }

  lemma {:induction false} CandidatesAt(cfg: Config, b: Block, logs: seq<Transfer>) returns (at: seq<nat>)
    ensures Payments(cfg, b, logs, at)
    ensures var known := KnownAt(cfg.registry, b.number);
            var cs := Candidates.Candidates(TransfersOf(logs, known.assets), b, known, cfg.hardFilter);
            && |cs| == |at|
            && forall j :: 0 <= j < |at| ==> cs[j] == Candidate(logs[at[j]], b.number, b.txs[logs[at[j]].tx])
  {
    hide IsPayment, KnownAt, Passes;
    if logs == [] {
      at := [];
    } else {
      var shorter, t := logs[..|logs| - 1], logs[|logs| - 1];
      var known := KnownAt(cfg.registry, b.number);
      at := CandidatesAt(cfg, b, shorter);
      PassesIff(cfg, b, t);
      var rest := TransfersOf(shorter, known.assets);
      assert (rest + [t])[..|rest|] == rest;
      if IsPayment(cfg, b, t) {
        at := at + [|logs| - 1];
      }
    }
  }

  /** The evidence of a block is one record for each of its logs that is a payment, in the order of the
      logs and as often as they occur. */
  lemma EvidenceInOrder(cfg: Config, b: Block) returns (at: seq<nat>)
    ensures Payments(cfg, b, b.transfers, at) && |BlockEvidence(cfg, b)| == |at|
    ensures forall j :: 0 <= j < |at| ==> BlockEvidence(cfg, b)[j] == RecordOf(cfg, b, b.transfers[at[j]])
  {
    at := CandidatesAt(cfg, b, b.transfers);
    hide KnownAt, Candidates.Candidates, TransfersOf, EvidenceOf, IsPayment, RecordOf;
    forall j | 0 <= j < |at| ensures BlockEvidence(cfg, b)[j] == RecordOf(cfg, b, b.transfers[at[j]]) {
      RecordedAs(cfg, b, b.transfers[at[j]]);
    }
  }

  /** Something is evidence of a block if and only if it is the record of one of its payments. */
  lemma EvidenceIff(cfg: Config, b: Block, e: Evidence)
    ensures e in BlockEvidence(cfg, b)
            <==> exists t :: t in b.transfers && IsPayment(cfg, b, t) && e == RecordOf(cfg, b, t)
  {
    var at := EvidenceInOrder(cfg, b);
    hide BlockEvidence, IsPayment, RecordOf;
    var es := BlockEvidence(cfg, b);
    if e in es {
      var j :| 0 <= j < |es| && es[j] == e;
      assert b.transfers[at[j]] in b.transfers;
    }
    if t :| t in b.transfers && IsPayment(cfg, b, t) && e == RecordOf(cfg, b, t) {
      var i: nat :| i < |b.transfers| && b.transfers[i] == t;
      var j :| 0 <= j < |at| && at[j] == i;
      assert es[j] == e;
    }
  }

  /** The lookups for a block succeed if and only if the node knows the transaction of every transfer of
      a registered asset, whether it turns out to be a payment or not. */
  lemma {:induction false} FetchableIff(cfg: Config, b: Block)
    ensures Fetchable(cfg, b)
            <==> forall t :: t in b.transfers && Registered(cfg.registry, t.asset, AssetKind, b.number) ==>
                   t.tx in b.txs
  {
    var assets := KnownAt(cfg.registry, b.number).assets;
    forall t: Transfer { KnownIsRegistered(cfg.registry, b.number, t.asset); }
    TransfersOfIff(b.transfers, assets);
    hide KnownAt, Registered, TransfersOf;
    var logs := TransfersOf(b.transfers, assets);
    forall i | 0 <= i < |logs| ensures logs[i] in logs {
    }
  }

  lemma {:induction false} TransfersOfIff(logs: seq<Transfer>, assets: set<Address>)
    ensures forall t :: t in TransfersOf(logs, assets) <==> t in logs && t.asset in assets
  {
    if logs != [] {
      TransfersOfIff(logs[..|logs| - 1], assets);
      assert logs == logs[..|logs| - 1] + [logs[|logs| - 1]];
    }
  }
}
