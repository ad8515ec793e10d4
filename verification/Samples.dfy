/** One small payment, for showing on concrete runs where a promise fails. */
module Samples {
  import opened Types
  import opened Candidates
  import opened Domain
  import opened BlockEffects

  const TOKEN := Address("token")
  const TX := Hash("tx")
  const TRANSFER := Transfer(TX, 0, TOKEN, Address("payer"), Address("payee"), 1, true)
  const DETAIL := TxDetail(Address("sender"), Some(TOKEN), "0xe3ee160e", true, true, 1, 1)
  const PRICED := 180000
  const SETTINGS := Config(60, 10, false, false, map[TOKEN := RegistryRow(AssetKind, None, None)], {},
                           map[Bucket(TOKEN, PRICED) := 1.0])

  /** A block that holds one transfer, or the payment, or nothing. */
  function Moving(t: Transfer, number: nat, hash: string, parent: string, time: nat): Block {
    Block(number, Hash(hash), Hash(parent), time, [t], map[t.tx := DETAIL])
  }

  function Paying(number: nat, hash: string, parent: string, time: nat): Block {
    Moving(TRANSFER, number, hash, parent, time)
  }

  function Empty(number: nat, hash: string, parent: string, time: nat): Block {
    Block(number, Hash(hash), Hash(parent), time, [], map[])
  }

  function MovedEvidence(t: Transfer, number: nat): Evidence {
    Evidence(Key(t.tx, t.logIndex), number, Eip3009Direct, 80, t.payer, t.payTo, t.asset, t.amount)
  }

  function PaidEvidence(number: nat): Evidence { MovedEvidence(TRANSFER, number) }

  /** An authorized transfer of the sample token. */
  predicate Sample(t: Transfer) { t.asset == TOKEN && t.authorized }

  lemma MovingBlock(t: Transfer, number: nat, hash: string, parent: string, time: nat)
    requires Sample(t)
    ensures var b := Moving(t, number, hash, parent, time);
            && BlockEvidence(SETTINGS, b) == [MovedEvidence(t, number)]
            && Fetchable(SETTINGS, b)
  {
    var b, known := Moving(t, number, hash, parent, time), KnownAt(SETTINGS.registry, number);
    assert TOKEN in known.assets && TOKEN !in known.proxies && Address("sender") !in known.facilitators;
    assert TransfersOf([], known.assets) == [] && b.transfers[..0] == [];
    assert TransfersOf(b.transfers, known.assets) == [t];
    var c := Candidate(t, number, DETAIL);
    assert DETAIL.input[..10] == DETAIL.input;
    assert Candidates.Candidates([], b, known, false) == [] && [t][..0] == [];
    assert Candidates.Candidates([t], b, known, false) == [c];
    assert EvidenceOf(c, known) == MovedEvidence(t, number);
    assert BlockEvidence(SETTINGS, b) == [MovedEvidence(t, number)];
  }

  lemma PayingBlock(number: nat, hash: string, parent: string, time: nat)
    ensures var b := Paying(number, hash, parent, time);
            && BlockEvidence(SETTINGS, b) == [PaidEvidence(number)]
            && Fetchable(SETTINGS, b)
  {
    MovingBlock(TRANSFER, number, hash, parent, time);
  }

  /** What the paying block adds to the evidence and the payments. */
  lemma PayingDelta(number: nat, hash: string, parent: string, time: nat)
    ensures var d := DeltaOf(SETTINGS, Paying(number, hash, parent, time));
            && d.evidence == map[Key(TX, 0) := PaidEvidence(number)]
            && d.payments == map[Key(TX, 0) := PaymentOf(PaidEvidence(number), time)]
  {
    PayingBlock(number, hash, parent, time);
    OnePiece(PaidEvidence(number), 60, time);
    hide BlockEvidence, TxRows, See, InteractionsAdded, Promoted, PaymentsAdded, Persist;
  }

  lemma OnePiece(e: Evidence, threshold: nat, time: nat)
    requires e.confidence >= threshold
    ensures Promoted([e], threshold) == [e]
    ensures EvidenceAdded([e]) == map[e.key := e]
    ensures PaymentsAdded([e], time) == map[e.key := PaymentOf(e, time)]
  {
    assert [e][..0] == [] && Persist(map[], []) == map[];
    assert PersistOne(map[], e) == map[e.key := e];
  }

  lemma EmptyBlock(number: nat, hash: string, parent: string, time: nat)
    ensures var b := Empty(number, hash, parent, time); BlockCandidates(SETTINGS, b) == [] && Fetchable(SETTINGS, b)
  {
    var b, known := Empty(number, hash, parent, time), KnownAt(SETTINGS.registry, number);
    assert TransfersOf([], known.assets) == [];
    assert Candidates.Candidates([], b, known, false) == [];
  }
}
