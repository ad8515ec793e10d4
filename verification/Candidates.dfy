/** From the Transfer logs of a block to scored evidence: the address registry at a height,
    the candidate filter and the confidence score. */
module Candidates {
  import opened Types
  import opened Sums

  /** The three address sets the filter reads, refilled in place before each block. */
  class Registry {
    var assets: set<Address>
    var facilitators: set<Address>
    var proxies: set<Address>

    constructor ()
      ensures Sets() == Known({}, {}, {})
    {
      assets, facilitators, proxies := {}, {}, {};
    }

    function Sets(): Known reads this { Known(assets, facilitators, proxies) }

    method Refresh(rows: map<Address, RegistryRow>, number: nat)
      modifies this
      ensures Sets() == KnownAt(rows, number)
    {
      assets, facilitators, proxies := {}, {}, {};
      var selected := List(rows.Keys);
      for i := 0 to |selected|
        invariant Sets() == Refilled(rows, selected[..i], number)
      {
        var a := selected[i];
        assert selected[..i + 1][..i] == selected[..i];
        if ValidAt(rows[a], number) {
          if rows[a].kind == AssetKind {
            assets := assets + {a};
          } else if rows[a].kind == FacilitatorKind {
            facilitators := facilitators + {a};
          } else if rows[a].kind == ProxyKind {
            proxies := proxies + {a};
          }
        }
      }
      assert selected[..|selected|] == selected;
      RefilledIsKnownAt(rows, selected, number);
    }
  }

  datatype Known = Known(assets: set<Address>, facilitators: set<Address>, proxies: set<Address>)

  predicate ValidAt(row: RegistryRow, number: nat) {
    && (row.validFrom.None? || row.validFrom.value <= number)
    && (row.validTo.None? || row.validTo.value > number)
  }

  function KnownAt(rows: map<Address, RegistryRow>, number: nat): Known {
    Known(
      set a | a in rows && ValidAt(rows[a], number) && rows[a].kind == AssetKind,
      set a | a in rows && ValidAt(rows[a], number) && rows[a].kind == FacilitatorKind,
      set a | a in rows && ValidAt(rows[a], number) && rows[a].kind == ProxyKind)
  }

  function Refilled(rows: map<Address, RegistryRow>, selected: seq<Address>, number: nat): Known
    requires forall a :: a in selected ==> a in rows
  {
    if selected == [] then Known({}, {}, {}) else
      var known := Refilled(rows, selected[..|selected| - 1], number);
      var a := selected[|selected| - 1];
      if !ValidAt(rows[a], number) then known
      else match rows[a].kind
        case AssetKind => known.(assets := known.assets + {a})
        case FacilitatorKind => known.(facilitators := known.facilitators + {a})
        case ProxyKind => known.(proxies := known.proxies + {a})
        case OtherKind => known
  }

  lemma {:induction false} RefilledMembers(rows: map<Address, RegistryRow>, selected: seq<Address>, number: nat,
                                           a: Address)
    requires forall x :: x in selected ==> x in rows
    ensures var k := Refilled(rows, selected, number);
            && (a in k.assets <==> a in selected && ValidAt(rows[a], number) && rows[a].kind == AssetKind)
            && (a in k.facilitators <==> a in selected && ValidAt(rows[a], number) && rows[a].kind == FacilitatorKind)
            && (a in k.proxies <==> a in selected && ValidAt(rows[a], number) && rows[a].kind == ProxyKind)
  {
    if selected != [] {
      RefilledMembers(rows, selected[..|selected| - 1], number, a);
      assert selected == selected[..|selected| - 1] + [selected[|selected| - 1]];
    }
  }

  lemma RefilledIsKnownAt(rows: map<Address, RegistryRow>, selected: seq<Address>, number: nat)
    requires Lists(selected, rows.Keys)
    ensures Refilled(rows, selected, number) == KnownAt(rows, number)
  {
    forall a { RefilledMembers(rows, selected, number, a); }
  }

  // ----------------------------------------------------------- candidates

  datatype Candidate = Candidate(transfer: Transfer, block: nat, detail: TxDetail)

  const EIP3009_SELECTORS := {"0xe3ee160e", "0xef55bec6"}

  function Selector(input: string): string {
    if |input| <= 10 then input else input[..10]
  }

  /** The logs the node returns when asked for the Transfer events of the known assets. */
  function TransfersOf(logs: seq<Transfer>, assets: set<Address>): seq<Transfer> {
    if logs == [] then [] else
      var rest := TransfersOf(logs[..|logs| - 1], assets);
      var log := logs[|logs| - 1];
      if log.asset in assets then rest + [log] else rest
  }

  predicate Passes(log: Transfer, txs: map<Hash, TxDetail>, known: Known, hard: bool) {
    log.tx in txs &&
    var tx := txs[log.tx];
    && Selector(tx.input) in EIP3009_SELECTORS
    && tx.to.Some?
    && (tx.to.value in known.assets || tx.to.value in known.proxies)
    && (hard ==> tx.sender in known.facilitators)
  }

  function Candidates(logs: seq<Transfer>, block: Block, known: Known, hard: bool): seq<Candidate> {
    if logs == [] then [] else
      var rest := Candidates(logs[..|logs| - 1], block, known, hard);
      var log := logs[|logs| - 1];
      if Passes(log, block.txs, known, hard)
      then rest + [Candidate(log, block.number, block.txs[log.tx])]
      else rest
  }

  /** Every log's transaction and receipt can be looked up. */
  predicate Answered(logs: seq<Transfer>, txs: map<Hash, TxDetail>) {
    forall i :: 0 <= i < |logs| ==> logs[i].tx in txs
  }

  /** The lookups made for a block succeed. */
  predicate Fetchable(cfg: Config, b: Block) {
    Answered(TransfersOf(b.transfers, KnownAt(cfg.registry, b.number).assets), b.txs)
  }

  lemma {:induction false} TransfersOfAreLogs(logs: seq<Transfer>, assets: set<Address>)
    ensures forall t :: t in TransfersOf(logs, assets) ==> t in logs
  {
    if logs != [] {
      TransfersOfAreLogs(logs[..|logs| - 1], assets);
      assert logs == logs[..|logs| - 1] + [logs[|logs| - 1]];
    }
  }

  lemma AnsweredIsFetchable(cfg: Config, b: Block)
    requires Answered(b.transfers, b.txs)
    ensures Fetchable(cfg, b)
  {
    var logs := TransfersOf(b.transfers, KnownAt(cfg.registry, b.number).assets);
    TransfersOfAreLogs(b.transfers, KnownAt(cfg.registry, b.number).assets);
    forall i | 0 <= i < |logs| ensures logs[i].tx in b.txs {
      assert logs[i] in logs;
      var j :| 0 <= j < |b.transfers| && b.transfers[j] == logs[i];
    }
  }

  /** One failed lookup fails them all. */
  method FetchTxAndReceipts(hashes: seq<Hash>, txs: map<Hash, TxDetail>) returns (details: Result<map<Hash, TxDetail>>)
    ensures if forall h :: h in hashes ==> h in txs then details == Ok(map h | h in hashes :: txs[h])
            else details == Thrown(MissingTransaction)
  {
    var found: map<Hash, TxDetail> := map[];
    for i := 0 to |hashes|
      invariant forall h :: h in hashes[..i] ==> h in txs
      invariant found == map h | h in hashes[..i] :: txs[h]
    {
      assert hashes[..i + 1] == hashes[..i] + [hashes[i]];
      if hashes[i] !in txs {
        return Thrown(MissingTransaction);
      }
      found := found[hashes[i] := txs[hashes[i]]];
    }
    assert hashes[..|hashes|] == hashes;
    return Ok(found);
  }

  method ValidateX402Candidates(logs: seq<Transfer>, block: Block, known: Known, hard: bool)
    returns (candidates: Result<seq<Candidate>>)
    ensures candidates == if Answered(logs, block.txs) then Ok(Candidates(logs, block, known, hard))
                          else Thrown(MissingTransaction)
  {
    if logs == [] {
      return Ok([]);
    }
    var unique := set log | log in logs :: log.tx;
    var hashes := List(unique);
    assert forall i :: 0 <= i < |logs| ==> logs[i] in logs && logs[i].tx in hashes;
    var details := FetchTxAndReceipts(hashes, block.txs);
    if details.Thrown? {
      return Thrown(details.error);
    }
    var passed: seq<Candidate> := [];
    for i := 0 to |logs|
      invariant passed == Candidates(logs[..i], block, known, hard)
    {
      var log := logs[i];
      assert logs[..i + 1][..i] == logs[..i];
      var tx := details.value[log.tx];
      if Selector(tx.input) !in EIP3009_SELECTORS {
        continue;
      }
      if tx.to.None? || (tx.to.value !in known.assets && tx.to.value !in known.proxies) {
        continue;
      }
      if hard && tx.sender !in known.facilitators {
        continue;
      }
      passed := passed + [Candidate(log, block.number, tx)];
    }
    assert logs[..|logs|] == logs;
    return Ok(passed);
  }

  // ---------------------------------------------------------------- score

  function DetectionMethodOf(c: Candidate, known: Known): DetectionMethod {
    if c.detail.to.Some? && c.detail.to.value in known.proxies then Permit2Proxy
    else if c.detail.to.Some? && c.detail.to.value in known.assets then Eip3009Direct
    else CustomEvent
  }

  function Points(earned: bool, points: nat): nat { if earned then points else 0 }

  function Confidence(c: Candidate, how: DetectionMethod, known: Known): nat {
    var score := Points(c.detail.sender in known.facilitators, 40)
               + Points(c.detail.authorizationUsed, 30)
               + Points(how != CustomEvent, 20)
               + Points(c.transfer.authorized, 20)
               + Points(c.detail.succeeded, 10);
    if score < 100 then score else 100
  }

  method CalculateConfidence(c: Candidate, how: DetectionMethod, known: Known) returns (score: nat)
    ensures score == Confidence(c, how, known)
  {
    score := 0;
    if c.detail.sender in known.facilitators {
      score := score + 40;
    }
    if c.detail.authorizationUsed {
      score := score + 30;
    }
    if how == Eip3009Direct || how == Permit2Proxy {
      score := score + 20;
    }
    if c.transfer.authorized {
      score := score + 20;
    }
    if c.detail.succeeded {
      score := score + 10;
    }
    score := if score < 100 then score else 100;
  }

  function EvidenceOf(c: Candidate, known: Known): Evidence {
    var how := DetectionMethodOf(c, known);
    Evidence(Key(c.transfer.tx, c.transfer.logIndex), c.block, how, Confidence(c, how, known),
             c.transfer.payer, c.transfer.payTo, c.transfer.asset, c.transfer.amount)
  }

  function AllEvidence(cs: seq<Candidate>, known: Known): (es: seq<Evidence>)
    ensures |es| == |cs|
    ensures forall i :: 0 <= i < |es| ==> es[i] == EvidenceOf(cs[i], known)
  {
    seq(|cs|, i requires 0 <= i < |cs| => EvidenceOf(cs[i], known))
  }

  method ExtractEvidence(cs: seq<Candidate>, known: Known) returns (es: seq<Evidence>)
    ensures es == AllEvidence(cs, known)
  {
    es := [];
    for i := 0 to |cs|
      invariant |es| == i
      invariant forall j :: 0 <= j < i ==> es[j] == EvidenceOf(cs[j], known)
    {
      var how := DetectionMethodOf(cs[i], known);
      var confidence := CalculateConfidence(cs[i], how, known);
      es := es + [Evidence(Key(cs[i].transfer.tx, cs[i].transfer.logIndex), cs[i].block, how, confidence,
                           cs[i].transfer.payer, cs[i].transfer.payTo, cs[i].transfer.asset, cs[i].transfer.amount)];
    }
  }

  /** Everything a block yields is a function of its content, the registry and the filter mode. */
  function BlockCandidates(cfg: Config, block: Block): seq<Candidate> {
    var known := KnownAt(cfg.registry, block.number);
    Candidates(TransfersOf(block.transfers, known.assets), block, known, cfg.hardFilter)
  }

  function BlockEvidence(cfg: Config, block: Block): seq<Evidence> {
    AllEvidence(BlockCandidates(cfg, block), KnownAt(cfg.registry, block.number))
  }

  // ----------------------------------------------------------- properties

  lemma RegistrySetsDisjoint(rows: map<Address, RegistryRow>, number: nat)
    ensures var k := KnownAt(rows, number);
            k.assets !! k.facilitators && k.assets !! k.proxies && k.facilitators !! k.proxies
  {
  }

  /** `part` is `whole` with some elements left out, in the same order. */
  ghost predicate Sublist<T>(part: seq<T>, whole: seq<T>)
    decreases |whole|
  {
    if whole == [] then part == []
    else
      || Sublist(part, whole[..|whole| - 1])
      || (part != [] && part[|part| - 1] == whole[|whole| - 1]
          && Sublist(part[..|part| - 1], whole[..|whole| - 1]))
  }

  function TransferLogs(cs: seq<Candidate>): seq<Transfer> {
    seq(|cs|, i requires 0 <= i < |cs| => cs[i].transfer)
  }

  lemma {:induction false} CandidatesKeepOrder(logs: seq<Transfer>, block: Block, known: Known, hard: bool)
    ensures Sublist(TransferLogs(Candidates(logs, block, known, hard)), logs)
  {
    if logs == [] {
      assert TransferLogs([]) == [];
    } else {
      CandidatesKeepOrder(logs[..|logs| - 1], block, known, hard);
      var cs := Candidates(logs, block, known, hard);
      if Passes(logs[|logs| - 1], block.txs, known, hard) {
        assert TransferLogs(cs)[..|cs| - 1]
            == TransferLogs(Candidates(logs[..|logs| - 1], block, known, hard));
      }
    }
  }

  lemma {:induction false} HardModeOnlyRemoves(logs: seq<Transfer>, block: Block, known: Known)
    ensures Sublist(Candidates(logs, block, known, true), Candidates(logs, block, known, false))
  {
    if logs != [] {
      var shorter := logs[..|logs| - 1];
      HardModeOnlyRemoves(shorter, block, known);
      var hard, soft := Candidates(logs, block, known, true), Candidates(logs, block, known, false);
      if |soft| > |Candidates(shorter, block, known, false)| {
        assert soft[..|soft| - 1] == Candidates(shorter, block, known, false);
      }
      if |hard| > |Candidates(shorter, block, known, true)| {
        assert hard[..|hard| - 1] == Candidates(shorter, block, known, true);
      }
    }
  }

  /** Being a candidate is exactly the filter's condition on some log of the list. */
  lemma {:induction false} CandidateIff(logs: seq<Transfer>, block: Block, known: Known, hard: bool, c: Candidate)
    ensures c in Candidates(logs, block, known, hard)
       <==> c.transfer in logs && Passes(c.transfer, block.txs, known, hard)
            && c.block == block.number && c.detail == block.txs[c.transfer.tx]
  {
    if logs != [] {
      CandidateIff(logs[..|logs| - 1], block, known, hard, c);
      assert logs == logs[..|logs| - 1] + [logs[|logs| - 1]];
    }
  }

  /** No candidate is scored as a custom event, so filter and score fit together. */
  lemma ScoreBounds(cfg: Config, block: Block, e: Evidence)
    requires e in BlockEvidence(cfg, block)
    ensures e.detectedBy != CustomEvent
    ensures 20 <= e.confidence <= 100
    ensures cfg.hardFilter ==> 60 <= e.confidence
    ensures e.block == block.number
  {
    var known := KnownAt(cfg.registry, block.number);
    var logs := TransfersOf(block.transfers, known.assets);
    var cs := BlockCandidates(cfg, block);
    var i :| 0 <= i < |cs| && e == EvidenceOf(cs[i], known);
    assert cs[i] in cs;
    CandidateIff(logs, block, known, cfg.hardFilter, cs[i]);
  }
}
