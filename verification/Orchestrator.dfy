/** One block taken through the whole pipeline. */
module Orchestrator {
  import opened Types
  import opened Stores
  import opened Candidates
  import opened Checkpoints
  import opened ReorgDetection
  import opened ReorgRecovery
  import opened Domain
  import opened Jobs
  import opened Aggregates

  /** Raw rows and evidence of a block. */
  ghost function Stored(db: Db, cfg: Config, b: Block): Db {
    db.(blocks := StoreBlock(db.blocks, b),
        txs := db.txs + TxRows(BlockCandidates(cfg, b)),
        evidence := Persist(db.evidence, BlockEvidence(cfg, b)))
  }

  /** Domain rows and aggregates of the evidence that reached the threshold. */
  ghost function Promote(db: Db, cfg: Config, promoted: seq<Evidence>): Db {
    if promoted == [] then db else Aggregate(Derive(db, cfg.contracts, promoted), cfg.prices, promoted)
  }

  /** A block accepted by the reorg check, all of it but the cursor. */
  ghost function Index(db: Db, cfg: Config, b: Block): Db {
    Promote(Stored(db, cfg, b), cfg, Promoted(BlockEvidence(cfg, b), cfg.threshold))
  }

  ghost function Accept(db: Db, cfg: Config, b: Block, w: Worker): Db {
    var d := Index(db, cfg, b);
    d.(checkpoints := Advance(d.checkpoints, w, b))
  }

  ghost function Process(db: Db, cfg: Config, view: View, number: nat, w: Worker, backfill: bool): Result<Db> {
    if number == 0 || number !in view then Thrown(MissingBlock(number))
    else
      var b := view[number];
      match Detect(db, cfg.maxReorgDepth, view, b, w, backfill)
      case Valid => if Fetchable(cfg, b) then Ok(Accept(db, cfg, b, w)) else Thrown(MissingTransaction)
      case Reorg(_, _, _, ancestor) =>
        AncestorInView(db, cfg.maxReorgDepth, view, b, w, backfill);
        if Blocked(db, ancestor) then Thrown(StillReferenced) else Ok(Recover(db, cfg, view, number, ancestor, w))
      case Failed(e) => Thrown(e)
  }

  /** The store after a step that throws: as it was, unless a recovery got stuck. */
  ghost function LeftByThrow(db: Db, cfg: Config, view: View, number: nat, w: Worker, backfill: bool): Db {
    if number == 0 || number !in view then db
    else match Detect(db, cfg.maxReorgDepth, view, view[number], w, backfill)
      case Reorg(_, _, _, ancestor) => if Blocked(db, ancestor) then PartlyUndone(db, ancestor) else db
      case Valid => db
      case Failed(_) => db
  }

  lemma AncestorInView(db: Db, maxDepth: nat, view: View, b: Block, w: Worker, backfill: bool)
    requires b.number > 0
    ensures var d := Detect(db, maxDepth, view, b, w, backfill);
            d.Reorg? ==> d.ancestor in view && d.ancestor < b.number && d.current == b.number
  {
    var d := Detect(db, maxDepth, view, b, w, backfill);
    if d.Reorg? {
      AncestorFound(db.blocks, view, b.number - 1, maxDepth, d.ancestor);
    }
  }

  /** A step that throws moves no cursor, records no range and revives no block. */
  lemma LeftFrame(db: Db, cfg: Config, view: View, number: nat, w: Worker, backfill: bool)
    ensures var after := LeftByThrow(db, cfg, view, number, w, backfill);
            && after.checkpoints == db.checkpoints && after.jobs == db.jobs
            && forall n: nat :: Live(after.blocks, n) ==> Live(db.blocks, n)
  {
    hide Detect, Blocked;
  }

  lemma IndexFrame(db: Db, cfg: Config, b: Block)
    ensures var after := Index(db, cfg, b);
            && after.blocks == StoreBlock(db.blocks, b)
            && after.txs == db.txs + TxRows(BlockCandidates(cfg, b))
            && after.evidence == Persist(db.evidence, BlockEvidence(cfg, b))
            && after.checkpoints == db.checkpoints && after.jobs == db.jobs
  {
    hide Aggregate, Derive, Persist, TxRows;
    var stored := Stored(db, cfg, b);
    var promoted := Promoted(BlockEvidence(cfg, b), cfg.threshold);
    AggregateFrame(Derive(stored, cfg.contracts, promoted), cfg.prices, promoted);
    DeriveFrame(stored, cfg.contracts, promoted);
  }

  lemma AcceptAdvances(db: Db, cfg: Config, b: Block, w: Worker)
    ensures Accept(db, cfg, b, w).checkpoints == Advance(db.checkpoints, w, b)
    ensures Accept(db, cfg, b, w).jobs == db.jobs
  {
    IndexFrame(db, cfg, b);
    hide Index;
  }

  /** What a completed step does to the block rows, the cursors and the recorded ranges. */
  ghost predicate Outcome(db: Db, cfg: Config, view: View, number: nat, w: Worker, d: Detection, after: Db) {
    if d.Valid? then
      && number != 0 && number in view
      && after.blocks == StoreBlock(db.blocks, view[number])
      && after.checkpoints == Advance(db.checkpoints, w, view[number])
      && after.jobs == db.jobs
    else
      && d.Reorg? && d.current == number && d.ancestor < number && d.ancestor in view
      && after.blocks == Orphan(db.blocks, d.ancestor)
      && after.checkpoints == Rewind(db.checkpoints, w, d.ancestor, view[d.ancestor].hash)
      && after.jobs == Enqueued(db.jobs, cfg, Range(d.ancestor + 1, ReplayEnd(Last(db.checkpoints, w), number)))
  }

  lemma ProcessOutcome(db: Db, cfg: Config, view: View, number: nat, w: Worker, backfill: bool)
    ensures match Process(db, cfg, view, number, w, backfill)
            case Ok(after) =>
              && number != 0 && number in view
              && Outcome(db, cfg, view, number, w, Detect(db, cfg.maxReorgDepth, view, view[number], w, backfill),
                         after)
            case Thrown(e) =>
              || ((number == 0 || number !in view) && e == MissingBlock(number))
              || (number != 0 && number in view
                  && match Detect(db, cfg.maxReorgDepth, view, view[number], w, backfill)
                     case Failed(f) => e == f
                     case Valid => !Fetchable(cfg, view[number]) && e == MissingTransaction
                     case Reorg(_, _, _, ancestor) => Blocked(db, ancestor) && e == StillReferenced)
  {
    hide Index, Recover, Detect, Fetchable, Blocked, Advance, Rewind, Enqueued, StoreBlock, Orphan, ReplayEnd, Last;
    if number != 0 && number in view {
      var b := view[number];
      AncestorInView(db, cfg.maxReorgDepth, view, b, w, backfill);
      IndexFrame(db, cfg, b);
      var d := Detect(db, cfg.maxReorgDepth, view, b, w, backfill);
      if d.Reorg? {
        RecoverFrame(db, cfg, view, number, d.ancestor, w);
      }
    }
  }

  /** Without a cursor, or out of order in a backfill, a block is not compared with anything. */
  lemma UncomparedIsAccepted(db: Db, cfg: Config, view: View, number: nat, w: Worker, backfill: bool)
    requires number != 0 && number in view && Fetchable(cfg, view[number])
    requires Last(db.checkpoints, w).None? || (backfill && number != Last(db.checkpoints, w).value.block + 1)
    ensures Process(db, cfg, view, number, w, backfill) == Ok(Accept(db, cfg, view[number], w))
  {
    hide Accept, Recover, Ancestor, Fetchable;
  }

  /** The two early returns agree with the general case: without candidates there is nothing
      but the block row to store. */
  lemma NoCandidatesOnlyBlock(db: Db, cfg: Config, b: Block)
    requires BlockCandidates(cfg, b) == []
    ensures Index(db, cfg, b) == db.(blocks := StoreBlock(db.blocks, b))
  {
    assert db.txs + TxRows([]) == db.txs;
  }

  method ProcessBlock(s: Store, registry: Registry, cfg: Config, view: View, number: nat, w: Worker, backfill: bool)
    returns (error: Option<Error>)
    requires s.CacheAgrees(cfg.prices)
    modifies s, registry
    ensures s.CacheAgrees(cfg.prices)
    ensures match Process(old(s.Db()), cfg, view, number, w, backfill)
            case Ok(db) => error == None && s.Db() == db
            case Thrown(e) =>
              error == Some(e) && s.Db() == LeftByThrow(old(s.Db()), cfg, view, number, w, backfill)
  {
    hide Index, Recover, Detect, Blocked, PartlyUndone, Fetchable, Advance;
    registry.Refresh(cfg.registry, number);
    if number !in view || number == 0 {
      return Some(MissingBlock(number));
    }
    var b := view[number];
    var check := DetectReorg(s.Db(), cfg.maxReorgDepth, view, b, w, backfill);
    if check.Failed? {
      return Some(check.error);
    }
    if check.Reorg? {
      AncestorInView(s.Db(), cfg.maxReorgDepth, view, b, w, backfill);
      error := RecoverReorg(s, cfg, view, check, w);
      return;
    }
    error := IndexBlock(s, registry.Sets(), cfg, b);
    if error.None? {
      AdvanceTo(s, w, b);
    }
  }

  method IndexBlock(s: Store, known: Known, cfg: Config, b: Block) returns (error: Option<Error>)
    requires known == KnownAt(cfg.registry, b.number)
    requires s.CacheAgrees(cfg.prices)
    modifies s
    ensures s.CacheAgrees(cfg.prices)
    ensures Fetchable(cfg, b) ==> error == None && s.Db() == Index(old(s.Db()), cfg, b)
    ensures !Fetchable(cfg, b) ==> error == Some(MissingTransaction) && s.Db() == old(s.Db())
  {
    var logs := TransfersOf(b.transfers, known.assets);
    if logs == [] {
      NoCandidatesOnlyBlock(s.Db(), cfg, b);
      StoreBlockOnly(s, b);
      return None;
    }
    var candidates := ValidateX402Candidates(logs, b, known, cfg.hardFilter);
    if candidates.Thrown? {
      return Some(candidates.error);
    }
    if candidates.value == [] {
      NoCandidatesOnlyBlock(s.Db(), cfg, b);
      StoreBlockOnly(s, b);
      return None;
    }
    ghost var before := s.Db();
    var evidence := StoreCandidates(s, known, b, candidates.value);
    assert s.Db() == Stored(before, cfg, b);
    PromoteEvidence(s, cfg, evidence);
    return None;
  }

  method PromoteEvidence(s: Store, cfg: Config, evidence: seq<Evidence>)
    requires s.CacheAgrees(cfg.prices)
    modifies s
    ensures s.CacheAgrees(cfg.prices)
    ensures s.Db() == Promote(old(s.Db()), cfg, Promoted(evidence, cfg.threshold))
  {
    var promoted := Promoted(evidence, cfg.threshold);
    if |promoted| > 0 {
      DeriveDomain(s, cfg.contracts, promoted);
      UpdateAggregates(s, cfg.prices, promoted);
    }
  }

  method StoreCandidates(s: Store, known: Known, b: Block, candidates: seq<Candidate>) returns (evidence: seq<Evidence>)
    modifies s`blocks, s`txs, s`evidence
    ensures evidence == AllEvidence(candidates, known)
    ensures s.blocks == StoreBlock(old(s.blocks), b)
    ensures s.txs == old(s.txs) + TxRows(candidates)
    ensures s.evidence == Persist(old(s.evidence), evidence)
  {
    StoreRaw(s, b, candidates);
    evidence := ExtractEvidence(candidates, known);
    PersistEvidence(s, evidence);
  }
}
