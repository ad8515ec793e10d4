/** Undoing everything above a common ancestor and asking for it to be replayed. */
module ReorgRecovery {
  import opened Types
  import opened Sums
  import opened Stores
  import opened Checkpoints
  import opened ReorgDetection
  import opened DailyStats
  import opened Jobs

  function Orphan(blocks: map<nat, BlockRow>, ancestor: nat): map<nat, BlockRow> {
    map n | n in blocks :: if n > ancestor then blocks[n].(orphaned := true) else blocks[n]
  }

  function PaymentsUpTo(payments: map<Key, Payment>, ancestor: nat): map<Key, Payment> {
    map k | k in payments && payments[k].block <= ancestor :: payments[k]
  }

  function EvidenceUpTo(evidence: map<Key, Evidence>, ancestor: nat): map<Key, Evidence> {
    map k | k in evidence && evidence[k].block <= ancestor :: evidence[k]
  }

  function InteractionsUpTo(table: map<InteractionKey, Moment>, ancestor: nat): map<InteractionKey, Moment> {
    map k | k in table && table[k].block <= ancestor :: table[k]
  }

  /** The agent days that lose a payment or some revenue. */
  function LostPayerDays(db: Db, ancestor: nat): set<StatKey> {
    set k | k in db.payments && db.payments[k].block > ancestor :: PayerDay(db.payments[k])
  }

  function LostPayeeDays(db: Db, ancestor: nat): set<StatKey> {
    set k | k in db.evidence && db.evidence[k].block > ancestor && db.evidence[k].block in db.blocks
            && db.evidence[k].payTo in db.agents
      :: StatKey(db.evidence[k].payTo, Day(TimeOf(db, k)))
  }

  function WithoutDomainAbove(db: Db, ancestor: nat): Db {
    db.(interactions := InteractionsUpTo(db.interactions, ancestor),
        payments := PaymentsUpTo(db.payments, ancestor),
        evidence := EvidenceUpTo(db.evidence, ancestor))
  }

  ghost function Invalidate(db: Db, prices: map<Bucket, real>, ancestor: nat): Db {
    var lost := LostPayerDays(db, ancestor) + LostPayeeDays(db, ancestor);
    var d := WithoutDomainAbove(db, ancestor).(stats := db.stats - lost);
    d.(stats := Recompute(d, prices, lost))
  }

  /** A payment that stays refers to evidence that is to go: the foreign key forbids the delete. */
  predicate Blocked(db: Db, ancestor: nat) {
    exists k :: k in db.payments && db.payments[k].block <= ancestor && k in db.evidence
        && db.evidence[k].block > ancestor
  }

  /** What is done by the time the delete of the evidence fails. */
  function PartlyUndone(db: Db, ancestor: nat): Db {
    db.(blocks := Orphan(db.blocks, ancestor),
        interactions := InteractionsUpTo(db.interactions, ancestor),
        payments := PaymentsUpTo(db.payments, ancestor))
  }

  /** Afterwards a block is live exactly when it was and is not above the ancestor; no row is
      lost and none changes otherwise. */
  method MarkOrphanBlocks(s: Store, ancestor: nat)
    modifies s`blocks
    ensures forall n: nat :: Live(s.blocks, n) <==> Live(old(s.blocks), n) && n <= ancestor
    ensures s.blocks.Keys == old(s.blocks).Keys
    ensures forall n :: n in s.blocks ==> s.blocks[n].(orphaned := old(s.blocks)[n].orphaned) == old(s.blocks)[n]
    ensures s.blocks == Orphan(old(s.blocks), ancestor)
  {
    s.blocks := map n | n in s.blocks :: if n > ancestor then s.blocks[n].(orphaned := true) else s.blocks[n];
  }

  method DeleteStats(s: Store, impacted: seq<StatKey>)
    modifies s`stats
    ensures s.stats == old(s.stats) - (set key | key in impacted)
  {
    for i := 0 to |impacted|
      invariant s.stats == old(s.stats) - (set key | key in impacted[..i])
    {
      assert impacted[..i + 1] == impacted[..i] + [impacted[i]];
      s.stats := s.stats - {impacted[i]};
    }
    assert impacted[..|impacted|] == impacted;
  }

  /** The agent days that lose something, each once. */
  method ImpactedStats(s: Store, ancestor: nat) returns (impacted: seq<StatKey>)
    ensures Distinct(impacted)
    ensures (set key | key in impacted) == LostPayerDays(s.Db(), ancestor) + LostPayeeDays(s.Db(), ancestor)
  {
    var payers := List(LostPayerDays(s.Db(), ancestor));
    var payees := List(LostPayeeDays(s.Db(), ancestor));
    impacted := DedupeKeys(payers + payees);
  }

  /** The check the database makes when evidence above the ancestor is deleted. */
  predicate Referenced(payments: map<Key, Payment>, evidence: map<Key, Evidence>, ancestor: nat) {
    exists k :: k in payments && k in evidence && evidence[k].block > ancestor
  }

  lemma BlockedIsReferenced(db: Db, ancestor: nat)
    ensures Blocked(db, ancestor) <==> Referenced(PaymentsUpTo(db.payments, ancestor), db.evidence, ancestor)
  {
    if Blocked(db, ancestor) {
      var k :| k in db.payments && db.payments[k].block <= ancestor && k in db.evidence
               && db.evidence[k].block > ancestor;
      assert k in PaymentsUpTo(db.payments, ancestor);
    }
  }

  method InvalidateDomainData(s: Store, source: map<Bucket, real>, ancestor: nat) returns (error: Option<Error>)
    requires s.CacheAgrees(source)
    modifies s`interactions, s`payments, s`evidence, s`stats, s`prices
    ensures s.CacheAgrees(source)
    ensures if Blocked(old(s.Db()), ancestor)
            then error == Some(StillReferenced)
                 && s.Db() == old(s.Db()).(interactions := InteractionsUpTo(old(s.interactions), ancestor),
                                           payments := PaymentsUpTo(old(s.payments), ancestor))
            else error == None && s.Db() == Invalidate(old(s.Db()), source, ancestor)
  {
    hide Recompute, LostPayerDays, LostPayeeDays, Blocked, Referenced;
    hide InteractionsUpTo, PaymentsUpTo, EvidenceUpTo;
    BlockedIsReferenced(s.Db(), ancestor);
    var impacted := ImpactedStats(s, ancestor);
    s.interactions := InteractionsUpTo(s.interactions, ancestor);
    s.payments := PaymentsUpTo(s.payments, ancestor);
    if Referenced(s.payments, s.evidence, ancestor) {
      return Some(StillReferenced);
    }
    s.evidence := EvidenceUpTo(s.evidence, ancestor);
    DeleteStats(s, impacted);
    RecomputeAgentDailyStats(s, source, impacted);
    return None;
  }

  /** The last block of the range to replay: the worker's old head or the current block. */
  function ReplayEnd(last: Option<Checkpoint>, current: nat): nat {
    if last.Some? && last.value.block > current then last.value.block else current
  }

  ghost function Recover(db: Db, cfg: Config, view: View, current: nat, ancestor: nat, w: Worker): Db
    requires ancestor in view
  {
    var end := ReplayEnd(Last(db.checkpoints, w), current);
    var d := Invalidate(db.(blocks := Orphan(db.blocks, ancestor)), cfg.prices, ancestor);
    d.(checkpoints := Rewind(db.checkpoints, w, ancestor, view[ancestor].hash),
       jobs := if end > ancestor then Enqueued(db.jobs, cfg, Range(ancestor + 1, end)) else db.jobs)
  }

  lemma RecoverFrame(db: Db, cfg: Config, view: View, current: nat, ancestor: nat, w: Worker)
    requires ancestor in view && ancestor < current
    ensures var after := Recover(db, cfg, view, current, ancestor, w);
            && after.blocks == Orphan(db.blocks, ancestor)
            && after.checkpoints == Rewind(db.checkpoints, w, ancestor, view[ancestor].hash)
            && after.jobs == Enqueued(db.jobs, cfg, Range(ancestor + 1, ReplayEnd(Last(db.checkpoints, w), current)))
            && after.evidence == EvidenceUpTo(db.evidence, ancestor)
            && after.payments == PaymentsUpTo(db.payments, ancestor)
            && after.interactions == InteractionsUpTo(db.interactions, ancestor)
            && after.txs == db.txs && after.agents == db.agents && after.services == db.services
  {
    hide Recompute;
  }

  method RecoverReorg(s: Store, cfg: Config, view: View, d: Detection, w: Worker) returns (error: Option<Error>)
    requires d.Reorg? && d.ancestor in view
    requires s.CacheAgrees(cfg.prices)
    modifies s
    ensures s.CacheAgrees(cfg.prices)
    ensures if Blocked(old(s.Db()), d.ancestor)
            then error == Some(StillReferenced) && s.Db() == PartlyUndone(old(s.Db()), d.ancestor)
            else error == None && s.Db() == Recover(old(s.Db()), cfg, view, d.current, d.ancestor, w)
  {
    hide Invalidate, Orphan, Rewind, Enqueued, Last, InteractionsUpTo, PaymentsUpTo;
    var last := Last(s.checkpoints, w);
    ghost var orphaned := s.Db().(blocks := Orphan(s.blocks, d.ancestor));
    MarkOrphanBlocks(s, d.ancestor);
    assert s.Db() == orphaned;
    assert Blocked(orphaned, d.ancestor) <==> Blocked(old(s.Db()), d.ancestor);
    error := InvalidateDomainData(s, cfg.prices, d.ancestor);
    if error.Some? {
      return;
    }
    ghost var cleaned := s.Db();
    assert cleaned == Invalidate(orphaned, cfg.prices, d.ancestor);
    RewindTo(s, w, d.ancestor, view[d.ancestor].hash);
    var replayEnd := if last.Some? && last.value.block > d.current then last.value.block else d.current;
    if replayEnd > d.ancestor {
      var queued := EnqueueBackfillRange(s, cfg, Range(d.ancestor + 1, replayEnd));
    }
  }
}
