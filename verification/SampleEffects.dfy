/** What accepting a block with one sample transfer adds to a store that does not have it. */
module SampleEffects {
  import opened Types
  import opened Candidates
  import opened Domain
  import opened Orchestrator
  import opened BlockEffects
  import opened Confluence
  import opened Samples
  import opened Standings

  lemma OneDelta(db: Db, t: Transfer, number: nat, hash: string, parent: string, time: nat, w: Worker)
    requires Sample(t) && Key(t.tx, t.logIndex) !in db.evidence && Key(t.tx, t.logIndex) !in db.payments
    ensures var b, k := Moving(t, number, hash, parent, time), Key(t.tx, t.logIndex);
            var after := Accept(db, SETTINGS, b, w);
            && Keys(PromotedOf(SETTINGS, b)) == {k}
            && after.evidence == db.evidence[k := MovedEvidence(t, number)]
            && after.agents.Keys == db.agents.Keys + {t.payer}
            && after.payments.Keys == db.payments.Keys + {k}
            && after.payments[k].payer == t.payer && after.payments[k].time == time
  {
    var b, k := Moving(t, number, hash, parent, time), Key(t.tx, t.logIndex);
    var d, after := DeltaOf(SETTINGS, b), Accept(db, SETTINGS, b, w);
    hide *;
    WhatOneAdds(t, number, hash, parent, time);
    NewHeight(db, t, number, hash, parent, time);
    AcceptAddsAsIs(db, SETTINGS, b, w);
    AddedTables(CoreOf(db), CoreOf(after), d, SETTINGS.prices);
    KeysAfter(CoreOf(db), d, SETTINGS.prices);
    PaidOnce(db.payments, d.payments, k, MovedEvidence(t, number), time);
    MovedBy(t, number);
    AddOne(db.evidence, k, MovedEvidence(t, number));
    CoreTables(db);
    CoreTables(after);
  }

  lemma AddOne<K, V>(m: map<K, V>, k: K, v: V)
    ensures m + map[k := v] == m[k := v]
  {
  }

  lemma PaidOnce(p: map<Key, Payment>, added: map<Key, Payment>, k: Key, e: Evidence, time: nat)
    requires added == map[k := PaymentOf(e, time)]
    ensures var after := WithPayments(p, added, SETTINGS.prices);
            k in after && after[k].payer == e.payer && after[k].time == time
  {
  }

  lemma MovedBy(t: Transfer, number: nat)
    ensures MovedEvidence(t, number).payer == t.payer
  {
  }

  lemma CoreTables(db: Db)
    ensures var c := CoreOf(db); c.evidence == db.evidence && c.agents == db.agents && c.payments == db.payments
  {
  }

  lemma KeysAfter(c: Core, d: Delta, prices: map<Bucket, real>)
    ensures Apply(c, d, prices).agents.Keys == c.agents.Keys + d.agents.Keys
    ensures Apply(c, d, prices).payments.Keys == c.payments.Keys + d.payments.Keys
  {
    hide WithPayments;
    forall k { WithPaymentsAt(c.payments, d.payments, prices, k); }
  }

  lemma NewHeight(db: Db, t: Transfer, number: nat, hash: string, parent: string, time: nat)
    requires Sample(t) && Key(t.tx, t.logIndex) !in db.evidence
    ensures KeepsHeight(db.evidence, SETTINGS, Moving(t, number, hash, parent, time))
  {
    MovingBlock(t, number, hash, parent, time);
    hide BlockEvidence;
  }

  lemma WhatOneAdds(t: Transfer, number: nat, hash: string, parent: string, time: nat)
    requires Sample(t)
    ensures var b, k, e := Moving(t, number, hash, parent, time), Key(t.tx, t.logIndex), MovedEvidence(t, number);
            var d := DeltaOf(SETTINGS, b);
            && Keys(PromotedOf(SETTINGS, b)) == {k}
            && d.evidence == map[k := e] && d.payments == map[k := PaymentOf(e, time)]
            && d.agents.Keys == {t.payer}
  {
    var e := MovedEvidence(t, number);
    MovingBlock(t, number, hash, parent, time);
    OnePiece(e, SETTINGS.threshold, time);
    OneSeen(e);
    hide BlockEvidence, Promoted, EvidenceAdded, PaymentsAdded, TxRows, BlockCandidates, InteractionsAdded, See, Keys;
  }

  lemma OneSeen(e: Evidence)
    ensures See(map[], SETTINGS.contracts, [e]).Keys == {e.payer} && Keys([e]) == {e.key}
  {
    assert [e][..0] == [] && See(map[], SETTINGS.contracts, []) == map[];
  }
}
