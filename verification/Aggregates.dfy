/** USD values of promoted payments and the daily rows they affect. */
module Aggregates {
  import opened Types
  import opened Sums
  import opened Stores
  import opened PriceCache
  import opened Domain
  import opened DailyStats

  function PriceOf(p: Payment): Bucket { Bucket(p.asset, Hour(p.time)) }

  function ConvertOne(p: Payment, prices: map<Bucket, real>): Payment {
    if PriceOf(p) in prices then p.(usd := Some(UsdOf(p.amount, prices[PriceOf(p)]))) else p
  }

  function Convert(payments: map<Key, Payment>, prices: map<Bucket, real>, keys: set<Key>): map<Key, Payment> {
    map k | k in payments :: if k in keys then ConvertOne(payments[k], prices) else payments[k]
  }

  /** The payer days of the payments named, and the payee days of their evidence when the
      payee is itself an agent. */
  function PayerDays(db: Db, keys: set<Key>): set<StatKey> {
    set k | k in keys && k in db.payments :: PayerDay(db.payments[k])
  }

  function PayeeDays(db: Db, keys: set<Key>): set<StatKey> {
    set k | k in keys && k in db.evidence && db.evidence[k].block in db.blocks && db.evidence[k].payTo in db.agents
      :: StatKey(db.evidence[k].payTo, Day(TimeOf(db, k)))
  }

  ghost function Aggregate(db: Db, prices: map<Bucket, real>, es: seq<Evidence>): Db {
    var d := db.(payments := Convert(db.payments, prices, Keys(es)));
    d.(stats := Recompute(d, prices, PayerDays(d, Keys(es)) + PayeeDays(d, Keys(es))))
  }

  lemma AggregateFrame(db: Db, prices: map<Bucket, real>, es: seq<Evidence>)
    ensures var after := Aggregate(db, prices, es);
            && after == db.(payments := after.payments, stats := after.stats)
            && after.payments == Convert(db.payments, prices, Keys(es))
  {
    hide Recompute, Convert, PayerDays, PayeeDays;
  }

  lemma PayeeDaysGrow(db: Db, ks: set<Key>, k: Key)
    ensures PayeeDays(db, ks + {k}) == PayeeDays(db, ks) + PayeeDays(db, {k})
  {
  }

  method CollectAffectedAgentDates(db: Db, keys: set<Key>) returns (affected: seq<StatKey>)
    ensures Distinct(affected)
    ensures (set key | key in affected) == PayerDays(db, keys) + PayeeDays(db, keys)
  {
    var all := List(PayerDays(db, keys));
    var joined := set k | k in keys && k in db.evidence && db.evidence[k].block in db.blocks;
    var earned := List(joined);
    ghost var seen: set<Key> := {};
    for i := 0 to |earned|
      invariant forall k :: k in seen <==> k in earned[..i]
      invariant forall key :: key in all <==> key in PayerDays(db, keys) + PayeeDays(db, seen)
    {
      var k := earned[i];
      PayeeDaysGrow(db, seen, k);
      assert earned[..i + 1] == earned[..i] + [k];
      seen := seen + {k};
      if db.evidence[k].payTo in db.agents {
        all := all + [StatKey(db.evidence[k].payTo, Day(TimeOf(db, k)))];
      }
    }
    assert earned[..|earned|] == earned;
    assert seen == joined;
    assert PayeeDays(db, joined) == PayeeDays(db, keys);
    affected := DedupeKeys(all);
  }

  method BackfillPaymentUsd(s: Store, prices: map<Bucket, real>, keys: set<Key>)
    modifies s`payments
    ensures s.payments == Convert(old(s.payments), prices, keys)
  {
    var rows := List(set k | k in keys && k in s.payments);
    for i := 0 to |rows|
      invariant forall k :: k in s.payments <==> k in old(s.payments)
      invariant forall k :: k in s.payments ==>
                  s.payments[k] == if k in rows[..i] then ConvertOne(old(s.payments)[k], prices) else old(s.payments)[k]
    {
      assert rows[..i + 1] == rows[..i] + [rows[i]];
      assert rows[i] !in rows[..i];
      var p := s.payments[rows[i]];
      if PriceOf(p) !in prices {
        continue;
      }
      s.payments := s.payments[rows[i] := p.(usd := Some(UsdOf(p.amount, prices[PriceOf(p)])))];
    }
    assert rows[..|rows|] == rows;
  }

  method FetchPrices(s: Store, source: map<Bucket, real>, keys: set<Key>) returns (prices: map<Bucket, real>)
    requires s.CacheAgrees(source)
    modifies s`prices
    ensures s.CacheAgrees(source)
    ensures Convert(s.payments, prices, keys) == Convert(s.payments, source, keys)
  {
    var rows := List(set k | k in keys && k in s.payments);
    var requests: seq<PriceRequest> := [];
    for i := 0 to |rows|
      invariant forall j :: 0 <= j < i ==> PriceOf(s.payments[rows[j]]) in Buckets(requests)
      invariant s.CacheAgrees(source)
    {
      var p := s.payments[rows[i]];
      ghost var before := requests;
      requests := requests + [PriceRequest(p.asset, p.time), PriceRequest(WETH, p.time)];
      assert requests[|before|] == PriceRequest(p.asset, p.time);
      assert forall r :: r in before ==> r in requests;
      assert Buckets(before) <= Buckets(requests);
      assert BucketOf(requests[|before|]) in Buckets(requests);
    }
    ghost var asked;
    prices, asked := LoadHourlyPrices(s, source, requests);
    forall k | k in keys && k in s.payments
      ensures ConvertOne(s.payments[k], prices) == ConvertOne(s.payments[k], source)
    {
      assert k in rows;
      var j :| 0 <= j < |rows| && rows[j] == k;
      assert PriceOf(s.payments[k]) in Buckets(requests);
    }
  }

  method UpdateAggregates(s: Store, source: map<Bucket, real>, es: seq<Evidence>)
    requires s.CacheAgrees(source)
    modifies s`payments, s`stats, s`prices
    ensures s.CacheAgrees(source)
    ensures s.Db() == Aggregate(old(s.Db()), source, es)
  {
    var keys := Keys(es);
    var prices := FetchPrices(s, source, keys);
    BackfillPaymentUsd(s, prices, keys);
    var affected := CollectAffectedAgentDates(s.Db(), keys);
    RecomputeAgentDailyStats(s, source, affected);
  }
}
