/** agent_daily_stats: recomputed from scratch for the agent and day keys a change touched. */
module DailyStats {
  import opened Types
  import opened Sums
  import opened Stores
  import opened PriceCache

  const WETH := Address("0x4200000000000000000000000000000000000006")

  function UsdOf(amount: nat, price: real): real { amount as real / 1000000.0 * price }

  // -------------------------------------------------------- specification

  function PayerDay(p: Payment): StatKey { StatKey(p.payer, Day(p.time)) }

  function Usd(p: Payment): real { if p.usd.Some? then p.usd.value else 0.0 }

  function GasUsd(db: Db, prices: map<Bucket, real>, k: Key): real
    requires k in db.payments && k.tx in db.txs
  {
    var b := Bucket(WETH, Hour(db.payments[k].time));
    var tx := db.txs[k.tx].detail;
    (tx.gasUsed * tx.gasPrice) as real / 1000000000000000000.0 * (if b in prices then prices[b] else 0.0)
  }

  /** Evidence that counts as revenue: its block is canonical. */
  predicate Counted(db: Db, k: Key) {
    k in db.evidence && db.evidence[k].block in db.blocks && !db.blocks[db.evidence[k].block].orphaned
  }

  function TimeOf(db: Db, k: Key): nat
    requires k in db.evidence && db.evidence[k].block in db.blocks
  {
    db.blocks[db.evidence[k].block].time
  }

  function PayeeDay(db: Db, k: Key): StatKey
    requires Counted(db, k)
  {
    StatKey(db.evidence[k].payTo, Day(TimeOf(db, k)))
  }

  function AssetHour(db: Db, k: Key): Bucket
    requires Counted(db, k)
  {
    Bucket(db.evidence[k].asset, Hour(TimeOf(db, k)))
  }

  /** What one agent and one day accumulate. */
  datatype Entry = Entry(
    txs: set<Hash>, count: nat, spent: real, gas: real, revenue: real, services: set<Address>)

  const EMPTY_ENTRY := Entry({}, 0, 0.0, 0.0, 0.0, {})

  function RowOf(e: Entry): StatsRow {
    StatsRow(|e.txs|, e.count, e.spent, e.gas, e.revenue, |e.services|)
  }

  ghost function UsdMap(db: Db, ks: set<Key>): map<Key, real> {
    map k | k in ks && k in db.payments :: Usd(db.payments[k])
  }

  ghost function GasMap(db: Db, prices: map<Bucket, real>, ks: set<Key>): map<Key, real> {
    map k | k in ks && k in db.payments && k.tx in db.txs :: GasUsd(db, prices, k)
  }

  ghost function RevenueMap(db: Db, prices: map<Bucket, real>, ks: set<Key>): map<Key, real> {
    map k | k in ks && Counted(db, k) && AssetHour(db, k) in prices
      :: UsdOf(db.evidence[k].amount, prices[AssetHour(db, k)])
  }

  ghost function TxsOf(ks: set<Key>): set<Hash> { set k | k in ks :: k.tx }

  ghost function ServicesOf(db: Db, ks: set<Key>): set<Address> {
    set k | k in ks && k in db.payments :: db.payments[k].payTo
  }

  /** The payment side of an entry, over a set of payments. */
  ghost function PaidOver(db: Db, prices: map<Bucket, real>, ks: set<Key>): Entry {
    Entry(TxsOf(ks), |ks|, Sum(UsdMap(db, ks)), Sum(GasMap(db, prices, ks)), 0.0, ServicesOf(db, ks))
  }

  ghost function RevenueOver(db: Db, prices: map<Bucket, real>, ks: set<Key>): real {
    Sum(RevenueMap(db, prices, ks))
  }

  ghost function PaidKeys(db: Db, key: StatKey): set<Key> {
    set k | k in db.payments && k.tx in db.txs && PayerDay(db.payments[k]) == key
  }

  ghost function RevenueKeys(db: Db, prices: map<Bucket, real>, key: StatKey): set<Key> {
    set k | k in db.evidence && Counted(db, k) && PayeeDay(db, k) == key && AssetHour(db, k) in prices
  }

  /** The row an agent and day should have, or none when nothing contributes. */
  ghost function SpecRow(db: Db, prices: map<Bucket, real>, key: StatKey): Option<StatsRow> {
    var paid, earned := PaidKeys(db, key), RevenueKeys(db, prices, key);
    if paid == {} && earned == {} then None
    else Some(RowOf(PaidOver(db, prices, paid).(revenue := RevenueOver(db, prices, earned))))
  }

  /** The table after recomputing exactly the requested keys. */
  ghost function Recompute(db: Db, prices: map<Bucket, real>, keys: set<StatKey>): map<StatKey, StatsRow> {
    map key | key in db.stats.Keys + keys && (key in keys ==> SpecRow(db, prices, key).Some?)
      :: if key in keys then SpecRow(db, prices, key).value else db.stats[key]
  }

  // --------------------------------------------------------- accumulation

  lemma SumGrows(before: map<Key, real>, after: map<Key, real>, k: Key)
    requires k in after && after - {k} == before
    ensures Sum(after) == Sum(before) + after[k]
  {
    SumRemove(after, k);
  }

  function AddPayment(e: Entry, db: Db, prices: map<Bucket, real>, k: Key): Entry
    requires k in db.payments && k.tx in db.txs
  {
    Entry(e.txs + {k.tx}, e.count + 1, e.spent + Usd(db.payments[k]), e.gas + GasUsd(db, prices, k), e.revenue,
          e.services + {db.payments[k].payTo})
  }

  lemma PaidGrows(db: Db, prices: map<Bucket, real>, ks: set<Key>, k: Key)
    requires k in db.payments && k.tx in db.txs && k !in ks
    ensures PaidOver(db, prices, ks + {k}) == AddPayment(PaidOver(db, prices, ks), db, prices, k)
  {
    assert UsdMap(db, ks + {k}) - {k} == UsdMap(db, ks);
    SumGrows(UsdMap(db, ks), UsdMap(db, ks + {k}), k);
    assert GasMap(db, prices, ks + {k}) - {k} == GasMap(db, prices, ks);
    SumGrows(GasMap(db, prices, ks), GasMap(db, prices, ks + {k}), k);
    assert TxsOf(ks + {k}) == TxsOf(ks) + {k.tx};
    assert ServicesOf(db, ks + {k}) == ServicesOf(db, ks) + {db.payments[k].payTo};
  }

  lemma RevenueGrows(db: Db, prices: map<Bucket, real>, ks: set<Key>, k: Key)
    requires Counted(db, k) && AssetHour(db, k) in prices && k !in ks
    ensures RevenueOver(db, prices, ks + {k})
         == RevenueOver(db, prices, ks) + UsdOf(db.evidence[k].amount, prices[AssetHour(db, k)])
  {
    assert RevenueMap(db, prices, ks + {k}) - {k} == RevenueMap(db, prices, ks);
    SumGrows(RevenueMap(db, prices, ks), RevenueMap(db, prices, ks + {k}), k);
  }

  lemma NothingOver(db: Db, prices: map<Bucket, real>)
    ensures PaidOver(db, prices, {}) == EMPTY_ENTRY
    ensures RevenueOver(db, prices, {}) == 0.0
  {
  }

  ghost function PaidIn(db: Db, rows: seq<Key>, key: StatKey): set<Key> {
    set k | k in rows && k in PaidKeys(db, key)
  }

  ghost function EarnedIn(db: Db, prices: map<Bucket, real>, rows: seq<Key>, key: StatKey): set<Key> {
    set k | k in rows && k in RevenueKeys(db, prices, key)
  }

  lemma OneMore(rows: seq<Key>, i: nat, wanted: set<Key>)
    requires i < |rows| && Distinct(rows)
    ensures rows[i] !in rows[..i]
    ensures (set k | k in rows[..i + 1] && k in wanted)
         == (set k | k in rows[..i] && k in wanted) + if rows[i] in wanted then {rows[i]} else {}
  {
    assert rows[..i + 1] == rows[..i] + [rows[i]];
  }

  /** The entry `agg` should hold for one key after reading the payments and evidence listed. */
  ghost predicate Accumulated(
    db: Db, prices: map<Bucket, real>, requested: set<StatKey>, paid: set<Key>, earned: set<Key>,
    agg: map<StatKey, Entry>, key: StatKey)
  {
    && (key in agg <==> key in requested && (paid != {} || earned != {}))
    && (key in agg ==> agg[key] == PaidOver(db, prices, paid).(revenue := RevenueOver(db, prices, earned)))
  }

  function EntryAt(agg: map<StatKey, Entry>, key: StatKey): Entry {
    if key in agg then agg[key] else EMPTY_ENTRY
  }

  lemma PaidStep(db: Db, prices: map<Bucket, real>, requested: set<StatKey>, rows: seq<Key>, i: nat,
                 before: map<StatKey, Entry>, after: map<StatKey, Entry>, key: StatKey)
    requires i < |rows| && Distinct(rows) && rows[i] in db.payments && rows[i].tx in db.txs
    requires Accumulated(db, prices, requested, PaidIn(db, rows[..i], key), {}, before, key)
    requires var mine := PayerDay(db.payments[rows[i]]);
             after == if mine in requested
                      then before[mine := AddPayment(EntryAt(before, mine), db, prices, rows[i])] else before
    ensures Accumulated(db, prices, requested, PaidIn(db, rows[..i + 1], key), {}, after, key)
  {
    NothingOver(db, prices);
    OneMore(rows, i, PaidKeys(db, key));
    if key == PayerDay(db.payments[rows[i]]) {
      PaidGrows(db, prices, PaidIn(db, rows[..i], key), rows[i]);
    }
  }

  ghost predicate PaidDone(
    db: Db, prices: map<Bucket, real>, requested: set<StatKey>, rows: seq<Key>, agg: map<StatKey, Entry>)
  {
    forall key :: Accumulated(db, prices, requested, PaidIn(db, rows, key), {}, agg, key)
  }

  method AccumulatePayments(db: Db, prices: map<Bucket, real>, requested: set<StatKey>, rows: seq<Key>)
    returns (agg: map<StatKey, Entry>)
    requires Distinct(rows)
    requires forall i :: 0 <= i < |rows| ==> rows[i] in db.payments && rows[i].tx in db.txs
    ensures PaidDone(db, prices, requested, rows, agg)
  {
    agg := map[];
    for i := 0 to |rows|
      invariant PaidDone(db, prices, requested, rows[..i], agg)
    {
      ghost var before := agg;
      var p := db.payments[rows[i]];
      var mine := PayerDay(p);
      if mine in requested {
        var e := if mine in agg then agg[mine] else EMPTY_ENTRY;
        agg := agg[mine := Entry(e.txs + {rows[i].tx}, e.count + 1, e.spent + Usd(p),
                                 e.gas + GasUsd(db, prices, rows[i]), e.revenue, e.services + {p.payTo})];
      }
      ghost var next := rows[..i + 1];
      forall key
        ensures Accumulated(db, prices, requested, PaidIn(db, next, key), {}, agg, key)
      {
        PaidStep(db, prices, requested, rows, i, before, agg, key);
      }
    }
    assert rows[..|rows|] == rows;
  }

  lemma RevenueStep(db: Db, prices: map<Bucket, real>, requested: set<StatKey>, paid: set<Key>, rows: seq<Key>, i: nat,
                    before: map<StatKey, Entry>, after: map<StatKey, Entry>, key: StatKey)
    requires i < |rows| && Distinct(rows) && Counted(db, rows[i])
    requires Accumulated(db, prices, requested, paid, EarnedIn(db, prices, rows[..i], key), before, key)
    requires var mine, hour := PayeeDay(db, rows[i]), AssetHour(db, rows[i]);
             after == if mine in requested && hour in prices
                      then var e := EntryAt(before, mine);
                           before[mine := e.(revenue := e.revenue + UsdOf(db.evidence[rows[i]].amount, prices[hour]))]
                      else before
    ensures Accumulated(db, prices, requested, paid, EarnedIn(db, prices, rows[..i + 1], key), after, key)
  {
    NothingOver(db, prices);
    OneMore(rows, i, RevenueKeys(db, prices, key));
    if key == PayeeDay(db, rows[i]) && AssetHour(db, rows[i]) in prices {
      RevenueGrows(db, prices, EarnedIn(db, prices, rows[..i], key), rows[i]);
    }
  }

  ghost predicate EarnedDone(
    db: Db, prices: map<Bucket, real>, requested: set<StatKey>, paid: seq<Key>, rows: seq<Key>,
    agg: map<StatKey, Entry>)
  {
    forall key ::
      Accumulated(db, prices, requested, PaidIn(db, paid, key), EarnedIn(db, prices, rows, key), agg, key)
  }

  lemma RevenueStepAll(db: Db, prices: map<Bucket, real>, requested: set<StatKey>, paid: seq<Key>, rows: seq<Key>,
                       i: nat, before: map<StatKey, Entry>, after: map<StatKey, Entry>)
    requires i < |rows| && Distinct(rows) && Counted(db, rows[i])
    requires EarnedDone(db, prices, requested, paid, rows[..i], before)
    requires var mine, hour := PayeeDay(db, rows[i]), AssetHour(db, rows[i]);
             after == if mine in requested && hour in prices
                      then var e := EntryAt(before, mine);
                           before[mine := e.(revenue := e.revenue + UsdOf(db.evidence[rows[i]].amount, prices[hour]))]
                      else before
    ensures EarnedDone(db, prices, requested, paid, rows[..i + 1], after)
  {
    var next := rows[..i + 1];
    forall key
      ensures Accumulated(db, prices, requested, PaidIn(db, paid, key), EarnedIn(db, prices, next, key), after, key)
    {
      RevenueStep(db, prices, requested, PaidIn(db, paid, key), rows, i, before, after, key);
    }
  }

  method AccumulateRevenue(db: Db, prices: map<Bucket, real>, requested: set<StatKey>, ghost paid: seq<Key>,
                           rows: seq<Key>, paidEntries: map<StatKey, Entry>)
    returns (agg: map<StatKey, Entry>)
    requires Distinct(rows) && forall i :: 0 <= i < |rows| ==> Counted(db, rows[i])
    requires PaidDone(db, prices, requested, paid, paidEntries)
    ensures EarnedDone(db, prices, requested, paid, rows, agg)
  {
    agg := paidEntries;
    for i := 0 to |rows|
      invariant EarnedDone(db, prices, requested, paid, rows[..i], agg)
    {
      ghost var before := agg;
      var mine, hour := PayeeDay(db, rows[i]), AssetHour(db, rows[i]);
      if mine in requested && hour in prices {
        var e := if mine in agg then agg[mine] else EMPTY_ENTRY;
        agg := agg[mine := e.(revenue := e.revenue + UsdOf(db.evidence[rows[i]].amount, prices[hour]))];
      }
      RevenueStepAll(db, prices, requested, paid, rows, i, before, agg);
    }
    assert rows[..|rows|] == rows;
  }

  // -------------------------------------------------------------- methods

  /** Keeps one copy of each key. */
  method DedupeKeys(keys: seq<StatKey>) returns (unique: seq<StatKey>)
    ensures Distinct(unique) && forall k :: k in unique <==> k in keys
  {
    unique := [];
    for i := 0 to |keys|
      invariant Distinct(unique) && forall k :: k in unique <==> k in keys[..i]
    {
      assert keys[..i + 1] == keys[..i] + [keys[i]];
      if keys[i] !in unique {
        unique := unique + [keys[i]];
      }
    }
    assert keys[..|keys|] == keys;
  }

  ghost predicate ListsPaid(db: Db, agents: set<Address>, rows: seq<Key>) {
    Lists(rows, set k | k in db.payments && k.tx in db.txs && db.payments[k].payer in agents)
  }

  ghost predicate ListsEarned(db: Db, agents: set<Address>, rows: seq<Key>) {
    Lists(rows, set k | k in db.evidence && Counted(db, k) && db.evidence[k].payTo in agents)
  }

  lemma ListedRows(db: Db, prices: map<Bucket, real>, agents: set<Address>, paid: seq<Key>, earned: seq<Key>,
                   key: StatKey)
    requires ListsPaid(db, agents, paid) && ListsEarned(db, agents, earned)
    requires key.agent in agents
    ensures PaidIn(db, paid, key) == PaidKeys(db, key)
    ensures EarnedIn(db, prices, earned, key) == RevenueKeys(db, prices, key)
  {
  }

  function RevenueRequest(db: Db, k: Key): PriceRequest
    requires Counted(db, k)
  {
    PriceRequest(db.evidence[k].asset, TimeOf(db, k))
  }

  function PriceRequests(db: Db, paid: seq<Key>, earned: seq<Key>): seq<PriceRequest>
    requires forall i :: 0 <= i < |paid| ==> paid[i] in db.payments
    requires forall i :: 0 <= i < |earned| ==> Counted(db, earned[i])
  {
    seq(|paid|, i requires 0 <= i < |paid| => PriceRequest(WETH, db.payments[paid[i]].time))
    + seq(|earned|, i requires 0 <= i < |earned| => RevenueRequest(db, earned[i]))
  }

  lemma RequestsCover(db: Db, paid: seq<Key>, earned: seq<Key>)
    requires forall i :: 0 <= i < |paid| ==> paid[i] in db.payments
    requires forall i :: 0 <= i < |earned| ==> Counted(db, earned[i])
    ensures forall k :: k in paid ==>
              Bucket(WETH, Hour(db.payments[k].time)) in Buckets(PriceRequests(db, paid, earned))
    ensures forall k :: k in earned ==> AssetHour(db, k) in Buckets(PriceRequests(db, paid, earned))
  {
    var requests := PriceRequests(db, paid, earned);
    forall k | k in paid
      ensures Bucket(WETH, Hour(db.payments[k].time)) in Buckets(requests)
    {
      var i :| 0 <= i < |paid| && paid[i] == k;
      assert requests[i] in requests;
    }
    forall k | k in earned
      ensures AssetHour(db, k) in Buckets(requests)
    {
      var i :| 0 <= i < |earned| && earned[i] == k;
      assert requests[|paid| + i] in requests;
    }
  }

  /** Restricting the prices to buckets that cover the rows changes no entry. */
  lemma EnoughPrices(db: Db, source: map<Bucket, real>, buckets: set<Bucket>, paid: set<Key>, earned: set<Key>)
    requires forall k :: k in paid && k in db.payments ==> Bucket(WETH, Hour(db.payments[k].time)) in buckets
    requires forall k :: k in earned && Counted(db, k) ==> AssetHour(db, k) in buckets
    ensures PaidOver(db, Known(source, buckets), paid) == PaidOver(db, source, paid)
    ensures RevenueOver(db, Known(source, buckets), earned) == RevenueOver(db, source, earned)
  {
    forall k | k in paid && k in db.payments && k.tx in db.txs
      ensures GasUsd(db, Known(source, buckets), k) == GasUsd(db, source, k)
    {
    }
    assert GasMap(db, Known(source, buckets), paid) == GasMap(db, source, paid);
    assert RevenueMap(db, Known(source, buckets), earned) == RevenueMap(db, source, earned);
  }

  lemma AggregateIsSpec(db: Db, source: map<Bucket, real>, requested: set<StatKey>, agents: set<Address>,
                        paid: seq<Key>, earned: seq<Key>, agg: map<StatKey, Entry>, key: StatKey)
    requires ListsPaid(db, agents, paid) && ListsEarned(db, agents, earned)
    requires forall i :: 0 <= i < |paid| ==> paid[i] in db.payments
    requires forall i :: 0 <= i < |earned| ==> Counted(db, earned[i])
    requires EarnedDone(db, Known(source, Buckets(PriceRequests(db, paid, earned))), requested, paid, earned, agg)
    requires key in requested ==> key.agent in agents
    ensures key in agg <==> key in requested && SpecRow(db, source, key).Some?
    ensures key in agg ==> RowOf(agg[key]) == SpecRow(db, source, key).value
  {
    var buckets := Buckets(PriceRequests(db, paid, earned));
    var prices := Known(source, buckets);
    assert Accumulated(db, prices, requested, PaidIn(db, paid, key), EarnedIn(db, prices, earned, key), agg, key);
    if key in requested {
      RequestsCover(db, paid, earned);
      assert EarnedIn(db, prices, earned, key) == EarnedIn(db, source, earned, key);
      EnoughPrices(db, source, buckets, PaidIn(db, paid, key), EarnedIn(db, source, earned, key));
      ListedRows(db, source, agents, paid, earned, key);
    }
  }

  method WriteRows(s: Store, unique: seq<StatKey>, agg: map<StatKey, Entry>)
    modifies s`stats
    ensures s.stats == map key | key in old(s.stats).Keys + agg.Keys && (key in unique ==> key in agg)
                         :: if key in agg then RowOf(agg[key]) else old(s.stats)[key]
  {
    for i := 0 to |unique|
      invariant forall key :: key in s.stats <==> key in old(s.stats) && (key in unique[..i] ==> key in agg)
      invariant forall key :: key in s.stats ==> s.stats[key] == old(s.stats)[key]
    {
      assert unique[..i + 1] == unique[..i] + [unique[i]];
      if unique[i] !in agg {
        s.stats := s.stats - {unique[i]};
      }
    }
    assert unique[..|unique|] == unique;
    var kept := s.stats;
    var entries := List(agg.Keys);
    for i := 0 to |entries|
      invariant forall key :: key in s.stats <==> key in kept || key in entries[..i]
      invariant forall key :: key in s.stats ==>
                  s.stats[key] == if key in entries[..i] then RowOf(agg[key]) else kept[key]
    {
      assert entries[..i + 1] == entries[..i] + [entries[i]];
      s.stats := s.stats[entries[i] := RowOf(agg[entries[i]])];
    }
    assert entries[..|entries|] == entries;
  }

  ghost predicate IsSpec(db: Db, source: map<Bucket, real>, requested: set<StatKey>, agg: map<StatKey, Entry>) {
    forall key ::
      && (key in agg <==> key in requested && SpecRow(db, source, key).Some?)
      && (key in agg ==> RowOf(agg[key]) == SpecRow(db, source, key).value)
  }

  method ComputeAggregates(s: Store, source: map<Bucket, real>, requested: set<StatKey>)
    returns (agg: map<StatKey, Entry>)
    requires s.CacheAgrees(source)
    modifies s`prices
    ensures s.CacheAgrees(source)
    ensures IsSpec(s.Db(), source, requested, agg)
  {
    var db := s.Db();
    var agents := set k | k in requested :: k.agent;
    var paid := List(set k | k in db.payments && k.tx in db.txs && db.payments[k].payer in agents);
    var earned := List(set k | k in db.evidence && Counted(db, k) && db.evidence[k].payTo in agents);
    assert ListsPaid(db, agents, paid) && ListsEarned(db, agents, earned);
    var prices, asked := LoadHourlyPrices(s, source, PriceRequests(db, paid, earned));
    agg := AccumulatePayments(db, prices, requested, paid);
    agg := AccumulateRevenue(db, prices, requested, paid, earned, agg);
    forall key {:trigger key in agg}
      ensures key in agg <==> key in requested && SpecRow(db, source, key).Some?
      ensures key in agg ==> RowOf(agg[key]) == SpecRow(db, source, key).value
    {
      AggregateIsSpec(db, source, requested, agents, paid, earned, agg, key);
    }
  }

  /** Written that way, the table is the recomputed one. */
  lemma WrittenIsRecomputed(db: Db, source: map<Bucket, real>, requested: set<StatKey>, agg: map<StatKey, Entry>)
    requires IsSpec(db, source, requested, agg)
    ensures Recompute(db, source, requested)
         == map key | key in db.stats.Keys + agg.Keys && (key in requested ==> key in agg)
              :: if key in agg then RowOf(agg[key]) else db.stats[key]
  {
    hide SpecRow;
  }

  method RecomputeAgentDailyStats(s: Store, source: map<Bucket, real>, keys: seq<StatKey>)
    requires s.CacheAgrees(source)
    modifies s`stats, s`prices
    ensures s.stats == Recompute(old(s.Db()), source, set k | k in keys)
    ensures s.CacheAgrees(source)
  {
    hide SpecRow, IsSpec;
    ghost var requested := set k | k in keys;
    var unique := DedupeKeys(keys);
    assert requested == set k | k in unique;
    if unique == [] {
      assert requested == {};
      return;
    }
    var agg := ComputeAggregates(s, source, set k | k in unique);
    WrittenIsRecomputed(old(s.Db()), source, requested, agg);
    hide Recompute;
    WriteRows(s, unique, agg);
  }
}
