/** What the recomputed daily rows amount to, payment by payment and piece of evidence by piece, in terms
    of the stored rows and the prices alone. */
module DailyFigures {
  import opened Types
  import opened DailyStats

  /** The payment is one of the agent's on that day, and its transaction is stored. */
  predicate PaidOn(db: Db, k: Key, key: StatKey) {
    && k in db.payments && k.tx in db.txs
    && db.payments[k].payer == key.agent && db.payments[k].time / 86400 == key.day
  }

  /** The evidence is on a canonical block of that day, pays the agent and has a price. */
  predicate EarnedOn(db: Db, prices: map<Bucket, real>, k: Key, key: StatKey) {
    && k in db.evidence && db.evidence[k].payTo == key.agent
    && var n := db.evidence[k].block;
    && n in db.blocks && !db.blocks[n].orphaned && db.blocks[n].time / 86400 == key.day
    && Bucket(db.evidence[k].asset, db.blocks[n].time - db.blocks[n].time % 3600) in prices
  }

  const NO_FIGURES := StatsRow(0, 0, 0.0, 0.0, 0.0, 0)

  function RowAt(stats: map<StatKey, StatsRow>, key: StatKey): StatsRow {
    if key in stats then stats[key] else NO_FIGURES
  }

  const ETHER := Address("0x4200000000000000000000000000000000000006")

  /** The price of one ether in dollars in the hour of a timestamp, or nothing when it is unknown. */
  function EtherAt(prices: map<Bucket, real>, time: nat): real {
    var hour := Bucket(ETHER, time - time % 3600);
    if hour in prices then prices[hour] else 0.0
  }

  /** Gas used times the price paid for it, in wei, at the price of an ether. */
  function GasCost(tx: TxDetail, ether: real): real {
    (tx.gasUsed * tx.gasPrice) as real / 1000000000000000000.0 * ether
  }

  /** The dollar value of millionths of a token. */
  function Dollars(amount: nat, price: real): real { amount as real / 1000000.0 * price }

  lemma PaidIff(db: Db, key: StatKey)
    ensures forall k :: k in PaidKeys(db, key) <==> PaidOn(db, k, key)
  {
  }

  lemma EarnedIff(db: Db, prices: map<Bucket, real>, key: StatKey)
    ensures forall k :: k in RevenueKeys(db, prices, key) <==> EarnedOn(db, prices, k, key)
  {
    forall k ensures k in RevenueKeys(db, prices, key) <==> EarnedOn(db, prices, k, key) {
      if Counted(db, k) {
        var time := TimeOf(db, k);
        assert AssetHour(db, k) == Bucket(db.evidence[k].asset, time - time % 3600);
        assert PayeeDay(db, k) == StatKey(db.evidence[k].payTo, time / 86400);
      }
    }
  }

  /** A recomputed day has a row if and only if something was paid or earned on it. */
  lemma RowIff(db: Db, prices: map<Bucket, real>, keys: set<StatKey>, key: StatKey)
    requires key in keys
    ensures key in Recompute(db, prices, keys)
            <==> (exists k :: PaidOn(db, k, key)) || (exists k :: EarnedOn(db, prices, k, key))
  {
    PaidIff(db, key);
    EarnedIff(db, prices, key);
    hide PaidKeys, RevenueKeys, PaidOn, EarnedOn, PaidOver, RevenueOver;
    if PaidKeys(db, key) != {} {
      var k :| k in PaidKeys(db, key);
    }
    if RevenueKeys(db, prices, key) != {} {
      var k :| k in RevenueKeys(db, prices, key);
    }
  }

  /** A recomputed row in terms of what is paid and earned; zeros where there is none. */
  lemma RecomputedRow(db: Db, prices: map<Bucket, real>, keys: set<StatKey>, key: StatKey)
    requires key in keys
    ensures RowAt(Recompute(db, prices, keys), key)
         == RowOf(PaidOver(db, prices, PaidKeys(db, key)).(
                    revenue := RevenueOver(db, prices, RevenueKeys(db, prices, key))))
  {
    hide PaidKeys, RevenueKeys, PaidOver, RevenueOver;
    if PaidKeys(db, key) == {} && RevenueKeys(db, prices, key) == {} {
      NothingOver(db, prices);
    }
  }

  // ----------------------------------------------------------- one payment

  lemma PaidAlike(x: Db, y: Db, prices: map<Bucket, real>, ks: set<Key>)
    requires x.txs == y.txs
    requires forall k :: k in ks ==> k in x.payments && k in y.payments && x.payments[k] == y.payments[k]
    ensures PaidOver(x, prices, ks) == PaidOver(y, prices, ks)
  {
    assert UsdMap(x, ks) == UsdMap(y, ks);
    assert ServicesOf(x, ks) == ServicesOf(y, ks);
    forall k | k in ks && k.tx in x.txs ensures GasUsd(x, prices, k) == GasUsd(y, prices, k) {
    }
    hide GasUsd;
    assert GasMap(x, prices, ks) == GasMap(y, prices, ks);
  }

  lemma RevenueAlike(x: Db, y: Db, prices: map<Bucket, real>, key: StatKey)
    requires x.evidence == y.evidence && x.blocks == y.blocks
    ensures RevenueKeys(x, prices, key) == RevenueKeys(y, prices, key)
    ensures RevenueOver(x, prices, RevenueKeys(x, prices, key)) == RevenueOver(y, prices, RevenueKeys(y, prices, key))
  {
    var ks := RevenueKeys(x, prices, key);
    assert ks == RevenueKeys(y, prices, key);
    assert RevenueMap(x, prices, ks) == RevenueMap(y, prices, ks);
  }

  lemma GasInDollars(db: Db, prices: map<Bucket, real>, k: Key)
    requires k in db.payments && k.tx in db.txs
    ensures GasUsd(db, prices, k) == GasCost(db.txs[k.tx].detail, EtherAt(prices, db.payments[k].time))
  {
    var time := db.payments[k].time;
    assert Bucket(WETH, Hour(time)) == Bucket(ETHER, time - time % 3600);
  }

  /** The payment side of an entry with one more payment. */
  lemma EntryGrows(db: Db, more: Db, prices: map<Bucket, real>, ks: set<Key>, k: Key)
    requires k in more.payments && k.tx in more.txs && k !in ks && more.txs == db.txs
    requires forall j :: j in ks ==> j in db.payments && j in more.payments && db.payments[j] == more.payments[j]
    ensures var before, after, p := PaidOver(db, prices, ks), PaidOver(more, prices, ks + {k}), more.payments[k];
            && after.count == before.count + 1
            && after.spent == before.spent + (if p.usd.Some? then p.usd.value else 0.0)
            && after.gas == before.gas + GasCost(more.txs[k.tx].detail, EtherAt(prices, p.time))
            && after.txs == before.txs + {k.tx}
            && after.services == before.services + {p.payTo}
  {
    PaidGrows(more, prices, ks, k);
    PaidAlike(db, more, prices, ks);
    GasInDollars(more, prices, k);
    hide GasUsd, GasCost, EtherAt, PaidOver;
  }

  /** The day already has a payment of the transaction, or one to the payee. */
  ghost predicate SameTxPaid(db: Db, key: StatKey, tx: Hash) { exists j :: PaidOn(db, j, key) && j.tx == tx }
  ghost predicate SamePayeePaid(db: Db, key: StatKey, payTo: Address) {
    exists j :: PaidOn(db, j, key) && db.payments[j].payTo == payTo
  }

  lemma DayGrows(db: Db, more: Db, prices: map<Bucket, real>, key: StatKey, k: Key, p: Payment)
    requires k !in db.payments && k.tx in db.txs && more == db.(payments := db.payments[k := p])
    requires key == StatKey(p.payer, p.time / 86400)
    ensures PaidKeys(more, key) == PaidKeys(db, key) + {k} && k !in PaidKeys(db, key)
    ensures k.tx in TxsOf(PaidKeys(db, key)) <==> SameTxPaid(db, key, k.tx)
    ensures p.payTo in ServicesOf(db, PaidKeys(db, key)) <==> SamePayeePaid(db, key, p.payTo)
  {
    PaidIff(db, key);
    PaidIff(more, key);
    hide PaidKeys;
    assert forall j :: PaidOn(more, j, key) <==> PaidOn(db, j, key) || j == k;
  }

  /** A row with one more payment: its dollar value, the gas of its transaction at the price of ether in
      its hour, and its transaction and payee unless the day had them. */
  ghost predicate AddsPayment(db: Db, prices: map<Bucket, real>, k: Key, p: Payment, before: StatsRow, after: StatsRow)
    requires k.tx in db.txs
  {
    var key := StatKey(p.payer, p.time / 86400);
    && after.paymentCount == before.paymentCount + 1
    && after.spent == before.spent + (if p.usd.Some? then p.usd.value else 0.0)
    && after.gas == before.gas + GasCost(db.txs[k.tx].detail, EtherAt(prices, p.time))
    && after.revenue == before.revenue
    && after.txCount == before.txCount + (if SameTxPaid(db, key, k.tx) then 0 else 1)
    && after.uniqueServices == before.uniqueServices + (if SamePayeePaid(db, key, p.payTo) then 0 else 1)
  }

  /** One more payment adds itself to the row of its payer's day. */
  lemma OneMorePayment(db: Db, prices: map<Bucket, real>, keys: set<StatKey>, k: Key, p: Payment)
    requires k !in db.payments && k.tx in db.txs
    requires StatKey(p.payer, p.time / 86400) in keys
    ensures var key := StatKey(p.payer, p.time / 86400);
            var more := Recompute(db.(payments := db.payments[k := p]), prices, keys);
            key in more && AddsPayment(db, prices, k, p, RowAt(Recompute(db, prices, keys), key), more[key])
  {
    var key, more := StatKey(p.payer, p.time / 86400), db.(payments := db.payments[k := p]);
    var ks := PaidKeys(db, key);
    assert forall j :: j in ks ==> j in db.payments;
    hide *;
    DayGrows(db, more, prices, key, k, p);
    RowOfPaid(more, prices, keys, key, k);
    RecomputedRow(db, prices, keys, key);
    RecomputedRow(more, prices, keys, key);
    RevenueAlike(db, more, prices, key);
    RowGrows(db, more, prices, ks, k, p, RevenueOver(db, prices, RevenueKeys(db, prices, key)));
    PresentRow(Recompute(more, prices, keys), key);
  }

  lemma PresentRow(stats: map<StatKey, StatsRow>, key: StatKey)
    requires key in stats
    ensures RowAt(stats, key) == stats[key]
  {
  }

  lemma RowGrows(db: Db, more: Db, prices: map<Bucket, real>, ks: set<Key>, k: Key, p: Payment, earned: real)
    requires k in more.payments && more.payments[k] == p && k.tx in more.txs && k !in ks && more.txs == db.txs
    requires forall j :: j in ks ==> j in db.payments && j in more.payments && db.payments[j] == more.payments[j]
    requires var key := StatKey(p.payer, p.time / 86400);
             && (k.tx in TxsOf(ks) <==> SameTxPaid(db, key, k.tx))
             && (p.payTo in ServicesOf(db, ks) <==> SamePayeePaid(db, key, p.payTo))
    ensures AddsPayment(db, prices, k, p,
                        RowOf(PaidOver(db, prices, ks).(revenue := earned)),
                        RowOf(PaidOver(more, prices, ks + {k}).(revenue := earned)))
  {
    hide *;
    PaidOverSets(db, prices, ks);
    EntryGrows(db, more, prices, ks, k);
    EntryToRow(PaidOver(db, prices, ks).(revenue := earned), PaidOver(more, prices, ks + {k}).(revenue := earned),
               db, prices, k, p);
  }

  lemma EntryToRow(before: Entry, after: Entry, db: Db, prices: map<Bucket, real>, k: Key, p: Payment)
    requires k.tx in db.txs && after.count == before.count + 1 && after.revenue == before.revenue
    requires after.spent == before.spent + (if p.usd.Some? then p.usd.value else 0.0)
    requires after.gas == before.gas + GasCost(db.txs[k.tx].detail, EtherAt(prices, p.time))
    requires after.txs == before.txs + {k.tx} && after.services == before.services + {p.payTo}
    requires var key := StatKey(p.payer, p.time / 86400);
             && (k.tx in before.txs <==> SameTxPaid(db, key, k.tx))
             && (p.payTo in before.services <==> SamePayeePaid(db, key, p.payTo))
    ensures AddsPayment(db, prices, k, p, RowOf(before), RowOf(after))
  {
    hide GasCost, EtherAt, SameTxPaid, SamePayeePaid;
    OneMore(before.txs, k.tx);
    OneMore(before.services, p.payTo);
  }

  lemma OneMore<T>(s: set<T>, x: T)
    ensures |s + {x}| == |s| + if x in s then 0 else 1
  {
    if x in s {
      assert s + {x} == s;
    }
  }

  lemma PaidOverSets(db: Db, prices: map<Bucket, real>, ks: set<Key>)
    ensures PaidOver(db, prices, ks).txs == TxsOf(ks) && PaidOver(db, prices, ks).services == ServicesOf(db, ks)
  {
  }

  lemma RowOfPaid(db: Db, prices: map<Bucket, real>, keys: set<StatKey>, key: StatKey, k: Key)
    requires key in keys && k in PaidKeys(db, key)
    ensures key in Recompute(db, prices, keys)
  {
    hide PaidOver, RevenueOver;
  }

  lemma EarnedAlike(x: Db, y: Db, prices: map<Bucket, real>, ks: set<Key>)
    requires x.blocks == y.blocks
    requires forall k :: k in ks ==> k in x.evidence && k in y.evidence && x.evidence[k] == y.evidence[k]
    ensures RevenueOver(x, prices, ks) == RevenueOver(y, prices, ks)
  {
    assert RevenueMap(x, prices, ks) == RevenueMap(y, prices, ks);
  }

  lemma SameDay(x: Db, y: Db, prices: map<Bucket, real>, key: StatKey)
    requires x.txs == y.txs && PaidKeys(x, key) == PaidKeys(y, key)
    requires RevenueKeys(x, prices, key) == RevenueKeys(y, prices, key)
    requires forall k :: k in PaidKeys(x, key) ==> x.payments[k] == y.payments[k]
    requires forall k :: k in RevenueKeys(x, prices, key) ==> x.evidence[k] == y.evidence[k]
    requires x.blocks == y.blocks
    ensures SpecRow(x, prices, key) == SpecRow(y, prices, key)
  {
    hide PaidOver, RevenueOver;
    PaidAlike(x, y, prices, PaidKeys(x, key));
    EarnedAlike(x, y, prices, RevenueKeys(x, prices, key));
    hide PaidKeys, RevenueKeys;
  }

  lemma SameDaysSameRows(x: Db, y: Db, prices: map<Bucket, real>, keys: set<StatKey>, but: set<StatKey>)
    requires x.stats == y.stats
    requires forall key :: key !in but ==> SpecRow(x, prices, key) == SpecRow(y, prices, key)
    ensures Recompute(x, prices, keys) - but == Recompute(y, prices, keys) - but
  {
    hide SpecRow;
  }

  /** No other row is touched by it. */
  lemma OneMorePaymentElsewhere(db: Db, prices: map<Bucket, real>, keys: set<StatKey>, k: Key, p: Payment)
    requires k !in db.payments
    ensures var key := StatKey(p.payer, p.time / 86400);
            Recompute(db.(payments := db.payments[k := p]), prices, keys) - {key} == Recompute(db, prices, keys) - {key}
  {
    var key, more := StatKey(p.payer, p.time / 86400), db.(payments := db.payments[k := p]);
    hide Recompute, SpecRow;
    forall other | other !in {key} ensures SpecRow(db, prices, other) == SpecRow(more, prices, other) {
      OtherDay(db, more, prices, k, p, other);
    }
    SameDaysSameRows(more, db, prices, keys, {key});
  }

  lemma OtherDayKeys(db: Db, more: Db, k: Key, p: Payment, key: StatKey)
    requires k !in db.payments && more == db.(payments := db.payments[k := p])
    requires key != StatKey(p.payer, p.time / 86400)
    ensures PaidKeys(db, key) == PaidKeys(more, key)
    ensures forall j :: j in PaidKeys(db, key) ==> db.payments[j] == more.payments[j]
  {
    forall j ensures j in PaidKeys(db, key) <==> j in PaidKeys(more, key) {
    }
  }

  lemma OtherDay(db: Db, more: Db, prices: map<Bucket, real>, k: Key, p: Payment, key: StatKey)
    requires k !in db.payments && more == db.(payments := db.payments[k := p])
    requires key != StatKey(p.payer, p.time / 86400)
    ensures SpecRow(db, prices, key) == SpecRow(more, prices, key)
  {
    hide *;
    OtherDayKeys(db, more, k, p, key);
    RevenueAlike(db, more, prices, key);
    SameDay(db, more, prices, key);
  }

  // -------------------------------------------------- one piece of evidence

  lemma EarnedKeys(db: Db, more: Db, prices: map<Bucket, real>, key: StatKey, k: Key, e: Evidence)
    requires k !in db.evidence && more == db.(evidence := db.evidence[k := e]) && EarnedOn(more, prices, k, key)
    ensures RevenueKeys(more, prices, key) == RevenueKeys(db, prices, key) + {k} && k !in RevenueKeys(db, prices, key)
    ensures forall j :: j in RevenueKeys(db, prices, key) ==> j in db.evidence && j in more.evidence
  {
    EarnedIff(db, prices, key);
    EarnedIff(more, prices, key);
    hide RevenueKeys;
    assert forall j :: EarnedOn(more, prices, j, key) <==> EarnedOn(db, prices, j, key) || j == k;
  }

  lemma EarningGrows(db: Db, more: Db, prices: map<Bucket, real>, key: StatKey, k: Key, e: Evidence)
    requires k !in db.evidence && more == db.(evidence := db.evidence[k := e]) && EarnedOn(more, prices, k, key)
    ensures RevenueOver(more, prices, RevenueKeys(more, prices, key))
         == RevenueOver(db, prices, RevenueKeys(db, prices, key))
            + Dollars(e.amount, prices[Bucket(e.asset, db.blocks[e.block].time - db.blocks[e.block].time % 3600)])
  {
    var ks, time := RevenueKeys(db, prices, key), db.blocks[e.block].time;
    var hour := Bucket(e.asset, time - time % 3600);
    assert Counted(more, k) && AssetHour(more, k) == hour && hour in prices;
    assert UsdOf(e.amount, prices[hour]) == Dollars(e.amount, prices[hour]);
    hide RevenueOver, RevenueKeys, AssetHour, UsdOf, Dollars, Counted, EarnedOn;
    EarnedKeys(db, more, prices, key, k, e);
    RevenueGrows(more, prices, ks, k);
    EarnedAlike(db, more, prices, ks);
  }

  /** One more piece of evidence on a canonical block, with a price in the hour of that block, adds its
      dollar value to the revenue of its payee's day and nothing else to that row. */
  lemma OneMoreEarning(db: Db, prices: map<Bucket, real>, keys: set<StatKey>, k: Key, e: Evidence, key: StatKey)
    requires k !in db.evidence && key in keys
    requires EarnedOn(db.(evidence := db.evidence[k := e]), prices, k, key)
    ensures var more := Recompute(db.(evidence := db.evidence[k := e]), prices, keys);
            var before, time := RowAt(Recompute(db, prices, keys), key), db.blocks[e.block].time;
            var earned := Dollars(e.amount, prices[Bucket(e.asset, time - time % 3600)]);
            key in more && more[key] == before.(revenue := before.revenue + earned)
  {
    var more := db.(evidence := db.evidence[k := e]);
    RowIff(more, prices, keys, key);
    PaidAside(db, more, prices, key);
    hide Recompute, PaidKeys, PaidOver, RevenueKeys, RevenueOver, Dollars;
    RecomputedRow(db, prices, keys, key);
    RecomputedRow(more, prices, keys, key);
    EarningGrows(db, more, prices, key, k, e);
  }

  lemma PaidAside(x: Db, y: Db, prices: map<Bucket, real>, key: StatKey)
    requires x.payments == y.payments && x.txs == y.txs
    ensures PaidOver(x, prices, PaidKeys(x, key)) == PaidOver(y, prices, PaidKeys(y, key))
  {
    assert PaidKeys(x, key) == PaidKeys(y, key);
    hide PaidOver;
    PaidAlike(x, y, prices, PaidKeys(x, key));
  }

  /** Evidence touches no other row, and none at all while it does not count. */
  lemma OneMoreEarningElsewhere(db: Db, prices: map<Bucket, real>, keys: set<StatKey>, k: Key, e: Evidence,
                                but: set<StatKey>)
    requires k !in db.evidence
    requires forall key :: EarnedOn(db.(evidence := db.evidence[k := e]), prices, k, key) ==> key in but
    ensures Recompute(db.(evidence := db.evidence[k := e]), prices, keys) - but == Recompute(db, prices, keys) - but
  {
    var more := db.(evidence := db.evidence[k := e]);
    forall other | other !in but ensures SpecRow(db, prices, other) == SpecRow(more, prices, other) {
      EarnedIff(db, prices, other);
      EarnedIff(more, prices, other);
      assert forall j :: EarnedOn(more, prices, j, other) <==> EarnedOn(db, prices, j, other);
      assert RevenueKeys(db, prices, other) == RevenueKeys(more, prices, other);
      assert PaidKeys(db, other) == PaidKeys(more, other);
      SameDay(db, more, prices, other);
    }
    hide Recompute, SpecRow;
    SameDaysSameRows(more, db, prices, keys, but);
  }

  // ------------------------------------------------------------ one number

  const TX := Hash("tx")
  const PAYER := Address("payer")
  const DETAIL := TxDetail(PAYER, None, "", true, true, 21000, 1000000000)
  const ONE := Payment(7, 90000, PAYER, Address("payee"), Address("token"), 5, None)
  const UNPAID := EMPTY_DB.(txs := map[TX := TxRow(7, DETAIL)])
  const PRICES := map[Bucket(ETHER, 90000) := 3000.0]
  const DAY := StatKey(PAYER, 1)

  /** 21000 units of gas at 1 gwei with an ether at 3000 dollars: 0.063 dollars. */
  lemma GasOfOneTransfer()
    ensures var rows := Recompute(UNPAID.(payments := map[Key(TX, 0) := ONE]), PRICES, {DAY});
            DAY in rows && rows[DAY] == StatsRow(1, 1, 0.0, 0.063, 0.0, 1)
  {
    hide Recompute, GasCost, EtherAt, SameTxPaid, SamePayeePaid, RowAt, AddsPayment;
    assert UNPAID.payments[Key(TX, 0) := ONE] == map[Key(TX, 0) := ONE];
    var rows := Recompute(UNPAID.(payments := map[Key(TX, 0) := ONE]), PRICES, {DAY});
    OneMorePayment(UNPAID, PRICES, {DAY}, Key(TX, 0), ONE);
    NothingPaid();
    CostOfOne();
    FirstRow(UNPAID, PRICES, Key(TX, 0), ONE, rows[DAY]);
  }

  lemma NothingPaid()
    ensures RowAt(Recompute(UNPAID, PRICES, {DAY}), DAY) == NO_FIGURES
    ensures !SameTxPaid(UNPAID, DAY, TX) && !SamePayeePaid(UNPAID, DAY, ONE.payTo)
  {
    RowIff(UNPAID, PRICES, {DAY}, DAY);
    hide Recompute;
  }

  lemma CostOfOne()
    ensures GasCost(DETAIL, EtherAt(PRICES, ONE.time)) == 0.063
  {
  }

  lemma FirstRow(db: Db, prices: map<Bucket, real>, k: Key, p: Payment, row: StatsRow)
    requires k.tx in db.txs && AddsPayment(db, prices, k, p, NO_FIGURES, row) && p.usd == None
    requires var key := StatKey(p.payer, p.time / 86400); !SameTxPaid(db, key, k.tx) && !SamePayeePaid(db, key, p.payTo)
    ensures row == StatsRow(1, 1, 0.0, GasCost(db.txs[k.tx].detail, EtherAt(prices, p.time)), 0.0, 1)
  {
    hide GasCost, EtherAt, SameTxPaid, SamePayeePaid;
  }
}
