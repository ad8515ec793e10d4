/** Hourly prices, read from the cache table first and from the price source only on a miss. */
module PriceCache {
  import opened Types
  import opened Sums
  import opened Stores

  datatype PriceRequest = PriceRequest(asset: Address, time: nat)

  function BucketOf(r: PriceRequest): Bucket { Bucket(r.asset, Hour(r.time)) }

  function Buckets(requests: seq<PriceRequest>): set<Bucket> {
    set r | r in requests :: BucketOf(r)
  }

  function Known(source: map<Bucket, real>, buckets: set<Bucket>): map<Bucket, real> {
    map b | b in buckets && b in source :: source[b]
  }

  /** The buckets a call has to ask the price source for. */
  function Misses(cache: map<Bucket, real>, buckets: set<Bucket>): set<Bucket> {
    buckets - cache.Keys
  }

  /** Requests of the same token and hour are merged. */
  method CollectBuckets(requests: seq<PriceRequest>) returns (buckets: set<Bucket>)
    ensures buckets == Buckets(requests)
  {
    buckets := {};
    for i := 0 to |requests|
      invariant buckets == Buckets(requests[..i])
    {
      assert requests[..i + 1] == requests[..i] + [requests[i]];
      buckets := buckets + {BucketOf(requests[i])};
    }
    assert requests[..|requests|] == requests;
  }

  /** What the cache holds, completed bucket by bucket; only answers of the source are stored. */
  method FetchMisses(s: Store, source: map<Bucket, real>, buckets: set<Bucket>)
    returns (result: map<Bucket, real>, ghost fetched: seq<Bucket>)
    requires s.CacheAgrees(source)
    modifies s`prices
    ensures forall b :: b in result <==> b in buckets && b in source
    ensures forall b :: b in result ==> result[b] == source[b]
    ensures forall b :: b in s.prices <==> b in old(s.prices) || b in result
    ensures s.CacheAgrees(source)
    ensures Distinct(fetched) && forall b :: b in fetched <==> b in buckets && b !in old(s.prices)
  {
    fetched := [];
    var cached := s.prices;
    result := map b | b in buckets && b in cached :: cached[b];
    var entries := List(buckets);
    for i := 0 to |entries|
      invariant forall b :: b in result <==> b in buckets && (b in cached || (b in entries[..i] && b in source))
      invariant forall b :: b in result ==> b in source && result[b] == source[b]
      invariant forall b :: b in s.prices <==> b in cached || b in result
      invariant s.CacheAgrees(source)
      invariant Distinct(fetched) && forall b :: b in fetched <==> b in entries[..i] && b !in cached
    {
      var b := entries[i];
      assert entries[..i + 1] == entries[..i] + [b];
      assert b !in entries[..i];
      if b in result {
        continue;
      }
      fetched := fetched + [b];
      if b !in source {
        continue;
      }
      result := result[b := source[b]];
      s.prices := s.prices[b := source[b]];
    }
    assert entries[..|entries|] == entries;
  }

  method LoadHourlyPrices(s: Store, source: map<Bucket, real>, requests: seq<PriceRequest>)
    returns (result: map<Bucket, real>, ghost fetched: seq<Bucket>)
    requires s.CacheAgrees(source)
    modifies s`prices
    ensures result == Known(source, Buckets(requests))
    ensures s.prices == old(s.prices) + Known(source, Buckets(requests))
    ensures s.CacheAgrees(source)
    ensures Lists(fetched, Misses(old(s.prices), Buckets(requests)))
  {
    var buckets := CollectBuckets(requests);
    result, fetched := FetchMisses(s, source, buckets);
  }

  /** Loading the same buckets again changes nothing and asks only for what the source lacks. */
  lemma RepeatAsksOnlyForUnknown(cache: map<Bucket, real>, source: map<Bucket, real>, buckets: set<Bucket>)
    requires forall b :: b in cache ==> b in source && source[b] == cache[b]
    ensures var again := cache + Known(source, buckets);
            && Misses(again, buckets) == buckets - source.Keys
            && again + Known(source, buckets) == again
  {
  }
}
