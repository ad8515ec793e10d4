/** The database: one field per table, updated in place by the pipeline steps. */
module Stores {
  import opened Types

  class Store {
    var blocks: map<nat, BlockRow>
    var txs: map<Hash, TxRow>
    var evidence: map<Key, Evidence>
    var payments: map<Key, Payment>
    var agents: map<Address, Agent>
    var services: set<Address>
    var interactions: map<InteractionKey, Moment>
    var stats: map<StatKey, StatsRow>
    var checkpoints: map<Worker, Checkpoint>
    var jobs: map<Range, Job>
    var prices: map<Bucket, real>  // cache of the price source

    constructor ()
      ensures Db() == EMPTY_DB && prices == map[]
    {
      blocks, txs, evidence, payments, agents := map[], map[], map[], map[], map[];
      services, interactions, stats, checkpoints, jobs := {}, map[], map[], map[], map[];
      prices := map[];
    }

    /** Everything but the price cache, as one value. */
    function Db(): Db
      reads this
    {
      Types.Db.Db(blocks, txs, evidence, payments, agents, services, interactions, stats, checkpoints, jobs)
    }

    ghost predicate CacheAgrees(source: map<Bucket, real>)
      reads this
    {
      forall b :: b in prices ==> b in source && source[b] == prices[b]
    }
  }
}
