/** The values the indexer moves between the chain, its tables and its workers. */
module Types {

  datatype Option<+T> = None | Some(value: T)

  datatype Error =
    | MissingBlock(number: nat)   // the node does not know the block, or refuses block 0
    | MissingTransaction          // the node does not know the transaction of a log
    | ReorgTooDeep                // no common ancestor inside the search window
    | StillReferenced             // evidence to be deleted still has a payment

  datatype Result<+T> = Ok(value: T) | Thrown(error: Error)

  datatype Hash = Hash(hex: string)
  datatype Address = Address(hex: string)

  /** One log of one transaction: the natural key of evidence and payments. */
  datatype Key = Key(tx: Hash, logIndex: nat)

  // ---------------------------------------------------------------- chain

  /** A decoded Transfer log. `authorized` says whether the calldata of its transaction
      carries the same payer, payee and value. */
  datatype Transfer = Transfer(
    tx: Hash, logIndex: nat, asset: Address, payer: Address, payTo: Address, amount: nat, authorized: bool)

  datatype TxDetail = TxDetail(
    sender: Address, to: Option<Address>, input: string,
    succeeded: bool, authorizationUsed: bool, gasUsed: nat, gasPrice: nat)

  datatype Block = Block(
    number: nat, hash: Hash, parent: Hash, time: nat, transfers: seq<Transfer>, txs: map<Hash, TxDetail>)

  /** What the node answers during one step: the canonical block at each number it knows. */
  type View = v: map<nat, Block> | forall n :: n in v ==> v[n].number == n witness map[]

  // --------------------------------------------------------------- tables

  datatype BlockRow = BlockRow(hash: Hash, parent: Hash, time: nat, orphaned: bool)

  datatype TxRow = TxRow(block: nat, detail: TxDetail)

  datatype DetectionMethod = Eip3009Direct | Permit2Proxy | CustomEvent

  datatype Evidence = Evidence(
    key: Key, block: nat, detectedBy: DetectionMethod, confidence: nat,
    payer: Address, payTo: Address, asset: Address, amount: nat)

  datatype Payment = Payment(
    block: nat, time: nat, payer: Address, payTo: Address, asset: Address, amount: nat, usd: Option<real>)

  datatype Agent = Agent(isContract: bool, firstSeen: nat, lastSeen: nat)

  datatype InteractionKey = InteractionKey(tx: Hash, agent: Address, target: Option<Address>, selector: string)
  datatype Moment = Moment(block: nat, time: nat)

  /** One agent on one UTC day. */
  datatype StatKey = StatKey(agent: Address, day: nat)
  datatype StatsRow = StatsRow(
    txCount: nat, paymentCount: nat, spent: real, gas: real, revenue: real, uniqueServices: nat)

  datatype Worker = Realtime | Backfill(id: string)
  const BACKFILL_DEFAULT := Backfill("default")

  datatype CheckpointStatus = Running | Reorged
  datatype Checkpoint = Checkpoint(block: nat, hash: Hash, status: CheckpointStatus)

  datatype Range = Range(start: nat, end: nat)
  datatype JobStatus = Queued | PendingManual | JobRunning | Completed
  datatype Job = Job(status: JobStatus, retries: nat)

  datatype Db = Db(
    blocks: map<nat, BlockRow>,
    txs: map<Hash, TxRow>,
    evidence: map<Key, Evidence>,
    payments: map<Key, Payment>,
    agents: map<Address, Agent>,
    services: set<Address>,
    interactions: map<InteractionKey, Moment>,
    stats: map<StatKey, StatsRow>,
    checkpoints: map<Worker, Checkpoint>,
    jobs: map<Range, Job>)

  const EMPTY_DB := Db(map[], map[], map[], map[], map[], {}, map[], map[], map[], map[])

  // --------------------------------------------------------------- config

  datatype RegistryKind = AssetKind | FacilitatorKind | ProxyKind | OtherKind
  datatype RegistryRow = RegistryRow(kind: RegistryKind, validFrom: Option<nat>, validTo: Option<nat>)

  /** A token in one UTC hour. */
  datatype Bucket = Bucket(asset: Address, hour: nat)

  /** What stays fixed while the indexer runs: its settings, the address registry, the code
      found at each address and the prices the price source knows. */
  datatype Config = Config(
    threshold: nat,
    maxReorgDepth: nat,
    hardFilter: bool,
    queueEnabled: bool,
    registry: map<Address, RegistryRow>,
    contracts: set<Address>,
    prices: map<Bucket, real>)

  function Day(time: nat): nat { time / 86400 }

  function Hour(time: nat): nat { time - time % 3600 }

  ghost predicate Live(blocks: map<nat, BlockRow>, n: nat) {
    n in blocks && !blocks[n].orphaned
  }

  function LiveRows(blocks: map<nat, BlockRow>): map<nat, BlockRow> {
    map n | n in blocks && !blocks[n].orphaned :: blocks[n]
  }
}
