/** The worker that replays ranges of blocks, chunk by chunk. */
module BackfillWorkers {
  import opened Types
  import opened Stores
  import opened Candidates
  import opened Checkpoints
  import opened Jobs
  import opened ReorgDetection
  import opened ReorgRecovery
  import opened Orchestrator

  // --------------------------------------------------------------- chunks

  /** `chunks` cut the blocks from `lo` up to but excluding `hi` into consecutive pieces. */
  ghost predicate Cut(chunks: seq<Range>, lo: nat, hi: nat, size: nat) {
    && (chunks == [] ==> lo == hi)
    && (chunks != [] ==> chunks[0].start == lo && chunks[|chunks| - 1].end + 1 == hi)
    && (forall i :: 0 <= i < |chunks| ==> chunks[i].start <= chunks[i].end < chunks[i].start + size)
    && (forall i :: 0 < i < |chunks| ==> chunks[i].start == chunks[i - 1].end + 1)
    && (forall i :: 0 <= i < |chunks| - 1 ==> chunks[i].end + 1 == chunks[i].start + size)
  }

  method SplitBlockRangeIntoChunks(start: nat, end: nat, size: nat) returns (chunks: seq<Range>)
    requires size > 0
    ensures start > end ==> chunks == []
    ensures start <= end ==> Cut(chunks, start, end + 1, size)
  {
    if start > end {
      return [];
    }
    chunks := [];
    var cursor := start;
    while cursor <= end
      invariant start <= cursor <= end + 1
      invariant Cut(chunks, start, cursor, size)
      invariant cursor <= end ==> Full(chunks, size)
    {
      var chunkEnd := if cursor + size - 1 > end then end else cursor + size - 1;
      CutNext(chunks, start, Range(cursor, chunkEnd), size);
      chunks := chunks + [Range(cursor, chunkEnd)];
      cursor := chunkEnd + 1;
    }
  }

  ghost predicate Full(chunks: seq<Range>, size: nat) {
    forall i :: 0 <= i < |chunks| ==> chunks[i].end + 1 == chunks[i].start + size
  }

  lemma CutNext(chunks: seq<Range>, lo: nat, next: Range, size: nat)
    requires Cut(chunks, lo, next.start, size) && Full(chunks, size)
    requires next.start <= next.end < next.start + size
    ensures Cut(chunks + [next], lo, next.end + 1, size)
    ensures next.end + 1 == next.start + size ==> Full(chunks + [next], size)
  {
  }

  /** The chunks of a range partition it: each of its blocks is in exactly one chunk. */
  lemma ChunksPartition(chunks: seq<Range>, start: nat, end: nat, size: nat, n: nat)
    requires start <= end && Cut(chunks, start, end + 1, size)
    ensures start <= n <= end <==> exists i :: 0 <= i < |chunks| && chunks[i].start <= n <= chunks[i].end
    ensures forall i, j :: 0 <= i < j < |chunks| ==> chunks[i].end < chunks[j].start
  {
    TilesPartition(chunks, start, end, n);
  }

  // ------------------------------------------------------------------ job

  predicate AlreadyProcessed(db: Db, w: Worker, n: nat) {
    n in db.blocks && !db.blocks[n].orphaned && w in db.checkpoints && db.checkpoints[w].block >= n
  }

  /** One block of a job, its lock request granted. */
  ghost function JobStep(db: Db, cfg: Config, view: View, w: Worker, n: nat): Result<Db> {
    if AlreadyProcessed(db, w, n) then Ok(db) else Process(db, cfg, view, n, w, true)
  }

  /** One block of a job; a refused lock request passes over it. */
  ghost function JobTurn(db: Db, cfg: Config, view: View, granted: bool, w: Worker, n: nat): Result<Db> {
    if granted then JobStep(db, cfg, view, w, n) else Ok(db)
  }

  /** What the blocks of a job meet: the chain as it stands when block n is handled, and whether
      its lock request is granted. */
  datatype Conditions = Conditions(views: nat -> View, granted: nat -> bool)

  function Always(b: bool): nat -> bool { n => b }

  /** The blocks from `lo` up to but excluding `hi`, one after another. */
  ghost function JobRun(db: Db, cfg: Config, meets: Conditions, w: Worker, lo: nat, hi: nat): Result<Db>
    decreases hi
  {
    if hi <= lo then Ok(db)
    else match JobRun(db, cfg, meets, w, lo, hi - 1)
      case Ok(d) => JobTurn(d, cfg, meets.views(hi - 1), meets.granted(hi - 1), w, hi - 1)
      case Thrown(e) => Thrown(e)
  }

  lemma JobRunStart(db: Db, cfg: Config, meets: Conditions, w: Worker, lo: nat, hi: nat)
    requires hi <= lo
    ensures JobRun(db, cfg, meets, w, lo, hi) == Ok(db)
  {
    hide JobTurn;
  }

  /** The store a run of blocks leaves, also when one of them throws. */
  ghost function JobLeft(db: Db, cfg: Config, meets: Conditions, w: Worker, lo: nat, hi: nat): Db
    decreases hi
  {
    if hi <= lo then db
    else match JobRun(db, cfg, meets, w, lo, hi - 1)
      case Thrown(_) => JobLeft(db, cfg, meets, w, lo, hi - 1)
      case Ok(d) =>
        match JobTurn(d, cfg, meets.views(hi - 1), meets.granted(hi - 1), w, hi - 1)
        case Ok(after) => after
        case Thrown(_) => LeftByThrow(d, cfg, meets.views(hi - 1), hi - 1, w, true)
  }

  /** A job that throws stops at one block: the blocks before it are handled, and the store is what
      that block leaves when it throws. */
  lemma {:induction false} ThrownJobLeaves(
    db: Db, cfg: Config, meets: Conditions, w: Worker, lo: nat, hi: nat) returns (n: nat, before: Db)
    requires JobRun(db, cfg, meets, w, lo, hi).Thrown?
    ensures lo <= n < hi && JobRun(db, cfg, meets, w, lo, n) == Ok(before)
    ensures JobTurn(before, cfg, meets.views(n), meets.granted(n), w, n) == JobRun(db, cfg, meets, w, lo, hi)
    ensures JobLeft(db, cfg, meets, w, lo, hi) == LeftByThrow(before, cfg, meets.views(n), n, w, true)
    decreases hi
  {
    hide JobTurn, LeftByThrow;
    if JobRun(db, cfg, meets, w, lo, hi - 1).Thrown? {
      n, before := ThrownJobLeaves(db, cfg, meets, w, lo, hi - 1);
    } else {
      n, before := hi - 1, JobRun(db, cfg, meets, w, lo, hi - 1).value;
    }
  }

  lemma {:induction false} ThrownStaysThrown(
    db: Db, cfg: Config, meets: Conditions, w: Worker, lo: nat, mid: nat, hi: nat)
    requires mid <= hi && JobRun(db, cfg, meets, w, lo, mid).Thrown?
    ensures JobRun(db, cfg, meets, w, lo, hi) == JobRun(db, cfg, meets, w, lo, mid)
    ensures JobLeft(db, cfg, meets, w, lo, hi) == JobLeft(db, cfg, meets, w, lo, mid)
    decreases hi
  {
    hide JobTurn, LeftByThrow;
    if mid < hi {
      ThrownStaysThrown(db, cfg, meets, w, lo, mid, hi - 1);
    }
  }

  /** The row of a range, if it has one, takes a new status. */
  function Marked(jobs: map<Range, Job>, r: Range, status: JobStatus, attempts: nat): map<Range, Job> {
    if r in jobs then jobs[r := Job(status, attempts)] else jobs
  }

  class BackfillWorker {
    const store: Store
    const registry: Registry
    const lock: CursorLock
    const cfg: Config
    const chunkSize: nat
    const name: Worker

    constructor (store: Store, registry: Registry, lock: CursorLock, cfg: Config, chunkSize: nat, name: Worker)
      ensures this.store == store && this.registry == registry && this.lock == lock && this.cfg == cfg
      ensures this.chunkSize == chunkSize && this.name == name
    {
      this.store, this.registry, this.lock, this.cfg := store, registry, lock, cfg;
      this.chunkSize, this.name := chunkSize, name;
    }

    /** A block whose lock request is refused is passed over without any effect. */
    method HandleBlock(view: View, n: nat) returns (error: Option<Error>)
      requires store.CacheAgrees(cfg.prices)
      modifies store, registry, lock
      ensures store.CacheAgrees(cfg.prices) && lock.holder == old(lock.holder)
      ensures old(lock.holder) != null ==> error == None && store.Db() == old(store.Db())
      ensures old(lock.holder) == null ==>
                match Process(old(store.Db()), cfg, view, n, name, true)
                case Ok(db) => error == None && store.Db() == db
                case Thrown(e) =>
                  error == Some(e) && store.Db() == LeftByThrow(old(store.Db()), cfg, view, n, name, true)
    {
      var manager := new CheckpointManager(lock);
      var granted := manager.AcquireLock();
      if !granted {
        return None;
      }
      error := ProcessBlock(store, registry, cfg, view, n, name, true);
      manager.ReleaseLock();
    }

    /** One chunk; `base` is the store when the job began at block `lo`. */
    method ProcessChunk(views: nat -> View, chunk: Range, ghost base: Db, ghost lo: nat) returns (error: Option<Error>)
      requires store.CacheAgrees(cfg.prices)
      requires lo <= chunk.start <= chunk.end
      requires JobRun(base, cfg, Meets(views), name, lo, chunk.start) == Ok(store.Db())
      modifies store, registry, lock
      ensures store.CacheAgrees(cfg.prices) && lock.holder == old(lock.holder)
      ensures match JobRun(base, cfg, Meets(views), name, lo, chunk.end + 1)
              case Ok(d) => error == None && store.Db() == d
              case Thrown(e) =>
                error == Some(e) && store.Db() == JobLeft(base, cfg, Meets(views), name, lo, chunk.end + 1)
    {
      hide Process, AlreadyProcessed, LeftByThrow;
      var bn := chunk.start;
      ghost var meets := Meets(views);
      while bn <= chunk.end
        invariant chunk.start <= bn <= chunk.end + 1
        invariant store.CacheAgrees(cfg.prices) && lock.holder == old(lock.holder)
        invariant JobRun(base, cfg, meets, name, lo, bn) == Ok(store.Db())
        decreases chunk.end + 1 - bn
      {
        if !AlreadyProcessed(store.Db(), name, bn) {
          error := HandleBlock(views(bn), bn);
          if error.Some? {
            assert JobRun(base, cfg, meets, name, lo, bn + 1) == Thrown(error.value);
            assert store.Db() == JobLeft(base, cfg, meets, name, lo, bn + 1);
            ThrownStaysThrown(base, cfg, meets, name, lo, bn + 1, chunk.end + 1);
            return;
          }
        }
        bn := bn + 1;
      }
      return None;
    }

    /** While a job runs nobody else takes or frees the lock. */
    ghost function Meets(views: nat -> View): Conditions
      reads lock
    {
      Conditions(views, Always(lock.holder == null))
    }

    method ProcessChunks(views: nat -> View, chunks: seq<Range>, ghost lo: nat, ghost hi: nat)
      returns (error: Option<Error>)
      requires Cut(chunks, lo, hi, chunkSize)
      requires store.CacheAgrees(cfg.prices)
      modifies store, registry, lock
      ensures store.CacheAgrees(cfg.prices) && lock.holder == old(lock.holder)
      ensures match JobRun(old(store.Db()), cfg, Meets(views), name, lo, hi)
              case Ok(d) => error == None && store.Db() == d
              case Thrown(e) =>
                error == Some(e) && store.Db() == JobLeft(old(store.Db()), cfg, Meets(views), name, lo, hi)
    {
      hide Process, JobTurn, JobRun, JobLeft, Cut;
      ghost var base, meets := store.Db(), Meets(views);
      JobRunStart(base, cfg, meets, name, lo, lo);
      var i := 0;
      ghost var done := lo;
      while i < |chunks|
        invariant 0 <= i <= |chunks| && lo <= done
        invariant done == if i == 0 then lo else chunks[i - 1].end + 1
        invariant store.CacheAgrees(cfg.prices) && lock.holder == old(lock.holder)
        invariant JobRun(base, cfg, meets, name, lo, done) == Ok(store.Db())
      {
        ChunkAt(chunks, lo, hi, chunkSize, i);
        error := ProcessChunk(views, chunks[i], base, lo);
        if error.Some? {
          ThrownStaysThrown(base, cfg, meets, name, lo, chunks[i].end + 1, hi);
          return;
        }
        done := chunks[i].end + 1;
        i := i + 1;
      }
      ChunksEnd(chunks, lo, hi, chunkSize);
      return None;
    }

    /** A job is the run of its blocks in order. With the lock held elsewhere every block is passed
        over, and the job completes all the same. */
    method ProcessJob(views: nat -> View, job: Range, attempts: nat) returns (error: Option<Error>)
      requires chunkSize > 0
      requires store.CacheAgrees(cfg.prices)
      modifies store, registry, lock
      ensures store.CacheAgrees(cfg.prices) && lock.holder == old(lock.holder)
      ensures var begun := if job in old(store.jobs) then old(store.jobs)[job := Job(JobRunning, attempts)]
                           else old(store.jobs);
              var base := old(store.Db()).(jobs := begun);
              match JobRun(base, cfg, old(Meets(views)), name, job.start, job.end + 1)
              case Ok(d) =>
                && error == None
                && store.Db() == d.(jobs := store.jobs)
                && store.jobs.Keys == d.jobs.Keys && store.jobs - {job} == d.jobs - {job}
                && (job in store.jobs ==> store.jobs[job] == Job(Completed, attempts))
              case Thrown(e) =>
                && error == Some(e)
                && store.Db() == JobLeft(base, cfg, old(Meets(views)), name, job.start, job.end + 1)
                && (job !in Replays(base, cfg, old(Meets(views)), name, job.start, job.end + 1) ==>
                      && (job in store.jobs <==> job in old(store.jobs))
                      && (job in store.jobs ==> store.jobs[job] == Job(JobRunning, attempts)))
    {
      hide Process, JobTurn, JobRun, JobLeft, Replays, Cut;
      store.jobs := Marked(store.jobs, job, JobRunning, attempts);
      if job.end < job.start {
        JobRunStart(store.Db(), cfg, Meets(views), name, job.start, job.end + 1);
      }
      if job !in Replays(store.Db(), cfg, Meets(views), name, job.start, job.end + 1) {
        JobKeepsRow(store.Db(), cfg, Meets(views), name, job.start, job.end + 1, job);
      }
      var chunks := SplitBlockRangeIntoChunks(job.start, job.end, chunkSize);
      if chunks != [] {
        error := ProcessChunks(views, chunks, job.start, job.end + 1);
        if error.Some? {
          return;
        }
      }
      store.jobs := Marked(store.jobs, job, Completed, attempts);
      return None;
    }
  }

  /** A job whose lock requests are all refused changes no table. */
  lemma {:induction false} RefusedJobDoesNothing(db: Db, cfg: Config, views: nat -> View, w: Worker, lo: nat, hi: nat)
    ensures JobRun(db, cfg, Conditions(views, Always(false)), w, lo, hi) == Ok(db)
    decreases hi
  {
    hide JobStep;
    if lo < hi {
      RefusedJobDoesNothing(db, cfg, views, w, lo, hi - 1);
    }
  }

  lemma {:induction false} ChunkAt(chunks: seq<Range>, lo: nat, hi: nat, size: nat, i: nat)
    requires Cut(chunks, lo, hi, size) && i < |chunks|
    ensures lo <= chunks[i].start <= chunks[i].end < hi
    ensures chunks[i].start == if i == 0 then lo else chunks[i - 1].end + 1
  {
    ChunkEnds(chunks, lo, hi, size, i);
    ChunkStarts(chunks, lo, hi, size, i);
  }

  lemma {:induction false} ChunkEnds(chunks: seq<Range>, lo: nat, hi: nat, size: nat, i: nat)
    requires Cut(chunks, lo, hi, size) && i < |chunks|
    ensures chunks[i].end < hi
    decreases |chunks| - i
  {
    if i + 1 < |chunks| {
      ChunkEnds(chunks, lo, hi, size, i + 1);
    }
  }

  lemma {:induction false} ChunkStarts(chunks: seq<Range>, lo: nat, hi: nat, size: nat, i: nat)
    requires Cut(chunks, lo, hi, size) && i < |chunks|
    ensures lo <= chunks[i].start
  {
    if i > 0 {
      ChunkStarts(chunks, lo, hi, size, i - 1);
    }
  }

  lemma ChunksEnd(chunks: seq<Range>, lo: nat, hi: nat, size: nat)
    requires Cut(chunks, lo, hi, size)
    ensures hi == if chunks == [] then lo else chunks[|chunks| - 1].end + 1
  {
  }

  // ----------------------------------------------------------- properties

  /** The range a recovery at block `n` asks to have replayed, if handling it is a recovery. */
  function ReplayRange(db: Db, cfg: Config, view: View, w: Worker, n: nat): Option<Range> {
    if n == 0 || n !in view || AlreadyProcessed(db, w, n) then None
    else match Detect(db, cfg.maxReorgDepth, view, view[n], w, true)
      case Reorg(current, _, _, a) =>
        var end := ReplayEnd(Last(db.checkpoints, w), current);
        if end > a then Some(Range(a + 1, end)) else None
      case Valid => None
      case Failed(_) => None
  }

  /** The ranges asked for by the recoveries of a job. */
  ghost function Replays(db: Db, cfg: Config, meets: Conditions, w: Worker, lo: nat, hi: nat): set<Range>
    decreases hi
  {
    if hi <= lo then {}
    else
      var earlier := Replays(db, cfg, meets, w, lo, hi - 1);
      match JobRun(db, cfg, meets, w, lo, hi - 1)
      case Thrown(_) => earlier
      case Ok(d) =>
        match TurnReplay(d, cfg, meets.views(hi - 1), meets.granted(hi - 1), w, hi - 1)
        case Some(r) => earlier + {r}
        case None => earlier
  }

  function TurnReplay(db: Db, cfg: Config, view: View, granted: bool, w: Worker, n: nat): Option<Range> {
    if granted then ReplayRange(db, cfg, view, w, n) else None
  }

  ghost predicate StoredOrReplayed(db: Db, replays: set<Range>, n: nat) {
    Live(db.blocks, n) || exists r :: r in replays && r.start <= n <= r.end
  }

  lemma JobStepKeepsOrReplays(db: Db, cfg: Config, view: View, w: Worker, n: nat, after: Db)
    requires JobStep(db, cfg, view, w, n) == Ok(after)
    ensures match ReplayRange(db, cfg, view, w, n)
            case None => Live(after.blocks, n) && (forall m :: Live(db.blocks, m) ==> Live(after.blocks, m))
                         && (forall r :: r in db.jobs ==> r in after.jobs)
            case Some(r) => r in after.jobs && r.start <= n <= r.end && (forall q :: q in db.jobs ==> q in after.jobs)
                            && (forall m: nat :: m < r.start && Live(db.blocks, m) ==> Live(after.blocks, m))
  {
    hide Process;
    if !AlreadyProcessed(db, w, n) {
      ProcessOutcome(db, cfg, view, n, w, true);
    }
  }

  /** Only the ranges asked for by recoveries get another row. */
  lemma TurnKeepsRow(db: Db, cfg: Config, view: View, granted: bool, w: Worker, n: nat, r: Range)
    requires TurnReplay(db, cfg, view, granted, w, n) != Some(r)
    ensures var after := match JobTurn(db, cfg, view, granted, w, n)
                         case Ok(done) => done
                         case Thrown(_) => LeftByThrow(db, cfg, view, n, w, true);
            (r in after.jobs <==> r in db.jobs) && (r in db.jobs ==> after.jobs[r] == db.jobs[r])
  {
    hide Process, LeftByThrow, Detect;
    LeftFrame(db, cfg, view, n, w, true);
    if granted && !AlreadyProcessed(db, w, n) {
      ProcessOutcome(db, cfg, view, n, w, true);
    }
  }

  /** A range keeps its row through a job, thrown or not, unless a recovery of the job asks for it. */
  lemma {:induction false} JobKeepsRow(
    db: Db, cfg: Config, meets: Conditions, w: Worker, lo: nat, hi: nat, r: Range)
    requires r !in Replays(db, cfg, meets, w, lo, hi)
    ensures var left := JobLeft(db, cfg, meets, w, lo, hi);
            (r in left.jobs <==> r in db.jobs) && (r in db.jobs ==> left.jobs[r] == db.jobs[r])
    ensures JobRun(db, cfg, meets, w, lo, hi).Ok? ==>
              JobRun(db, cfg, meets, w, lo, hi).value == JobLeft(db, cfg, meets, w, lo, hi)
    decreases hi
  {
    hide JobTurn, TurnReplay, LeftByThrow;
    if lo < hi {
      var n := hi - 1;
      JobKeepsRow(db, cfg, meets, w, lo, n, r);
      match JobRun(db, cfg, meets, w, lo, n)
      case Ok(d) => TurnKeepsRow(d, cfg, meets.views(n), meets.granted(n), w, n, r);
      case Thrown(_) =>
    }
  }

  lemma JobTurnKeepsOrReplays(db: Db, cfg: Config, view: View, granted: bool, w: Worker, n: nat, after: Db)
    requires JobTurn(db, cfg, view, granted, w, n) == Ok(after)
    ensures match TurnReplay(db, cfg, view, granted, w, n)
            case None => (granted ==> Live(after.blocks, n))
                         && (forall m :: Live(db.blocks, m) ==> Live(after.blocks, m))
                         && (forall r :: r in db.jobs ==> r in after.jobs)
            case Some(r) => r in after.jobs && r.start <= n <= r.end && (forall q :: q in db.jobs ==> q in after.jobs)
                            && (forall m: nat :: m < r.start && Live(db.blocks, m) ==> Live(after.blocks, m))
  {
    hide JobStep, ReplayRange;
    if granted {
      JobStepKeepsOrReplays(db, cfg, view, w, n, after);
    }
  }

  /** When a job completes, each of its blocks whose lock request was granted is stored and
      canonical or lies in a range that a recovery during the job asked to have replayed, and
      those ranges are on record. */
  lemma {:induction false} CompletedJobLosesNothing(
    db: Db, cfg: Config, meets: Conditions, w: Worker, lo: nat, hi: nat, after: Db)
    requires JobRun(db, cfg, meets, w, lo, hi) == Ok(after)
    ensures forall n :: lo <= n < hi && meets.granted(n) ==>
              StoredOrReplayed(after, Replays(db, cfg, meets, w, lo, hi), n)
    ensures forall r :: r in Replays(db, cfg, meets, w, lo, hi) || r in db.jobs ==> r in after.jobs
    decreases hi
  {
    hide JobTurn, TurnReplay;
    if lo < hi {
      var n := hi - 1;
      var before := JobRun(db, cfg, meets, w, lo, n).value;
      CompletedJobLosesNothing(db, cfg, meets, w, lo, n, before);
      JobTurnKeepsOrReplays(before, cfg, meets.views(n), meets.granted(n), w, n, after);
      var earlier, all := Replays(db, cfg, meets, w, lo, n), Replays(db, cfg, meets, w, lo, hi);
      var asked := TurnReplay(before, cfg, meets.views(n), meets.granted(n), w, n);
      forall m | lo <= m < hi && meets.granted(m)
        ensures StoredOrReplayed(after, all, m)
      {
        if m < n {
          assert StoredOrReplayed(before, earlier, m);
        }
        if asked.Some? && asked.value.start <= m {
          assert asked.value in all;
        }
      }
    }
  }
}
