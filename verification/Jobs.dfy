/** The record of block ranges handed to backfill, one row per range. */
module Jobs {
  import opened Types
  import opened Stores

  /** A range asked for again starts over with the status of the new request. */
  function Enqueued(jobs: map<Range, Job>, cfg: Config, r: Range): map<Range, Job> {
    jobs[r := Job(if cfg.queueEnabled then Queued else PendingManual, 0)]
  }

  /** Whatever its row said before, the range is on record with the status given and no attempts;
      no other range changes. */
  method RecordQueuedBackfillJob(s: Store, r: Range, status: JobStatus)
    modifies s`jobs
    ensures r in s.jobs && s.jobs[r].status == status && s.jobs[r].retries == 0
    ensures s.jobs - {r} == old(s.jobs) - {r}
    ensures s.jobs == old(s.jobs)[r := Job(status, 0)]
  {
    s.jobs := s.jobs[r := Job(status, 0)];
  }

  method EnqueueBackfillRange(s: Store, cfg: Config, r: Range) returns (queued: bool)
    modifies s`jobs
    ensures queued == cfg.queueEnabled
    ensures r in s.jobs && s.jobs[r] == Job(if queued then Queued else PendingManual, 0)
    ensures s.jobs - {r} == old(s.jobs) - {r}
    ensures s.jobs == Enqueued(old(s.jobs), cfg, r)
  {
    if cfg.queueEnabled {
      RecordQueuedBackfillJob(s, r, Queued);
      return true;
    }
    RecordQueuedBackfillJob(s, r, PendingManual);
    return false;
  }

  /** Some recorded range contains the block. */
  ghost predicate InSomeRange(jobs: map<Range, Job>, n: nat) {
    exists r :: r in jobs && r.start <= n <= r.end
  }

  // --------------------------------------------------------------- tilings

  /** Consecutive ranges without hole or overlap, from `lo` to `hi`. */
  ghost predicate Tiles(ranges: seq<Range>, lo: nat, hi: nat) {
    && ranges != []
    && ranges[0].start == lo && ranges[|ranges| - 1].end == hi
    && (forall i :: 0 <= i < |ranges| ==> ranges[i].start <= ranges[i].end)
    && (forall i :: 0 < i < |ranges| ==> ranges[i].start == ranges[i - 1].end + 1)
  }

  /** Tiling ranges are disjoint and their union is the whole interval: each number of it lies
      in exactly one of them. */
  lemma {:induction false} TilesPartition(ranges: seq<Range>, lo: nat, hi: nat, n: nat)
    requires Tiles(ranges, lo, hi)
    ensures lo <= n <= hi <==> exists i :: 0 <= i < |ranges| && ranges[i].start <= n <= ranges[i].end
    ensures forall i, j :: 0 <= i < j < |ranges| ==> ranges[i].end < ranges[j].start
  {
    if |ranges| > 1 {
      var shorter := ranges[..|ranges| - 1];
      TilesPartition(shorter, lo, shorter[|shorter| - 1].end, n);
      assert forall i :: 0 <= i < |shorter| ==> ranges[i] == shorter[i];
      assert shorter[|shorter| - 1].end < ranges[|ranges| - 1].start;
      forall i | 0 <= i < |shorter|
        ensures ranges[i].end <= shorter[|shorter| - 1].end && lo <= ranges[i].start
      {
      }
      if lo <= n <= hi && n >= ranges[|ranges| - 1].start {
        assert ranges[|ranges| - 1].start <= n <= ranges[|ranges| - 1].end;
      }
    }
  }
}
