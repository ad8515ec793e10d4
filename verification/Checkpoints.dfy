/** Cursor rows of the workers and the lock that makes their sections exclusive. */
module Checkpoints {
  import opened Types
  import opened Stores

  /** The row '__cursor__', locked without waiting by at most one manager at a time. */
  class CursorLock {
    var holder: CheckpointManager?

    constructor ()
      ensures holder == null
    {
      holder := null;
    }
  }

  class CheckpointManager {
    const lock: CursorLock
    var holding: bool

    ghost predicate Valid()
      reads this, lock
    {
      holding <==> lock.holder == this
    }

    constructor (lock: CursorLock)
      ensures Valid() && this.lock == lock && !holding
    {
      this.lock := lock;
      holding := false;
      new;
      assert lock.holder != this;
    }

    method AcquireLock() returns (granted: bool)
      requires Valid()
      modifies this, lock
      ensures Valid()
      ensures granted <==> old(lock.holder) == null || old(lock.holder) == this
      ensures lock.holder == if granted then this else old(lock.holder)
    {
      if holding {
        return true;
      }
      if lock.holder != null {
        return false;
      }
      lock.holder := this;
      holding := true;
      return true;
    }

    method ReleaseLock()
      requires Valid()
      modifies this, lock
      ensures Valid() && !holding
      ensures lock.holder == if old(lock.holder) == this then null else old(lock.holder)
    {
      if holding {
        lock.holder := null;
        holding := false;
      }
    }
  }

  // ---------------------------------------------------------------- rows

  /** Block 0 means that nothing has been processed yet. */
  function Last(cps: map<Worker, Checkpoint>, w: Worker): Option<Checkpoint> {
    if w in cps && cps[w].block != 0 then Some(cps[w]) else None
  }

  function Advance(cps: map<Worker, Checkpoint>, w: Worker, b: Block): map<Worker, Checkpoint> {
    cps[w := if w in cps && cps[w].block > b.number
             then cps[w].(status := Running)
             else Checkpoint(b.number, b.hash, Running)]
  }

  function Rewind(cps: map<Worker, Checkpoint>, w: Worker, number: nat, hash: Hash): map<Worker, Checkpoint> {
    if w in cps then cps[w := Checkpoint(number, hash, Reorged)] else cps
  }

  method AdvanceTo(s: Store, w: Worker, b: Block)
    modifies s`checkpoints
    ensures s.checkpoints == Advance(old(s.checkpoints), w, b)
  {
    if w in s.checkpoints {
      var row := s.checkpoints[w];
      var number := if row.block <= b.number then b.number else row.block;
      var hash := if row.block <= b.number then b.hash else row.hash;
      s.checkpoints := s.checkpoints[w := Checkpoint(number, hash, Running)];
    } else {
      s.checkpoints := s.checkpoints[w := Checkpoint(b.number, b.hash, Running)];
    }
  }

  /** A worker that has a cursor continues after the given block; no cursor is created, and no
      other worker's changes. */
  method RewindTo(s: Store, w: Worker, number: nat, hash: Hash)
    modifies s`checkpoints
    ensures s.checkpoints.Keys == old(s.checkpoints).Keys
    ensures s.checkpoints - {w} == old(s.checkpoints) - {w}
    ensures w in s.checkpoints ==>
              Last(s.checkpoints, w) == if number == 0 then None else Some(Checkpoint(number, hash, Reorged))
    ensures s.checkpoints == Rewind(old(s.checkpoints), w, number, hash)
  {
    if w in s.checkpoints {
      s.checkpoints := s.checkpoints[w := Checkpoint(number, hash, Reorged)];
    }
  }

  // -------------------------------------------------------------- algebra

  function AdvanceAll(cps: map<Worker, Checkpoint>, w: Worker, bs: seq<Block>): map<Worker, Checkpoint> {
    if bs == [] then cps else Advance(AdvanceAll(cps, w, bs[..|bs| - 1]), w, bs[|bs| - 1])
  }

  /** Block `i` is the last one of the list that reaches its greatest number. */
  ghost predicate LastGreatest(bs: seq<Block>, i: nat) {
    && i < |bs|
    && (forall j :: 0 <= j < i ==> bs[j].number <= bs[i].number)
    && (forall j :: i < j < |bs| ==> bs[j].number < bs[i].number)
  }

  /** Advancing through any list of headers leaves the greatest number seen with the hash of
      the last header at that number, and never lowers a cursor. */
  lemma {:induction false} AdvanceAllIsMaximum(cps: map<Worker, Checkpoint>, w: Worker, bs: seq<Block>, i: nat)
    requires LastGreatest(bs, i)
    ensures var end := AdvanceAll(cps, w, bs);
            && end - {w} == cps - {w}
            && w in end
            && end[w].status == Running
            && (end[w].block, end[w].hash)
               == if w in cps && cps[w].block > bs[i].number
                  then (cps[w].block, cps[w].hash) else (bs[i].number, bs[i].hash)
  {
    var shorter := bs[..|bs| - 1];
    if i == |bs| - 1 {
      if shorter != [] {
        var k := GreatestIndex(shorter);
        AdvanceAllIsMaximum(cps, w, shorter, k);
      }
    } else {
      AdvanceAllIsMaximum(cps, w, shorter, i);
    }
  }

  lemma {:induction false} GreatestIndex(bs: seq<Block>) returns (i: nat)
    requires bs != []
    ensures LastGreatest(bs, i)
  {
    if |bs| == 1 {
      i := 0;
    } else {
      i := GreatestIndex(bs[..|bs| - 1]);
      if bs[|bs| - 1].number >= bs[i].number {
        i := |bs| - 1;
      }
    }
  }
}
