/** Short runs on the sample blocks. */
module SampleRuns {
  import opened Types
  import opened Candidates
  import opened Checkpoints
  import opened Orchestrator
  import opened RealtimeWorkers
  import opened Runs
  import opened Samples

  /** A view that knows one block. */
  function Only(b: Block): View { map[b.number := b] }

  /** The first head of an empty store is accepted. */
  lemma FirstHead(b: Block)
    requires b.number != 0 && Fetchable(SETTINGS, b)
    ensures var s := Run(START, SETTINGS, [Head(b.number, Only(b))]);
            && s.db == Accept(EMPTY_DB, SETTINGS, b, Realtime) && s.gap == None
            && s.db.checkpoints == map[Realtime := Checkpoint(b.number, b.hash, Running)]
  {
    AcceptAdvances(EMPTY_DB, SETTINGS, b, Realtime);
    hide Accept, Process, Fetchable;
    UncomparedIsAccepted(EMPTY_DB, SETTINGS, Only(b), b.number, Realtime, false);
    var acts := [Head(b.number, Only(b))];
    assert EMPTY_DB.(checkpoints := HandedOff(map[])) == EMPTY_DB;
    assert acts[..0] == [] && Run(START, SETTINGS, []) == START;
  }

  /** A replayed block that does not follow the backfill cursor is accepted. */
  lemma ThenReplayed(acts: seq<Action>, b: Block)
    requires b.number != 0 && Fetchable(SETTINGS, b)
    requires var last := Last(Run(START, SETTINGS, acts).db.checkpoints, BACKFILL_DEFAULT);
             last.None? || b.number != last.value.block + 1
    ensures var s, after := Run(START, SETTINGS, acts), Run(START, SETTINGS, acts + [Replayed(b.number, Only(b))]);
            && after == s.(db := Accept(s.db, SETTINGS, b, BACKFILL_DEFAULT))
            && after.db.checkpoints == Advance(s.db.checkpoints, BACKFILL_DEFAULT, b)
  {
    var s := Run(START, SETTINGS, acts);
    AcceptAdvances(s.db, SETTINGS, b, BACKFILL_DEFAULT);
    UncomparedIsAccepted(s.db, SETTINGS, Only(b), b.number, BACKFILL_DEFAULT, true);
    hide Accept, Process, Fetchable;
    var all := acts + [Replayed(b.number, Only(b))];
    assert all[..|all| - 1] == acts;
  }
}
