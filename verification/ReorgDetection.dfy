/** Comparing a new block with the worker's cursor, and the bounded search for the last block
    on which the store and the node agree. */
module ReorgDetection {
  import opened Types
  import opened Checkpoints

  predicate Matches(blocks: map<nat, BlockRow>, view: View, n: nat) {
    n in blocks && !blocks[n].orphaned && n in view && blocks[n].hash == view[n].hash
  }

  /** The search from `n` downwards with `left` further steps allowed. */
  function Ancestor(blocks: map<nat, BlockRow>, view: View, n: int, left: nat): Result<nat>
    requires n >= -1
    decreases left
  {
    if n < 0 then Ok(0)
    else if n !in view then Thrown(MissingBlock(n))
    else if Matches(blocks, view, n) then Ok(n)
    else if left == 0 then Thrown(ReorgTooDeep)
    else Ancestor(blocks, view, n - 1, left - 1)
  }

  method FindCommonAncestor(blocks: map<nat, BlockRow>, view: View, start: nat, maxDepth: nat)
    returns (r: Result<nat>)
    ensures r == Ancestor(blocks, view, start, maxDepth)
  {
    var depth: nat := 0;
    while start - depth >= 0
      invariant depth <= start + 1 && depth <= maxDepth
      invariant Ancestor(blocks, view, start, maxDepth) == Ancestor(blocks, view, start - depth, maxDepth - depth)
      decreases start - depth
    {
      var number := start - depth;
      if number !in view {
        return Thrown(MissingBlock(number));
      }
      if number in blocks && !blocks[number].orphaned && blocks[number].hash == view[number].hash {
        return Ok(number);
      }
      depth := depth + 1;
      if depth > maxDepth {
        return Thrown(ReorgTooDeep);
      }
    }
    return Ok(0);
  }

  datatype Detection =
    | Valid
    | Reorg(current: nat, localHash: Hash, canonicalHash: Hash, ancestor: nat)
    | Failed(error: Error)

  function Detect(db: Db, maxDepth: nat, view: View, b: Block, w: Worker, allowNonSequential: bool): Detection {
    var last := Last(db.checkpoints, w);
    if last.None? then Valid
    else if allowNonSequential && b.number != last.value.block + 1 then Valid
    else if b.parent == last.value.hash then Valid
    else match Ancestor(db.blocks, view, b.number - 1, maxDepth)
      case Ok(a) => Reorg(b.number, last.value.hash, b.parent, a)
      case Thrown(e) => Failed(e)
  }

  method DetectReorg(db: Db, maxDepth: nat, view: View, b: Block, w: Worker, allowNonSequential: bool)
    returns (d: Detection)
    requires b.number > 0
    ensures d == Detect(db, maxDepth, view, b, w, allowNonSequential)
  {
    var last := Last(db.checkpoints, w);
    if last.None? {
      return Valid;
    }
    if allowNonSequential && b.number != last.value.block + 1 {
      return Valid;
    }
    if b.parent == last.value.hash {
      return Valid;
    }
    var r := FindCommonAncestor(db.blocks, view, b.number - 1, maxDepth);
    match r
    case Ok(a) => return Reorg(b.number, last.value.hash, b.parent, a);
    case Thrown(e) => return Failed(e);
  }

  // ----------------------------------------------------------- properties

  /** Block `n` is in the window and every block of the window above it is known and disagrees. */
  ghost predicate Reached(blocks: map<nat, BlockRow>, view: View, start: nat, maxDepth: nat, n: nat) {
    && start - maxDepth <= n <= start
    && (forall m :: n < m <= start ==> m in view && !Matches(blocks, view, m))
  }

  /** The whole window is known and disagrees. */
  ghost predicate NoMatch(blocks: map<nat, BlockRow>, view: View, start: nat, maxDepth: nat) {
    forall n: nat :: start - maxDepth <= n <= start ==> n in view && !Matches(blocks, view, n)
  }

  /** The search answers the greatest match of its window, unless it meets an unknown block first,
      which makes it throw. With neither it throws when the window stops short of block 0 or ends
      on it, and answers 0 when it runs past block 0. */
  lemma {:induction false} AncestorIsGreatestMatch(blocks: map<nat, BlockRow>, view: View, start: nat, maxDepth: nat,
                                                   n: nat)
    ensures var r := Ancestor(blocks, view, start, maxDepth);
            && (Reached(blocks, view, start, maxDepth, n) && Matches(blocks, view, n) ==> r == Ok(n))
            && (Reached(blocks, view, start, maxDepth, n) && n !in view ==> r == Thrown(MissingBlock(n)))
            && (NoMatch(blocks, view, start, maxDepth)
                ==> r == if start >= maxDepth then Thrown(ReorgTooDeep) else Ok(0))
    decreases maxDepth
  {
    if start in view && !Matches(blocks, view, start) && maxDepth > 0 && start > 0 {
      AncestorIsGreatestMatch(blocks, view, start - 1, maxDepth - 1, n);
      assert Reached(blocks, view, start, maxDepth, n) && n != start
          ==> Reached(blocks, view, start - 1, maxDepth - 1, n);
    }
  }

  /** One of the three cases always applies. */
  lemma {:induction false} MatchOrUnknownOrNone(blocks: map<nat, BlockRow>, view: View, start: nat, maxDepth: nat)
    returns (n: nat)
    ensures NoMatch(blocks, view, start, maxDepth)
         || (Reached(blocks, view, start, maxDepth, n) && (Matches(blocks, view, n) || n !in view))
    decreases maxDepth
  {
    n := start;
    if start in view && !Matches(blocks, view, start) && maxDepth > 0 && start > 0 {
      n := MatchOrUnknownOrNone(blocks, view, start - 1, maxDepth - 1);
    }
  }

  /** What the search answers when every block it probes is known: nothing else is possible. */
  lemma {:induction false} AncestorFound(blocks: map<nat, BlockRow>, view: View, start: nat, maxDepth: nat, a: nat)
    requires Ancestor(blocks, view, start, maxDepth) == Ok(a)
    ensures a in view && a <= start
    ensures Matches(blocks, view, a) || a == 0
    ensures forall n :: a < n <= start ==> n in view && !Matches(blocks, view, n)
    decreases maxDepth
  {
    if !Matches(blocks, view, start) && start > 0 {
      AncestorFound(blocks, view, start - 1, maxDepth - 1, a);
    }
  }

  /** The stored rows from `lo` to `hi` exist, are not orphaned and name each other as parents. */
  ghost predicate Segment(blocks: map<nat, BlockRow>, lo: nat, hi: nat) {
    && (forall n :: lo <= n <= hi ==> Live(blocks, n))
    && (forall n :: lo <= n < hi && n in blocks && n + 1 in blocks ==> blocks[n + 1].parent == blocks[n].hash)
  }

  ghost predicate Linked(view: View, lo: nat, hi: nat) {
    && (forall n :: lo <= n <= hi ==> n in view)
    && (forall n :: lo <= n < hi && n in view && n + 1 in view ==> view[n + 1].parent == view[n].hash)
  }

  /** A hash stands for one block, so equal hashes have equal parents. */
  ghost predicate HashFixesParent(blocks: map<nat, BlockRow>, view: View) {
    forall n :: n in blocks && n in view && blocks[n].hash == view[n].hash ==> blocks[n].parent == view[n].parent
  }

  /** Agreement at one block of a linked segment is agreement at every block below it, so the
      greatest match is the fork point. */
  lemma {:induction false} AgreementGoesDown(blocks: map<nat, BlockRow>, view: View, lo: nat, a: nat, n: nat)
    requires lo <= n <= a
    requires Segment(blocks, lo, a) && Linked(view, lo, a) && HashFixesParent(blocks, view)
    requires Matches(blocks, view, a)
    ensures Matches(blocks, view, n) && blocks[n].parent == view[n].parent
    decreases a - n
  {
    if n < a {
      AgreementGoesDown(blocks, view, lo, a, n + 1);
      assert Live(blocks, n) && n in view;
    }
  }

  /** With the cursor on an unforked chain, the strict check passes exactly the cursor's successor
      and calls every other block a reorg or fails; the check used by backfill passes them all. */
  lemma StrictCheckPassesOnlySuccessor(db: Db, maxDepth: nat, view: View, w: Worker, n: nat)
    requires 0 < n && n in view && n - 1 in view && view[n].parent == view[n - 1].hash
    requires forall i, j :: i in view && j in view && view[i].hash == view[j].hash ==> i == j
    requires Last(db.checkpoints, w).Some?
    requires var c := Last(db.checkpoints, w).value; c.block in view && view[c.block].hash == c.hash
    ensures Detect(db, maxDepth, view, view[n], w, false) == Valid <==> n == Last(db.checkpoints, w).value.block + 1
    ensures Detect(db, maxDepth, view, view[n], w, true) == Valid
  {
    hide Ancestor;
    var c := Last(db.checkpoints, w).value;
    assert view[n - 1].hash == view[c.block].hash ==> n - 1 == c.block;
  }
}
