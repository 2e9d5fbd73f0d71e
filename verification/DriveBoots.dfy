/**
 * Booting over the live tables after I/O faults: the replay succeeds, and it changes nothing exactly when no
 * rolled-back line still shows through (apps/drive/src/storage/maintenance.ts, reconcileOnBoot and rebuildIndex).
 */
module DriveBoots {
  import opened Prelude
  import opened DriveIndex
  import opened DriveMachine
  import opened DriveReplay
  import opened DriveSafety
  import opened DriveRuns
  import opened DriveLive
  import opened DriveFencing
  import opened DriveFacts
  import opened DriveAlways
  import opened DriveFaults

  // ----- the order of the lines ---------------------------------------------------------------------------------

  /** The compensation of a rolled-back line is the very next line. */
  ghost predicate DeadPaired(lines: seq<Event>) {
    forall i | 0 <= i < |lines| && Dead(lines, lines[i]) :: i + 1 < |lines| && lines[i + 1] == Aborted(lines[i].version)
  }

  /** A committed line is numbered above every row an earlier line of its artifact pointed to. */
  ghost predicate SeqsAscend(versions: map<Id, VersionRow>, lines: seq<Event>) {
    forall i, k | 0 <= i < k < |lines| && lines[k].VersionCommitted? && Moves(lines[i], lines[k].row.artifact) ::
      (Target(lines[i]).Some? && Target(lines[i]).value in versions ==>
        versions[Target(lines[i]).value].seqNo < lines[k].row.seqNo)
  }

  /** What a step without collection or boot adds: no committed line, or one for the next version, maybe rolled back. */
  ghost predicate AddsOne(s: State, t: State) {
    && s.journal <= t.journal
    && var more := t.journal[|s.journal|..];
       || (forall e | e in more :: !e.VersionCommitted?)
       || (&& 1 <= |more| <= 2 && more[0].VersionCommitted? && more[0].version == s.next
           && more[0].row.seqNo == MaxSeq(s.ix.versions, more[0].row.artifact) + 1
           && (|more| == 2 ==> more[1] == Aborted(s.next)))
  }

  lemma CommitAddsOne(s: State, p: Principal, u: Id, mat: Material, now: nat, limits: Limits, fault: Fault)
    ensures AddsOne(s, Commit(s, p, u, mat, now, limits, fault).after)
  {
    hide Clashes, Commit, CommitTxn, MaxSeq;
    var t := Commit(s, p, u, mat, now, limits, fault).after;
    if t != s {
      CommitIsTxn(s, p, u, mat, now, limits, fault);
      CommitEffect(s, u, mat, now, fault);
      if CommitTxn(s, u, mat, now, fault).reply.Err? {
        FailedCommitLines(s, u, mat, now, fault);
      }
    }
  }

  lemma StepAddsOne(s: State, op: Op, limits: Limits)
    requires BootFree(op)
    ensures AddsOne(s, Step(s, op, limits))
  {
    if op.DoCommit? {
      hide Commit, AddsOne;
      CommitAddsOne(s, op.p, op.u, op.mat, op.now, limits, op.fault);
    } else {
      hide Commit, Clashes, MaxSeq, Rebuild, Interrupted, PurgeChains;
    }
  }

  lemma PairedAfter(s: State, t: State)
    requires AddsOne(s, t) && DeadPaired(s.journal) && JournalMinted(s) && Grows(s, t)
    ensures DeadPaired(t.journal)
  {
    GrownSpares(s, t);
    var more := t.journal[|s.journal|..];
    SparedAlive(s.journal, more);
    if |more| == 1 && more[0].VersionCommitted? {
      assert more == [more[0]];
      NextStaysAlive(s, t, more[0]);
    }
    hide JournalMinted, Grows, Spares;
    forall i | 0 <= i < |t.journal| && Dead(t.journal, t.journal[i])
      ensures i + 1 < |t.journal| && t.journal[i + 1] == Aborted(t.journal[i].version)
    {
      if i < |s.journal| {
        assert t.journal[i] == s.journal[i];
      } else {
        assert t.journal[i] == more[i - |s.journal|] && more[i - |s.journal|] in more;
        assert |more| == 2 && more[1] == t.journal[|s.journal| + 1];
      }
    }
  }

  lemma NextStaysAlive(s: State, t: State, e: Event)
    requires JournalMinted(s) && Grows(s, t) && t.journal == s.journal + [e] && e.VersionCommitted?
    ensures !Dead(t.journal, e)
  {
    NextIsAlive(s, t, e);
  }

  /** Where a line points is a row of its own artifact, and an old one. */
  lemma TargetIsOwn(s: State, e: Event, a: Id, w: Id)
    requires FaultLine(s.journal, s.ix, e) && Minted(s.ix, s.journal, s.next) && e in s.journal
    requires Moves(e, a) && Target(e) == Some(w)
    ensures w < s.next
    ensures w in s.ix.versions ==> s.ix.versions[w].artifact == a
  {
    assert LineMinted(e, s.next);
    if e.VersionCommitted? && w in s.ix.versions {
      assert s.ix.versions[w].Journaled().artifact == a;
    }
  }

  lemma AscendAfter(s: State, t: State, marks: set<nat>)
    requires FaultCore(s.ix, s.journal, s.next, marks) && AddsOne(s, t) && RowsAppendOnly(s, t)
    requires SeqsAscend(s.ix.versions, s.journal)
    ensures SeqsAscend(t.ix.versions, t.journal)
  {
    hide FaultTips, LiveFences, RowsLined, LivePrints, ReplayLines, FaultMirror, FaultLine, Minted;
    var more := t.journal[|s.journal|..];
    assert t.journal == s.journal + more;
    forall i, k | 0 <= i < k < |t.journal| && t.journal[k].VersionCommitted?
           && Moves(t.journal[i], t.journal[k].row.artifact)
                  && Target(t.journal[i]).Some? && Target(t.journal[i]).value in t.ix.versions
      ensures t.ix.versions[Target(t.journal[i]).value].seqNo < t.journal[k].row.seqNo
    {
      var e, w := t.journal[i], Target(t.journal[i]).value;
      if k >= |s.journal| {
        assert t.journal[k] == more[k - |s.journal|] && t.journal[k] in more;
        assert k == |s.journal|;
      }
      assert e == s.journal[i] && e in s.journal;
      assert FaultLine(s.journal, s.ix, e);
      TargetIsOwn(s, e, t.journal[k].row.artifact, w);
    }
  }

  ghost predicate Ordered(s: State, marks: set<nat>) {
    Faulty(s, marks) && DeadPaired(s.journal) && SeqsAscend(s.ix.versions, s.journal)
  }

  lemma StepOrdered(s: State, op: Op, limits: Limits, marks: set<nat>)
    requires Ordered(s, marks) && BootFree(op) && !op.DoCollect?
    ensures Ordered(Step(s, op, limits), marks)
  {
    hide Step, FaultCore, DeadPaired, SeqsAscend, Grows, AddsOne, Sound, LinesWhole, RowsTold, NamesTold, PointersTold;
    StepFaulty(s, op, limits, marks);
    StepGrows(s, op, limits);
    StepAddsOne(s, op, limits);
    StepAppends(s, op, limits);
    PairedAfter(s, Step(s, op, limits));
    AscendAfter(s, Step(s, op, limits), marks);
  }

  // ----- replaying the lines over the tables they were written beside ------------------------------------------------

  /** Only the row of a rolled-back line whose compensation comes next is there besides the table's own. */
  ghost predicate WalkRows(f: Index, ix: Index, lines: seq<Event>, k: nat)
    requires k <= |lines|
  {
    && (forall w | w in ix.versions :: w in f.versions && f.versions[w] == ix.versions[w])
    && (forall w | w in f.versions && w !in ix.versions ::
        0 < k && Dead(lines, lines[k - 1]) && lines[k - 1].version == w)
  }

  /** A pointer has not moved, or is where the last line that moves it says. */
  ghost predicate WalkPointer(f: Index, ix: Index, lines: seq<Event>, a: Id)
    requires a in f.artifacts && a in ix.artifacts
  {
    || f.artifacts[a].current == ix.artifacts[a].current
    || (LastMove(lines, a).Some? && f.artifacts[a].current == Target(LastMove(lines, a).value))
  }

  ghost predicate WalkPointers(f: Index, ix: Index, lines: seq<Event>) {
    && f.artifacts.Keys == ix.artifacts.Keys
    && (forall a | a in f.artifacts :: f.artifacts[a] == ix.artifacts[a].(current := f.artifacts[a].current))
    && (forall a | a in f.artifacts :: WalkPointer(f, ix, lines, a))
  }

  /** The table's blob rows, and for the blobs it lacks those of the first lines that name them. */
  ghost predicate WalkBlobs(f: Index, ix: Index, lines: seq<Event>) {
    && (forall x | x in ix.blobs :: x in f.blobs && f.blobs[x] == ix.blobs[x])
    && (forall x: Sha | x !in ix.blobs :: PrintIn(f.blobs, x) == FirstPrint(lines, x))
  }

  ghost predicate Walk(f: Index, ix: Index, lines: seq<Event>, k: nat)
    requires k <= |lines|
  {
    && WalkRows(f, ix, lines, k) && WalkPointers(f, ix, lines[..k])
    && WalkBlobs(f, ix, lines[..k])
  }

  /** A pointer that resolves resolves to a byte-holding row of its artifact; it may dangle. */
  ghost predicate PointersTrue(ix: Index) {
    forall a | a in ix.artifacts && ix.artifacts[a].current.Some? && ix.artifacts[a].current.value in ix.versions ::
      && ix.versions[ix.artifacts[a].current.value].artifact == a
      && !ix.versions[ix.artifacts[a].current.value].IsMarker()
  }

  /** What the walk needs of tables and journal. */
  ghost predicate Walkable(ix: Index, lines: seq<Event>) {
    && RowsLinked(ix) && PointersTrue(ix)
    && FaultLines(lines, ix) && RowsLined(lines, ix) && DeadPaired(lines) && SeqsAscend(ix.versions, lines)
  }

  lemma NextApplies(f: Index, ix: Index, lines: seq<Event>, k: nat)
    requires k < |lines| && FaultLine(lines, ix, lines[k]) && f.artifacts.Keys == ix.artifacts.Keys
    ensures ApplyEvent(f, lines[k]).Some?
  {
    hide Clashes, NameTaken, CurrentSeq, RaiseFence, RefCount;
    if lines[k].VersionCommitted? {
      assert lines[k].row.artifact in ix.artifacts.Keys;
    }
  }

  lemma NextWalkRows(f: Index, ix: Index, lines: seq<Event>, k: nat)
    requires k < |lines| && FaultLine(lines, ix, lines[k]) && DeadPaired(lines) && WalkRows(f, ix, lines, k)
    requires ApplyEvent(f, lines[k]).Some?
    ensures WalkRows(ApplyEvent(f, lines[k]).value, ix, lines, k + 1)
  {
    NextRows(f, lines[k]);
    hide ApplyEvent, Clashes;
    if 0 < k && Dead(lines, lines[k - 1]) {
      assert lines[k] == Aborted(lines[k - 1].version);
    }
  }

  lemma NextBlobs(f: Index, e: Event)
    requires ApplyEvent(f, e).Some? && !e.GcPurge?
    ensures ApplyEvent(f, e).value.blobs ==
            if e.VersionCommitted? && e.row.sha.Some? && e.row.sha.value !in f.blobs then
              f.blobs[e.row.sha.value := BlobRow(e.row.size, 0, e.row.createdAt)]
            else f.blobs
  {
    hide Clashes, NameTaken, CurrentSeq, RefCount, RaiseFence;
  }

  lemma NextWalkBlobs(f: Index, ix: Index, lines: seq<Event>, e: Event)
    requires WalkBlobs(f, ix, lines) && !e.GcPurge? && ApplyEvent(f, e).Some?
    ensures WalkBlobs(ApplyEvent(f, e).value, ix, lines + [e])
  {
    NextBlobs(f, e);
    forall x: Sha | x !in ix.blobs
      ensures PrintIn(ApplyEvent(f, e).value.blobs, x) == FirstPrint(lines + [e], x)
    {
      FirstPrintAppend(lines, e, x);
      ApplyPrint(f, e, x);
    }
  }

  // ----- pointers ------------------------------------------------------------------------------------------------

  /** What one line does to the artifact rows: a pointer it moves lands on its target unless the guard keeps it. */
  lemma NextPointers(f: Index, e: Event)
    requires ApplyEvent(f, e).Some? && (e.VersionCommitted? ==> e.row.artifact in f.artifacts)
    ensures var g := ApplyEvent(f, e).value;
            && g.artifacts.Keys == f.artifacts.Keys
            && forall a | a in f.artifacts ::
                 if !Moves(e, a) then g.artifacts[a] == f.artifacts[a]
                 else g.artifacts[a] == f.artifacts[a].(current := g.artifacts[a].current)
                      && (g.artifacts[a].current == Target(e)
                          || (e.VersionCommitted? && g.artifacts[a].current == f.artifacts[a].current
                              && CurrentSeq(f, a) >= e.row.seqNo))
  {
    hide Clashes, NameTaken, RefCount, RaiseFence;
  }

  /** Before a committed line no rolled-back row is pending. */
  lemma NothingPending(f: Index, ix: Index, lines: seq<Event>, k: nat)
    requires k < |lines| && lines[k].VersionCommitted? && DeadPaired(lines) && WalkRows(f, ix, lines, k)
    ensures forall w | w in f.versions :: w in ix.versions
  {
    assert 0 < k ==> !Dead(lines, lines[k - 1]);
  }

  /** The guard never keeps a pointer that a line put there before. */
  lemma GuardLetsUp(f: Index, ix: Index, lines: seq<Event>, k: nat, a: Id)
    requires k < |lines| && SeqsAscend(ix.versions, lines) && (forall w | w in f.versions :: w in ix.versions)
    requires WalkRows(f, ix, lines, k) && lines[k].VersionCommitted?
    requires lines[k].row.artifact == a && a in f.artifacts
    requires LastMove(lines[..k], a).Some? && f.artifacts[a].current == Target(LastMove(lines[..k], a).value)
    ensures CurrentSeq(f, a) < lines[k].row.seqNo
  {
    LastMoveIsLine(lines[..k], a);
    var i :| 0 <= i < k && lines[i] == LastMove(lines[..k], a).value;
    assert Moves(lines[i], lines[k].row.artifact);
  }

  lemma NextWalkPointers(f: Index, ix: Index, lines: seq<Event>, k: nat)
    requires k < |lines| && Walkable(ix, lines) && WalkRows(f, ix, lines, k) && WalkPointers(f, ix, lines[..k])
    requires ApplyEvent(f, lines[k]).Some?
    ensures WalkPointers(ApplyEvent(f, lines[k]).value, ix, lines[..k + 1])
  {
    var e, g := lines[k], ApplyEvent(f, lines[k]).value;
    assert FaultLine(lines, ix, e);
    if e.VersionCommitted? {
      CommittedLineParented(lines, ix, e);
    }
    NextPointers(f, e);
    assert lines[..k + 1] == lines[..k] + [e];
    hide ApplyEvent, Walkable, WalkRows, CurrentSeq, FaultLine;
    forall a | a in g.artifacts
      ensures WalkPointer(g, ix, lines[..k + 1], a)
      ensures g.artifacts[a] == ix.artifacts[a].(current := g.artifacts[a].current)
    {
      LastMoveAppend(lines[..k], e, a);
      assert WalkPointer(f, ix, lines[..k], a);
      if Moves(e, a) && e.VersionCommitted? && f.artifacts[a].current != ix.artifacts[a].current {
        NothingPending(f, ix, lines, k);
        GuardLetsUp(f, ix, lines, k, a);
      }
    }
  }

  lemma CommittedLineParented(lines: seq<Event>, ix: Index, e: Event)
    requires FaultLine(lines, ix, e) && e.VersionCommitted?
    ensures e.row.artifact in ix.artifacts
  {
  }

  // ----- the whole walk ------------------------------------------------------------------------------------------

  lemma WalkNext(f: Index, ix: Index, lines: seq<Event>, k: nat)
    requires k < |lines| && Walkable(ix, lines) && Walk(f, ix, lines, k)
    ensures ApplyEvent(f, lines[k]).Some? && Walk(ApplyEvent(f, lines[k]).value, ix, lines, k + 1)
  {
    hide WalkRows, WalkBlobs, ApplyEvent, DeadPaired, SeqsAscend, RowsLinked, PointersTrue, RowsLined;
    assert FaultLine(lines, ix, lines[k]);
    NextApplies(f, ix, lines, k);
    hide FaultLine, FaultLines;
    assert lines[..k + 1] == lines[..k] + [lines[k]];
    NextWalkRows(f, ix, lines, k);
    NextWalkPointers(f, ix, lines, k);
    NextWalkBlobs(f, ix, lines[..k], lines[k]);
  }

  lemma WalkStarts(ix: Index, lines: seq<Event>)
    ensures lines[..0] == [] && Walk(ix, ix, lines, 0)
  {
  }

  lemma {:induction false} WalkLines(ix: Index, lines: seq<Event>, k: nat)
    requires Walkable(ix, lines) && k <= |lines|
    ensures ReplayLines(ix, lines[..k]).Some? && Walk(ReplayLines(ix, lines[..k]).value, ix, lines, k)
  {
    hide Walkable, Walk, ApplyEvent;
    if k == 0 {
      WalkStarts(ix, lines);
    } else {
      WalkLines(ix, lines, k - 1);
      WalkNext(ReplayLines(ix, lines[..k - 1]).value, ix, lines, k - 1);
      assert lines[..k] == lines[..k - 1] + [lines[k - 1]];
      ReplayAppend(ix, lines[..k - 1], lines[k - 1]);
    }
  }

  // ----- a rolled-back last move stays ---------------------------------------------------------------------------

  /** When a rolled-back last move is replayed its pointer is lower: every row of the artifact has an earlier line. */
  lemma LastDeadIsAbove(f: Index, ix: Index, lines: seq<Event>, a: Id, j: nat)
    requires Walkable(ix, lines) && LastMoveAt(lines, a, j) && Dead(lines, lines[j]) && a in f.artifacts
    requires WalkRows(f, ix, lines, j) && f.artifacts[a].current == ix.artifacts[a].current && a in ix.artifacts
    ensures CurrentSeq(f, a) < lines[j].row.seqNo
  {
    hide RowsLinked, FaultLine;
    if f.artifacts[a].current.Some? && f.artifacts[a].current.value in f.versions {
      var w := f.artifacts[a].current.value;
      var i :| 0 <= i < |lines| && Alive(lines, lines[i]) && lines[i].version == w;
      AliveIsRow(ix, lines, i);
      assert Moves(lines[i], a);
      assert i < j;
    }
  }

  lemma AliveIsRow(ix: Index, lines: seq<Event>, i: nat)
    requires i < |lines| && FaultLines(lines, ix) && Alive(lines, lines[i]) && lines[i].version in ix.versions
    ensures ix.versions[lines[i].version].artifact == lines[i].row.artifact
  {
    assert FaultLine(lines, ix, lines[i]);
    assert ix.versions[lines[i].version].Journaled() == lines[i].row;
  }

  /** One line of the walk, as one artifact's pointer sees it. */
  ghost predicate PointerStep(f: Index, g: Index, e: Event, a: Id)
    requires a in f.artifacts && a in g.artifacts
  {
    if !Moves(e, a) then g.artifacts[a].current == f.artifacts[a].current
    else g.artifacts[a].current == Target(e)
         || (e.VersionCommitted? && g.artifacts[a].current == f.artifacts[a].current && CurrentSeq(f, a) >= e.row.seqNo)
  }

  lemma WalkedStep(ix: Index, lines: seq<Event>, k: nat, a: Id)
    requires Walkable(ix, lines) && k < |lines| && a in ix.artifacts
    ensures ReplayLines(ix, lines[..k]).Some? && ReplayLines(ix, lines[..k + 1]).Some?
    ensures var f, g := ReplayLines(ix, lines[..k]).value, ReplayLines(ix, lines[..k + 1]).value;
            && WalkRows(f, ix, lines, k)
            && a in f.artifacts && a in g.artifacts && WalkPointer(f, ix, lines[..k], a)
              && PointerStep(f, g, lines[k], a)
  {
    hide ApplyEvent, WalkRows, WalkPointer, WalkBlobs, CurrentSeq;
    WalkLines(ix, lines, k);
    WalkLines(ix, lines, k + 1);
    assert lines[..k + 1] == lines[..k] + [lines[k]];
    ReplayAppend(ix, lines[..k], lines[k]);
    hide ReplayLines;
    var f := ReplayLines(ix, lines[..k]).value;
    assert a in f.artifacts.Keys;
    assert FaultLine(lines, ix, lines[k]);
    hide Walkable;
    if lines[k].VersionCommitted? {
      CommittedLineParented(lines, ix, lines[k]);
      assert lines[k].row.artifact in f.artifacts.Keys;
    }
    NextPointers(f, lines[k]);
  }

  lemma DeadLands(ix: Index, lines: seq<Event>, a: Id, j: nat)
    requires Walkable(ix, lines) && LastMoveAt(lines, a, j) && Dead(lines, lines[j]) && a in ix.artifacts
    ensures ReplayLines(ix, lines[..j + 1]).Some? && a in ReplayLines(ix, lines[..j + 1]).value.artifacts
    ensures ReplayLines(ix, lines[..j + 1]).value.artifacts[a].current == Some(lines[j].version)
  {
    WalkedStep(ix, lines, j, a);
    hide ReplayLines, WalkRows, CurrentSeq, FaultLines, RowsLinked, PointersTrue, RowsLined;
    var f := ReplayLines(ix, lines[..j]).value;
    if f.artifacts[a].current == ix.artifacts[a].current {
      LastDeadIsAbove(f, ix, lines, a, j);
    } else {
      NothingPending(f, ix, lines, j);
      GuardLetsUp(f, ix, lines, j, a);
    }
  }

  lemma {:induction false} DeadStays(ix: Index, lines: seq<Event>, a: Id, j: nat, k: nat)
    requires Walkable(ix, lines) && LastMoveAt(lines, a, j) && Dead(lines, lines[j]) && a in ix.artifacts
             && j < k <= |lines|
    ensures ReplayLines(ix, lines[..k]).Some? && a in ReplayLines(ix, lines[..k]).value.artifacts
    ensures ReplayLines(ix, lines[..k]).value.artifacts[a].current == Some(lines[j].version)
  {
    hide ReplayLines, Walkable, WalkRows, WalkPointer, CurrentSeq;
    if k == j + 1 {
      DeadLands(ix, lines, a, j);
    } else {
      DeadStays(ix, lines, a, j, k - 1);
      WalkedStep(ix, lines, k - 1, a);
    }
  }

  // ----- what a boot leaves --------------------------------------------------------------------------------------

  /** Version rows stay, pointers, blobs and high-waters are as walked. */
  ghost predicate Booted(f: Index, ix: Index, lines: seq<Event>) {
    && f.versions == ix.versions && WalkPointers(f, ix, lines) && WalkBlobs(f, ix, lines)
    && ReplayedFences(f.fences, ix.fences, lines)
  }

  lemma BootWalks(ix: Index, lines: seq<Event>)
    requires Walkable(ix, lines)
    ensures ReplayLines(ix, lines).Some? && Booted(ReplayLines(ix, lines).value, ix, lines)
  {
    hide ReplayLines, ReplayedFences, WalkPointers, WalkBlobs;
    WalkLines(ix, lines, |lines|);
    assert lines[..|lines|] == lines;
    ReplayFences(ix, lines);
    RowsBack(ReplayLines(ix, lines).value, ix, lines);
  }

  lemma RowsBack(f: Index, ix: Index, lines: seq<Event>)
    requires WalkRows(f, ix, lines, |lines|) && DeadPaired(lines)
    ensures f.versions == ix.versions
  {
    assert forall w | w in f.versions :: w in ix.versions;
  }

  /** Behind a boot every line has been seen. */
  lemma AllSeen(lines: seq<Event>, marks: set<nat>)
    ensures forall i | 0 <= i < |lines| :: Seen(marks + {|lines|}, i)
  {
    assert |lines| in marks + {|lines|};
  }

  lemma BootTip(f: Index, ix: Index, lines: seq<Event>, a: Id, marks: set<nat>)
    requires Walkable(ix, lines) && ReplayLines(ix, lines) == Some(f) && WalkPointers(f, ix, lines)
    requires a in ix.artifacts && a in f.artifacts && FaultTip(lines, ix, a, marks)
    ensures FaultTip(lines, f, a, marks + {|lines|})
  {
    hide ReplayLines, Walkable;
    AllSeen(lines, marks);
    assert WalkPointer(f, ix, lines, a);
    forall j: nat | LastMoveAt(lines, a, j)
      ensures f.artifacts[a].current == Target(lines[j])
    {
      LastMoveIsAt(lines, a, j);
      if Hidden(lines, marks, j) {
        DeadStays(ix, lines, a, j, |lines|);
        assert lines[..|lines|] == lines;
      }
    }
  }

  lemma BootTips(f: Index, ix: Index, lines: seq<Event>, marks: set<nat>)
    requires Walkable(ix, lines) && ReplayLines(ix, lines) == Some(f) && WalkPointers(f, ix, lines)
    requires FaultTips(lines, ix, marks)
    ensures FaultTips(lines, f, marks + {|lines|})
  {
    hide ReplayLines, Walkable, FaultTip;
    forall a | a in f.artifacts
      ensures FaultTip(lines, f, a, marks + {|lines|})
    {
      assert a in ix.artifacts.Keys;
      BootTip(f, ix, lines, a, marks);
    }
  }

  lemma BootFences(replayed: map<Ticket, nat>, fences: map<Ticket, nat>, lines: seq<Event>, marks: set<nat>)
    requires ReplayedFences(replayed, fences, lines) && LiveFences(fences, lines, marks)
    ensures LiveFences(replayed, lines, marks + {|lines|})
  {
    AllSeen(lines, marks);
    hide Seen;
    forall t | t in replayed
      ensures exists i | 0 <= i < |lines| ::
              Shown(lines, marks + {|lines|}, i) && Carries(lines[i], t) && lines[i].row.fence.value == replayed[t]
    {
      var i :| 0 <= i < |lines| && Carries(lines[i], t) && lines[i].row.fence.value == replayed[t];
      assert Shown(lines, marks + {|lines|}, i);
    }
  }

  lemma {:induction false} LaterMark(lines: seq<Event>, all: seq<Event>, x: Sha, marks: set<nat>, m: nat)
    requires |lines| < m
    ensures ShownPrint(lines, all, x, marks + {m}) == ShownPrint(lines, all, x, marks)
  {
    if lines != [] {
      LaterMark(Front(lines), all, x, marks, m);
    }
  }

  lemma MarkAdds(lines: seq<Event>, all: seq<Event>, x: Sha, marks: set<nat>)
    ensures ShownPrint(lines, all, x, marks + {|lines|}) ==
            if ShownPrint(lines, all, x, marks).Some? then ShownPrint(lines, all, x, marks) else FirstPrint(lines, x)
  {
    if lines != [] {
      LaterMark(Front(lines), all, x, marks, |lines|);
    }
  }

  lemma BootPrints(f: Index, ix: Index, lines: seq<Event>, marks: set<nat>)
    requires WalkBlobs(f, ix, lines) && LivePrints(ix.blobs, lines, marks)
    ensures LivePrints(Recount(f).blobs, lines, marks + {|lines|})
  {
    hide ShownPrint, FirstPrint, RefCount;
    forall x: Sha
      ensures PrintIn(Recount(f).blobs, x) == ShownPrint(lines, lines, x, marks + {|lines|})
    {
      MarkAdds(lines, lines, x, marks);
      assert PrintIn(ix.blobs, x) == ShownPrint(lines, lines, x, marks);
      assert PrintIn(Recount(f).blobs, x) == PrintIn(f.blobs, x);
    }
  }

  lemma BootLines(r: Index, ix: Index, lines: seq<Event>)
    requires FaultLines(lines, ix) && r.versions == ix.versions && FencesRise(ix.fences, r.fences)
    requires forall a | a in ix.artifacts ::
               a in r.artifacts && r.artifacts[a].ticket == ix.artifacts[a].ticket
                 && r.artifacts[a].name == ix.artifacts[a].name
    ensures FaultLines(lines, r)
  {
    forall i | 0 <= i < |lines|
      ensures FaultLine(lines, r, lines[i])
    {
      assert FaultLine(lines, ix, lines[i]);
    }
  }

  lemma BootMirror(f: Index, r: Index, ix: Index, lines: seq<Event>)
    requires FaultMirror(f, ix, lines) && r.versions == ix.versions
    requires forall a | a in ix.artifacts ::
               a in r.artifacts && r.artifacts[a].ticket == ix.artifacts[a].ticket
                 && r.artifacts[a].name == ix.artifacts[a].name
    ensures FaultMirror(f, r, lines)
  {
    forall a | a in f.artifacts
      ensures AdoptedArtifact(f, r, lines, a)
    {
      assert AdoptedArtifact(f, ix, lines, a);
    }
  }

  lemma BootKeepsNames(f: Index, ix: Index, lines: seq<Event>)
    requires WalkPointers(f, ix, lines)
    ensures f.artifacts.Keys == ix.artifacts.Keys
    ensures forall a | a in ix.artifacts ::
              a in f.artifacts && f.artifacts[a].ticket == ix.artifacts[a].ticket
                && f.artifacts[a].name == ix.artifacts[a].name
  {
    forall a | a in ix.artifacts
      ensures a in f.artifacts
    {
      assert a in f.artifacts.Keys;
    }
  }

  lemma BootFaultCore(ix: Index, lines: seq<Event>, next: Id, marks: set<nat>, f: Index)
    requires FaultCore(ix, lines, next, marks) && Walkable(ix, lines)
    requires ReplayLines(ix, lines) == Some(f) && Booted(f, ix, lines) && PointersMinted(f, next)
    ensures FaultCore(Recount(f), lines, next, marks + {|lines|})
  {
    hide ReplayLines, Walkable, FaultLines, FaultTips, LiveFences, LivePrints, FaultMirror, RefCount;
    var r := Recount(f);
    BootTips(f, ix, lines, marks);
    SameTips(f, r, lines, marks + {|lines|});
    hide WalkBlobs, WalkPointers, ReplayedFences;
    BootKeepsNames(f, ix, lines);
    BootFences(f.fences, ix.fences, lines, marks);
    BootPrints(f, ix, lines, marks);
    RisesOnly(f.fences, ix.fences, lines);
    BootLines(r, ix, lines);
    BootMirror(ReplayLines(EMPTY, lines).value, r, ix, lines);
  }

  lemma RisesOnly(replayed: map<Ticket, nat>, fences: map<Ticket, nat>, lines: seq<Event>)
    requires ReplayedFences(replayed, fences, lines)
    ensures FencesRise(fences, replayed)
  {
  }

  lemma SameTips(f: Index, r: Index, lines: seq<Event>, marks: set<nat>)
    requires FaultTips(lines, f, marks) && r.artifacts == f.artifacts
    ensures FaultTips(lines, r, marks)
  {
    forall a | a in r.artifacts
      ensures FaultTip(lines, r, a, marks)
    {
      assert FaultTip(lines, f, a, marks);
    }
  }

  lemma FactsPointers(s: State)
    requires Facts(s)
    ensures PointersTrue(s.ix) && PointersMinted(s.ix, s.next)
  {
    forall a | a in s.ix.artifacts && s.ix.artifacts[a].current.Some?
      ensures Owns(s, a, s.ix.artifacts[a].current.value) && s.ix.artifacts[a].current.value < s.next
    {
      assert Pointed(s, a, s.ix.artifacts[a].current.value);
    }
  }

  lemma OrderedWalks(s: State, marks: set<nat>)
    requires Ordered(s, marks)
    ensures Walkable(s.ix, s.journal)
  {
    FactsPointers(s);
    hide PointersTrue, LinesWhole, RowsTold, NamesTold, PointersTold, FaultTips, LiveFences, LivePrints, FaultMirror,
      ReplayLines;
  }

  lemma BootOrdered(s: State, marks: set<nat>)
    requires Ordered(s, marks)
    ensures Rebuild(s.ix, s.journal).Some? && Reboot(s).ix.versions == s.ix.versions
    ensures Ordered(Reboot(s), marks + {|s.journal|})
  {
    hide Facts, FaultCore, DeadPaired, SeqsAscend, Walkable, RowsKept;
    OrderedWalks(s, marks);
    BootWalks(s.ix, s.journal);
    BootFacts(s);
    FactsPointers(Reboot(s));
    var f := ReplayLines(s.ix, s.journal).value;
    BootFaultCore(s.ix, s.journal, s.next, marks, f);
  }

  // ----- a crash is a boot, and then the line that survived ------------------------------------------------------

  /** Replaying one more line for a new version over booted tables. */
  lemma CommitBehindBoot(s: State, b: State, v: Id, row: VersionRow, name: string)
    requires Rebuild(s.ix, s.journal) == Some(b.ix) && Sound(b.ix) && PointersTrue(b.ix) && PointersMinted(b.ix, v)
    requires Fits(b.ix, v, row, name)
    ensures Rebuild(s.ix, s.journal + [LineOf(v, row, name)]) == Some(CommitIndex(b.ix, v, row.Journaled()))
  {
    ReplayAppend(s.ix, s.journal, LineOf(v, row, name));
    hide ReplayLines, RefCount;
    var f := ReplayLines(s.ix, s.journal).value;
    assert f.versions == b.ix.versions && f.artifacts == b.ix.artifacts;
    SeqBelowMax(b.ix, row.artifact);
    assert CurrentSeq(f, row.artifact) == CurrentSeq(b.ix, row.artifact);
    ApplyFreshLine(f, v, row, name);
    RecountInserted(f, v, row, name);
    FittingRecounts(b.ix, v, row, name);
  }

  lemma SeqBelowMax(ix: Index, a: Id)
    requires PointersTrue(ix)
    ensures CurrentSeq(ix, a) <= MaxSeq(ix.versions, a)
  {
  }

  /** Two indexes that differ in refcounts at most. */
  ghost predicate CountsApart(f: Index, g: Index) {
    && g == f.(blobs := g.blobs) && f.blobs.Keys == g.blobs.Keys
    && forall x | x in f.blobs :: g.blobs[x] == f.blobs[x].(refcount := g.blobs[x].refcount)
  }

  lemma AdoptedApart(f: Index, g: Index, row: VersionRow, name: string)
    requires CountsApart(f, g)
    ensures CountsApart(AdoptParents(f, row, name), AdoptParents(g, row, name))
  {
    hide NameTaken;
  }

  lemma RecountApart(f: Index, g: Index)
    requires CountsApart(f, g)
    ensures Recount(f) == Recount(g)
  {
    hide RefCount;
    assert Recount(f).blobs == Recount(g).blobs;
  }

  lemma RecountInserted(f: Index, v: Id, row: VersionRow, name: string)
    ensures Recount(Inserted(f, v, row, name)) == Recount(Inserted(Recount(f), v, row, name))
  {
    hide RefCount, AdoptParents, RaiseFence;
    AdoptedApart(f, Recount(f), row.Journaled(), name);
    RecountApart(Inserted(f, v, row, name), Inserted(Recount(f), v, row, name));
  }

  lemma FittingRecounts(ix: Index, v: Id, row: VersionRow, name: string)
    requires RowsLinked(ix) && RefsCounted(ix) && Fits(ix, v, row, name)
    ensures Recount(Inserted(ix, v, row, name)) == CommitIndex(ix, v, row.Journaled())
  {
    hide RefCount;
    CommitCounts(ix, v, row.Journaled(), name);
    assert Recount(Inserted(ix, v, row, name)).blobs == CommitIndex(ix, v, row.Journaled()).blobs;
  }

  lemma PointerBehindBoot(s: State, b: State, a: Id, to: Option<Id>, e: Event)
    requires Rebuild(s.ix, s.journal) == Some(b.ix) && Points(e, a, to)
    ensures Rebuild(s.ix, s.journal + [e]) == Some(SetPointer(b.ix, a, to))
  {
    ReplayAppend(s.ix, s.journal, e);
    hide ReplayLines, RefCount;
  }

  lemma CompensationBehindBoot(s: State, b: State, v: Id)
    requires Rebuild(s.ix, s.journal) == Some(b.ix) && v !in b.ix.versions
    ensures Rebuild(s.ix, s.journal + [Aborted(v)]) == Some(b.ix)
  {
    ReplayAppend(s.ix, s.journal, Aborted(v));
    hide ReplayLines, RefCount;
    var f := ReplayLines(s.ix, s.journal).value;
    assert f.versions - {v} == f.versions;
  }

  /** The tables are those a replay over the old ones ends with, if it does. */
  ghost predicate Replayed(s: State, c: State) {
    Rebuild(s.ix, c.journal).Some? ==> c.ix == Rebuild(s.ix, c.journal).value
  }

  /** Booted tables, and one more line with its effect. */
  ghost predicate Behind(b: State, c: State, marks: set<nat>) {
    AddsOne(b, c) && RowsAppendOnly(b, c) && FaultCore(c.ix, c.journal, c.next, marks)
  }

  lemma BehindOrdered(b: State, c: State, marks: set<nat>)
    requires Ordered(b, marks) && Behind(b, c, marks) && Facts(c) && Grows(b, c)
    ensures Ordered(c, marks)
  {
    hide FaultCore, DeadPaired, SeqsAscend, Grows, AddsOne, Sound, LinesWhole, RowsTold, NamesTold, PointersTold;
    PairedAfter(b, c);
    AscendAfter(b, c, marks);
  }

  lemma JournaledFits(ix: Index, v: Id, row: VersionRow, name: string)
    requires Fits(ix, v, row, name)
    ensures Fits(ix, v, row.Journaled(), name) && LineOf(v, row.Journaled(), name) == LineOf(v, row, name)
  {
    hide MaxSeq;
  }

  lemma CommittedBehind(b: State, c: State, v: Id, row: VersionRow, name: string)
    requires v == b.next && row.sha.Some? && row.seqNo == MaxSeq(b.ix.versions, row.artifact) + 1
    requires c.ix == CommitIndex(b.ix, v, row) && c.journal == b.journal + [LineOf(v, row, name)] && c.next == v + 1
    ensures AddsOne(b, c) && RowsAppendOnly(b, c)
  {
    hide MaxSeq, AddRef, RaiseFence;
    assert c.journal[|b.journal|..] == [LineOf(v, row, name)];
  }

  /** The line of a crashed commit, behind the boot. */
  lemma CrashedCommit(s: State, b: State, c: State, u: Id, mat: Material, now: nat, marks: set<nat>)
    requires Ordered(b, marks) && b == s.(ix := b.ix) && Rebuild(s.ix, s.journal) == Some(b.ix) && u in s.uploads
    requires s.uploads[u].artifact in b.ix.artifacts && b.ix.versions == s.ix.versions
    requires !Clashes(s.ix.versions, NewRow(s.ix, s.uploads[u], mat, now))
    requires var line := LineOf(s.next, NewRow(s.ix, s.uploads[u], mat, now), s.uploads[u].name);
             c.journal == s.journal + [line] && Replayed(s, c) && c.next == s.next + 1
    ensures Behind(b, c, marks) && Rebuild(s.ix, c.journal).Some?
  {
    hide FaultCore, Facts, Fits, DeadPaired, SeqsAscend, Rebuild, Clashes, MaxSeq, CommitIndex;
    var row, name := NewRow(s.ix, s.uploads[u], mat, now), s.uploads[u].name;
    assert row == NewRow(b.ix, b.uploads[u], mat, now);
    FactsFit(b, u, mat, now);
    FactsPointers(b);
    FactsSound(b);
    CommitBehindBoot(s, b, s.next, row, name);
    JournaledFits(b.ix, s.next, row, name);
    CommitFaultCore(b.ix, b.journal, s.next, row.Journaled(), name, marks);
    CommittedBehind(b, c, s.next, row.Journaled(), name);
  }

  lemma FactsSound(s: State)
    requires Facts(s)
    ensures Sound(s.ix)
  {
  }

  lemma CrashedFailure(s: State, b: State, c: State, marks: set<nat>)
    requires Ordered(b, marks) && b == s.(ix := b.ix) && Rebuild(s.ix, s.journal) == Some(b.ix)
    requires c.journal == s.journal + [Aborted(s.next)] && c.next == s.next + 1 && Replayed(s, c)
    ensures Behind(b, c, marks) && Rebuild(s.ix, c.journal).Some?
  {
    hide FaultCore, Sound, LinesWhole, RowsTold, NamesTold, PointersTold, DeadPaired, SeqsAscend, Rebuild;
    CompensationBehindBoot(s, b, s.next);
    CompensationFaultCore(b.ix, b.journal, s.next, marks);
    assert c.journal[|b.journal|..] == [Aborted(s.next)];
  }

  lemma CrashedPointer(s: State, b: State, c: State, a: Id, to: Option<Id>, e: Event, marks: set<nat>)
    requires Ordered(b, marks) && b == s.(ix := b.ix) && Rebuild(s.ix, s.journal) == Some(b.ix)
    requires c.journal == s.journal + [e] && s.next <= c.next && Points(e, a, to) && LineHolds(e, b.ix)
             && LineMinted(e, c.next)
    requires (to.Some? ==> to.value < c.next) && Replayed(s, c)
    ensures Behind(b, c, marks) && Rebuild(s.ix, c.journal).Some?
  {
    hide FaultCore, Facts, DeadPaired, SeqsAscend, Rebuild, LineHolds, LineMinted;
    PointerBehindBoot(s, b, a, to, e);
    LaterFaultCore(b.ix, b.journal, b.next, c.next, marks);
    PointerFaultCore(b.ix, b.journal, c.next, a, to, e, marks);
    assert c.journal[|b.journal|..] == [e];
  }

  lemma CrashedQuietly(s: State, b: State, c: State, marks: set<nat>)
    requires Ordered(b, marks) && b == s.(ix := b.ix) && Rebuild(s.ix, s.journal) == Some(b.ix)
    requires c.journal == s.journal && s.next <= c.next && Replayed(s, c)
    ensures Behind(b, c, marks) && Rebuild(s.ix, c.journal).Some?
  {
    hide FaultCore, Facts, DeadPaired, SeqsAscend;
    hide Rebuild;
    LaterFaultCore(b.ix, b.journal, b.next, c.next, marks);
    assert c.journal[|b.journal|..] == [];
  }

  /** The tables a crash leaves are those a boot makes of the lines that survived. */
  lemma CrashReplays(s: State, t: State, moved: bool)
    requires s.journal <= t.journal
    ensures var c := Crashed(s, t, moved);
            && c.journal == s.journal + Survivors(s, t) && c.next == t.next
            && Replayed(s, c)
            && (Rebuild(s.ix, c.journal).None? ==> c.ix == s.ix)
  {
    hide Rebuild;
    CrashIsBoot(s, t, moved);
    TornLines(s, t);
    hide Crashed;
  }

  /** The same of the crash of one operation. */
  lemma CrashBooted(s: State, inner: Op, moved: bool, limits: Limits)
    requires Interruptible(inner)
    ensures var t, c := Step(s, inner, limits), Step(s, DoCrash(inner, moved), limits);
            && s.journal <= t.journal && c.journal == s.journal + Survivors(s, t)
            && c.next == t.next && c.uploads == s.uploads
            && Replayed(s, c)
            && (Rebuild(s.ix, c.journal).None? ==> c.ix == s.ix)
  {
    StepGrows(s, inner, limits);
    CrashIs(s, inner, moved, limits);
    hide Step, Crashed, Rebuild;
    CrashReplays(s, Step(s, inner, limits), moved);
    CrashSessions(s, Step(s, inner, limits), moved);
  }

  lemma BehindCommit(s: State, b: State, op: Op, moved: bool, limits: Limits, marks: set<nat>)
    requires op.DoCommit? && Ordered(b, marks) && b == s.(ix := b.ix) && Rebuild(s.ix, s.journal) == Some(b.ix)
    requires b.ix.versions == s.ix.versions && s.ix.artifacts.Keys <= b.ix.artifacts.Keys
    ensures var c := Step(s, DoCrash(op, moved), limits);
            Behind(b, c, marks) && c.uploads == s.uploads && Rebuild(s.ix, c.journal).Some?
  {
    hide Ordered, Behind, Rebuild, Crashed, Commit, CommitTxn, Clashes, MaxSeq;
    var t := Commit(s, op.p, op.u, op.mat, op.now, limits, op.fault).after;
    var c := Crashed(s, t, moved);
    StepGrows(s, op, limits);
    CrashReplays(s, t, moved);
    CrashSessions(s, t, moved);
    assert s.journal + [] == s.journal;
    if t.journal == s.journal {
      CrashedQuietly(s, b, c, marks);
    } else {
      CommitIsTxn(s, op.p, op.u, op.mat, op.now, limits, op.fault);
      CommitFirstLine(s, op.u, op.mat, op.now, op.fault);
      var row := NewRow(s.ix, s.uploads[op.u], op.mat, op.now);
      if Clashes(s.ix.versions, row) || row.artifact !in s.ix.artifacts {
        assert Survivors(s, t) == [Aborted(s.next)];
        CrashedFailure(s, b, c, marks);
      } else {
        assert Survivors(s, t) == [LineOf(s.next, row, s.uploads[op.u].name)];
        assert row.artifact in s.ix.artifacts.Keys;
        CrashedCommit(s, b, c, op.u, op.mat, op.now, marks);
      }
    }
  }

  lemma BehindDelete(s: State, b: State, op: Op, moved: bool, limits: Limits, marks: set<nat>)
    requires op.DoDelete? && Ordered(b, marks) && b == s.(ix := b.ix) && Rebuild(s.ix, s.journal) == Some(b.ix)
    requires Minted(s.ix, s.journal, s.next)
    ensures var c := Step(s, DoCrash(op, moved), limits);
            Behind(b, c, marks) && c.uploads == s.uploads && Rebuild(s.ix, c.journal).Some?
  {
    StepGrows(s, op, limits);
    hide Ordered, Behind, Rebuild, Crashed, Commit, Clashes, MaxSeq, Grows, Replayed;
    var t := Delete(s, op.p, op.a, op.now).after;
    var c := Crashed(s, t, moved);
    CrashReplays(s, t, moved);
    CrashSessions(s, t, moved);
    assert s.journal + [] == s.journal;
    if t.journal == s.journal {
      CrashedQuietly(s, b, c, marks);
    } else {
      assert Survivors(s, t) == [DeleteMarker(s.next, op.a)];
      CrashedPointer(s, b, c, op.a, None, DeleteMarker(s.next, op.a), marks);
    }
  }

  lemma BehindRestore(s: State, b: State, op: Op, moved: bool, limits: Limits, marks: set<nat>)
    requires op.DoRestore? && Ordered(b, marks) && b == s.(ix := b.ix) && Rebuild(s.ix, s.journal) == Some(b.ix)
    requires b.ix.versions == s.ix.versions && Minted(s.ix, s.journal, s.next)
    ensures var c := Step(s, DoCrash(op, moved), limits);
            Behind(b, c, marks) && c.uploads == s.uploads && Rebuild(s.ix, c.journal).Some?
  {
    hide Ordered, Behind, Rebuild, Crashed, Commit, Replayed;
    var t := Restore(s, op.a, op.v).after;
    var c := Crashed(s, t, moved);
    CrashReplays(s, t, moved);
    CrashSessions(s, t, moved);
    assert s.journal + [] == s.journal;
    if t.journal == s.journal {
      CrashedQuietly(s, b, c, marks);
    } else {
      assert Survivors(s, t) == [PointerMove(op.a, Some(op.v))];
      CrashedPointer(s, b, c, op.a, Some(op.v), PointerMove(op.a, Some(op.v)), marks);
    }
  }

  lemma CrashOrdered(s: State, inner: Op, moved: bool, limits: Limits, marks: set<nat>)
    requires Ordered(s, marks) && Interruptible(inner)
    ensures Ordered(Step(s, DoCrash(inner, moved), limits), marks + {|s.journal|})
    ensures Rebuild(s.ix, Step(s, DoCrash(inner, moved), limits).journal).Some?
  {
    var b, c := Reboot(s), Step(s, DoCrash(inner, moved), limits);
    BootOrdered(s, marks);
    BootIsAdded(s);
    OrderedMinted(s, marks);
    hide Ordered, Facts, Behind, Step, Rebuild, RowsKept, Minted;
    StepFacts(s, DoCrash(inner, moved), limits);
    StepGrows(s, DoCrash(inner, moved), limits);
    if inner.DoCommit? {
      BehindCommit(s, b, inner, moved, limits, marks + {|s.journal|});
    } else if inner.DoDelete? {
      BehindDelete(s, b, inner, moved, limits, marks + {|s.journal|});
    } else {
      BehindRestore(s, b, inner, moved, limits, marks + {|s.journal|});
    }
    BehindOrdered(b, c, marks + {|s.journal|});
  }

  lemma OrderedMinted(s: State, marks: set<nat>)
    requires Ordered(s, marks)
    ensures Facts(s) && Minted(s.ix, s.journal, s.next)
  {
    hide Facts;
  }

  /** A boot that succeeds adds to the tables and changes nothing else. */
  lemma BootIsAdded(s: State)
    requires Rebuild(s.ix, s.journal).Some?
    ensures Rebuild(s.ix, s.journal) == Some(Reboot(s).ix) && Reboot(s) == s.(ix := Reboot(s).ix)
    ensures s.ix.artifacts.Keys <= Reboot(s).ix.artifacts.Keys
  {
    KeepsArtifacts(s.ix, s.journal);
  }

  lemma {:induction false} KeepsArtifacts(ix: Index, lines: seq<Event>)
    requires ReplayLines(ix, lines).Some?
    ensures ix.artifacts.Keys <= ReplayLines(ix, lines).value.artifacts.Keys
  {
    if lines != [] {
      KeepsArtifacts(ix, Front(lines));
      NextNames(ReplayLines(ix, Front(lines)).value, Last(lines));
      hide ApplyEvent;
    }
  }
}
