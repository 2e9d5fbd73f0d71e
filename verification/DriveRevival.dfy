/**
 * Replays behind garbage collections: a purge of rows is not journaled, so while no committed line was rolled back a
 * boot either brings every missing version back or throws, and it throws exactly if a blob was purged or a missing
 * artifact's name is taken (apps/drive/src/storage/gc.ts, gcPhase2; maintenance.ts, rebuildIndex).
 */
module DriveRevival {
  import opened Prelude
  import opened DriveIndex
  import opened DriveMachine
  import opened DriveReplay
  import opened DriveSafety
  import opened DriveRuns
  import opened DriveLive
  import opened DriveFencing
  import opened DriveFacts
  import opened DriveAlways
  import opened DriveFaults
  import opened DriveBoots
  import opened DrivePurge

  // ----- what tables and journal say of each other ---------------------------------------------------------------

  ghost predicate AbortedGone(ix: Index, lines: seq<Event>) {
    forall i, v: Id | 0 <= i < |lines| && lines[i] == Aborted(v) :: v !in ix.versions
  }

  /** A pointer is moved only to versions committed before. */
  ghost predicate MovesLined(lines: seq<Event>) {
    forall k | 0 <= k < |lines| && lines[k].PointerMove? :: MoveLined(lines, k)
  }

  ghost predicate MoveLined(lines: seq<Event>, k: nat)
    requires k < |lines| && lines[k].PointerMove?
  {
    lines[k].to.Some? && exists i | 0 <= i < k :: IsLineOf(lines[i], lines[k].to.value)
  }

  /** The committed lines of an artifact are numbered upwards. */
  ghost predicate LinesAscend(lines: seq<Event>) {
    forall i, k | 0 <= i < k < |lines| && lines[i].VersionCommitted? && lines[k].VersionCommitted?
                  && lines[i].row.artifact == lines[k].row.artifact ::
      lines[i].row.seqNo < lines[k].row.seqNo
  }

  ghost predicate PurgeFree(lines: seq<Event>) {
    forall i | 0 <= i < |lines| :: !lines[i].GcPurge?
  }

  /** Until a blob is purged the table's blob rows are those of the first lines that name them. */
  ghost predicate PrintsKept(ix: Index, lines: seq<Event>) {
    PurgeFree(lines) ==> forall x: Sha :: PrintIn(ix.blobs, x) == FirstPrint(lines, x)
  }

  ghost predicate Trail(ix: Index, lines: seq<Event>) {
    && AbortedGone(ix, lines) && MovesLined(lines) && LinesAscend(lines) && PrintsKept(ix, lines) && TipsHold(lines, ix)
  }

  // ----- each step of a live process keeps it --------------------------------------------------------------------

  lemma PlainLine(lines: seq<Event>, e: Event)
    requires MovesLined(lines) && LinesAscend(lines) && !e.VersionCommitted?
    requires e.PointerMove? ==> e.to.Some? && HasLine(lines, e.to.value)
    ensures MovesLined(lines + [e]) && LinesAscend(lines + [e])
    ensures PurgeFree(lines + [e]) ==> PurgeFree(lines)
    ensures forall x: Sha :: FirstPrint(lines + [e], x) == FirstPrint(lines, x)
  {
    var after := lines + [e];
    assert after[|lines|] == e;
    forall k | 0 <= k < |after| && after[k].PointerMove?
      ensures MoveLined(after, k)
    {
      if k < |lines| {
        assert MoveLined(lines, k);
        var i :| 0 <= i < k && IsLineOf(lines[i], lines[k].to.value);
        assert after[i] == lines[i];
      } else {
        var i :| 0 <= i < |lines| && IsLineOf(lines[i], e.to.value);
        assert after[i] == lines[i];
      }
    }
    if PurgeFree(after) {
      forall i | 0 <= i < |lines|
        ensures !lines[i].GcPurge?
      {
        assert after[i] == lines[i];
      }
    }
    forall x: Sha
      ensures FirstPrint(after, x) == FirstPrint(lines, x)
    {
      FirstPrintAppend(lines, e, x);
    }
  }

  lemma CommittedLine(ix: Index, lines: seq<Event>, v: Id, row: VersionRow, name: string)
    requires MovesLined(lines) && LinesAscend(lines) && row.artifact in ix.artifacts
    requires row.seqNo == MaxSeq(ix.versions, row.artifact) + 1
    requires forall i | 0 <= i < |lines| && lines[i].VersionCommitted? :: Whole(ix, lines[i])
    ensures MovesLined(lines + [LineOf(v, row, name)]) && LinesAscend(lines + [LineOf(v, row, name)])
  {
    var after := lines + [LineOf(v, row, name)];
    forall k | 0 <= k < |after| && after[k].PointerMove?
      ensures MoveLined(after, k)
    {
      assert k < |lines| && MoveLined(lines, k);
      var i :| 0 <= i < k && IsLineOf(lines[i], lines[k].to.value);
      assert after[i] == lines[i];
    }
    forall i | 0 <= i < |lines| && lines[i].VersionCommitted? && lines[i].row.artifact == row.artifact
      ensures lines[i].row.seqNo < row.seqNo
    {
      assert Whole(ix, lines[i]);
      assert ix.versions[lines[i].version].Journaled().seqNo == lines[i].row.seqNo;
    }
  }

  lemma CommitPrints(ix: Index, lines: seq<Event>, v: Id, row: VersionRow, name: string)
    requires PrintsKept(ix, lines) && row.sha.Some?
    ensures PrintsKept(CommitIndex(ix, v, row), lines + [LineOf(v, row, name)])
  {
    hide RaiseFence;
    var after := lines + [LineOf(v, row, name)];
    if PurgeFree(after) {
      forall i | 0 <= i < |lines|
        ensures !lines[i].GcPurge?
      {
        assert after[i] == lines[i];
      }
      forall x: Sha
        ensures PrintIn(CommitIndex(ix, v, row).blobs, x) == FirstPrint(after, x)
      {
        FirstPrintAppend(lines, LineOf(v, row, name), x);
      }
    }
  }

  lemma CommitTrail(s: State, v: Id, row: VersionRow, name: string)
    requires Trail(s.ix, s.journal) && JournalMinted(s) && v == s.next && Admitted(s.ix, v, row, name)
    requires forall i | 0 <= i < |s.journal| && s.journal[i].VersionCommitted? :: Whole(s.ix, s.journal[i])
    ensures Trail(CommitIndex(s.ix, v, row), s.journal + [LineOf(v, row, name)])
  {
    CommittedLine(s.ix, s.journal, v, row, name);
    CommitPrints(s.ix, s.journal, v, row, name);
    CommitTips(s.ix, s.journal, v, row, name);
    hide MovesLined, LinesAscend, PrintsKept, TipsHold, AddRef, RaiseFence;
    var after := s.journal + [LineOf(v, row, name)];
    forall i, w: Id | 0 <= i < |after| && after[i] == Aborted(w)
      ensures w !in CommitIndex(s.ix, v, row).versions
    {
      assert i < |s.journal| && s.journal[i] == after[i] && About(s.journal[i], w);
    }
  }

  lemma FailedTrail(s: State, v: Id)
    requires Trail(s.ix, s.journal) && v !in s.ix.versions
    ensures Trail(s.ix, s.journal + [Aborted(v)])
  {
    PlainLine(s.journal, Aborted(v));
    CompensationTips(s.ix, s.journal, v);
    hide MovesLined, LinesAscend, TipsHold, FirstPrint;
  }

  lemma PointedTrail(ix: Index, lines: seq<Event>, a: Id, to: Option<Id>, e: Event)
    requires Trail(ix, lines) && Points(e, a, to) && (to.Some? ==> HasLine(lines, to.value))
             && (e.PointerMove? ==> to.Some?)
    ensures Trail(SetPointer(ix, a, to), lines + [e])
  {
    PlainLine(lines, e);
    PointerTips(ix, lines, a, to, e);
    hide MovesLined, LinesAscend, TipsHold, FirstPrint, HasLine;
  }

  lemma MarkedTrail(ix: Index, lines: seq<Event>, v: Id, row: VersionRow)
    requires Trail(ix, lines) && FreshMarker(ix, lines, v, row)
    ensures Trail(AddMarker(ix, v, row), lines)
  {
    MarkerTips(ix, lines, v, row);
    hide MovesLined, LinesAscend, TipsHold, FirstPrint;
    forall i, w: Id | 0 <= i < |lines| && lines[i] == Aborted(w)
      ensures w !in AddMarker(ix, v, row).versions
    {
      assert lines[i] in lines;
    }
  }

  lemma RegisterTrail(ix: Index, lines: seq<Event>, a: Id, row: ArtifactRow)
    requires Trail(ix, lines) && row.current.None? && forall i | 0 <= i < |lines| :: LineMinted(lines[i], a)
    ensures Trail(AddArtifact(ix, a, row), lines)
  {
    RegisterTips(ix, lines, a, row);
    hide MovesLined, LinesAscend, TipsHold, FirstPrint;
  }

  lemma {:induction false} PurgeTailMoves(lines: seq<Event>, order: seq<Sha>, a: Id)
    ensures LastMove(lines + PurgeLines(order), a) == LastMove(lines, a)
  {
    if order == [] {
      assert lines + PurgeLines(order) == lines;
    } else {
      assert lines + PurgeLines(order) == (lines + PurgeLines(Front(order))) + [GcPurge(Last(order))];
      LastMoveAppend(lines + PurgeLines(Front(order)), GcPurge(Last(order)), a);
      PurgeTailMoves(lines, Front(order), a);
    }
  }

  lemma PurgeTail(lines: seq<Event>, order: seq<Sha>)
    requires MovesLined(lines) && LinesAscend(lines)
    ensures MovesLined(lines + PurgeLines(order)) && LinesAscend(lines + PurgeLines(order))
    ensures PurgeFree(lines + PurgeLines(order)) ==> order == [] && lines + PurgeLines(order) == lines
  {
    var after := lines + PurgeLines(order);
    forall k | 0 <= k < |after| && after[k].PointerMove?
      ensures MoveLined(after, k)
    {
      assert k < |lines| && MoveLined(lines, k);
      var i :| 0 <= i < k && IsLineOf(lines[i], lines[k].to.value);
      assert after[i] == lines[i];
    }
    if order != [] {
      assert after[|lines|] == GcPurge(order[0]);
    } else {
      assert after == lines;
    }
  }

  lemma CollectTrail(s: State, order: seq<Sha>)
    requires Trail(s.ix, s.journal)
    ensures Trail(Collect(s, order).ix, Collect(s, order).journal)
  {
    var t := Collect(s, order);
    PurgeTail(s.journal, order);
    hide MovesLined, LinesAscend, RefCount, MarkedChains, FirstPrint;
    forall a | a in t.ix.artifacts
      ensures TipHolds(t.journal, t.ix, a)
    {
      PurgeTailMoves(s.journal, order, a);
      assert TipHolds(s.journal, s.ix, a);
    }
    forall i, v: Id | 0 <= i < |t.journal| && t.journal[i] == Aborted(v)
      ensures v !in t.ix.versions
    {
      assert i < |s.journal| && s.journal[i] == Aborted(v);
    }
  }

  // ----- what a run without I/O faults and crashes keeps ---------------------------------------------------------

  ghost predicate LinesMinted(s: State) {
    forall i | 0 <= i < |s.journal| :: LineMinted(s.journal[i], s.next)
  }

  /** A purged blob's line has lost its row for good. */
  ghost predicate PurgesForget(s: State) {
    PurgeFree(s.journal) || exists v :: Forgotten(s, v)
  }

  ghost predicate Recorded(s: State) {
    && Live(s) && Chronicle(s) && Trail(s.ix, s.journal) && LinesMinted(s) && PurgesForget(s)
    && PurgesNamed(s.journal) && OpsTyped(s.ix.versions)
  }

  lemma NewLinesMinted(s: State, op: Op, limits: Limits)
    requires Live(s) && LinesMinted(s) && BootFree(op)
    ensures LinesMinted(Step(s, op, limits))
  {
    hide Commit, Clashes, MaxSeq, Consistent, NoOrphans, MarkersKeyed, SessionsUnique, Looked, PurgeChains;
    StepGrows(s, op, limits);
    hide Grows;
    if op.DoCommit? {
      CommitLinesMinted(s, op.p, op.u, op.mat, op.now, limits, op.fault);
    } else if op.DoRegister? {
      RegisterKeepsJournal(s, op, limits);
      GrowsIds(s, Step(s, op, limits));
    }
  }

  lemma GrowsIds(s: State, t: State)
    requires Grows(s, t)
    ensures s.next <= t.next
  {
  }

  lemma CommitLinesMinted(s: State, p: Principal, u: Id, mat: Material, now: nat, limits: Limits, fault: Fault)
    requires IdsMinted(s) && LinesMinted(s)
    ensures LinesMinted(Commit(s, p, u, mat, now, limits, fault).after)
  {
    hide Commit, CommitTxn, Clashes, MaxSeq;
    if Commit(s, p, u, mat, now, limits, fault).after != s {
      CommitIsTxn(s, p, u, mat, now, limits, fault);
      CommitEffect(s, u, mat, now, fault);
      if CommitTxn(s, u, mat, now, fault).reply.Err? {
        FailedCommitLines(s, u, mat, now, fault);
      }
    }
  }

  lemma CommitStepTrail(s: State, p: Principal, u: Id, mat: Material, now: nat, limits: Limits, fault: Fault)
    requires Recorded(s) && JournalMinted(s) && Commit(s, p, u, mat, now, limits, fault).reply != Err(IoFailure)
    ensures var t := Commit(s, p, u, mat, now, limits, fault).after; Trail(t.ix, t.journal)
  {
    hide Clashes, Commit, CommitTxn, Consistent, Trail, JournalMinted, LinesApart, NoneAborted, RowsJournaled, Admitted,
      MaxSeq;
    var t := Commit(s, p, u, mat, now, limits, fault).after;
    if t != s {
      CommitIsTxn(s, p, u, mat, now, limits, fault);
      CommitEffect(s, u, mat, now, fault);
      if CommitTxn(s, u, mat, now, fault).reply.Ok? {
        LiveAdmits(s, u, mat, now);
        LinesWholeHere(s);
        CommitTrail(s, s.next, NewRow(s.ix, s.uploads[u], mat, now), s.uploads[u].name);
      } else {
        FailedCommitLine(s, u, mat, now, fault);
        if t.journal != s.journal {
          FailedTrail(s, s.next);
        }
      }
    }
  }

  lemma LinesWholeHere(s: State)
    requires Chronicle(s)
    ensures forall i | 0 <= i < |s.journal| && s.journal[i].VersionCommitted? :: Whole(s.ix, s.journal[i])
  {
    forall i | 0 <= i < |s.journal| && s.journal[i].VersionCommitted?
      ensures Whole(s.ix, s.journal[i])
    {
      assert LineKnown(s, s.journal[i]);
    }
  }

  lemma DeleteStepTrail(s: State, p: Principal, a: Id, now: nat)
    requires Recorded(s)
    ensures var t := Delete(s, p, a, now).after; Trail(t.ix, t.journal)
  {
    hide Clashes, MaxSeq, Consistent, Trail, Chronicle, PurgesForget, PurgesNamed;
    var t := Delete(s, p, a, now).after;
    if t.journal != s.journal {
      var v, e, row := s.next, DeleteMarker(s.next, a), MarkerRow(s.ix, a, s.next, p.sub, now);
      PointedTrail(s.ix, s.journal, a, None, e);
      LastMoveAppend(s.journal, e, a);
      forall i | 0 <= i < |s.journal + [e]|
        ensures (s.journal + [e])[i] != Aborted(v)
      {
        assert i < |s.journal| ==> LineMinted(s.journal[i], s.next);
      }
      MarkedTrail(SetPointer(s.ix, a, None), s.journal + [e], v, row);
    }
  }

  lemma RestoreStepTrail(s: State, a: Id, v: Id)
    requires Recorded(s)
    ensures var t := Restore(s, a, v).after; Trail(t.ix, t.journal)
  {
    hide Consistent, Trail, LinesApart, NoneAborted, LinesKnown, HasLine;
    if Restore(s, a, v).reply.Ok? {
      PointedTrail(s.ix, s.journal, a, Some(v), PointerMove(a, Some(v)));
    }
  }

  lemma RegisterStepTrail(s: State, p: Principal, intent: Intent, found: Option<Id>, session: Option<Id>, now: nat,
                          limits: Limits)
    requires Recorded(s) && Looked(s, p, intent, found, session)
    ensures var t := Register(s, p, intent, found, session, now, limits).after; Trail(t.ix, t.journal)
  {
    hide Consistent, Trail, Chronicle, Live, PurgesForget, PurgesNamed, WellFormed, NormalizeFence, PendingOf,
      NameTaken, LineMinted;
    if found.None? {
      RegisterTrail(s.ix, s.journal, s.next, ArtifactRow(intent.ticket, intent.name, None, p.sub, now));
    } else {
      assert s.ix.(artifacts := s.ix.artifacts) == s.ix;
    }
  }

  lemma StepTrail(s: State, op: Op, limits: Limits)
    requires Recorded(s) && JournalMinted(s) && BootFree(op) && NotRolledBack(s, op, limits)
    ensures Trail(Step(s, op, limits).ix, Step(s, op, limits).journal)
  {
    hide Live, Chronicle, Trail, JournalMinted, Commit, Collect, Register, Delete, Restore, Looked;
    match op {
      case DoRegister(p, intent, found, session, now) =>
        if Looked(s, p, intent, found, session) {
          RegisterStepTrail(s, p, intent, found, session, now, limits);
        }
      case DoCommit(p, u, mat, now, fault) => CommitStepTrail(s, p, u, mat, now, limits, fault);
      case DoDelete(p, a, now) => DeleteStepTrail(s, p, a, now);
      case DoRestore(a, v) => RestoreStepTrail(s, a, v);
      case DoCollect(order) => CollectTrail(s, order);
      case _ =>
        hide Step;
        SessionStep(s, op, limits);
    }
  }

  /** A collection that purges a blob has dropped the row that named it. */
  lemma PurgeForgetsRow(s: State, order: seq<Sha>) returns (v: Id)
    requires Live(s) && Chronicle(s) && order != [] && Lists(order, Unreferenced(PurgeChains(s.ix, MarkedChains(s.ix))))
    ensures Forgotten(Collect(s, order), v)
  {
    hide Consistent, LinesApart, NoneAborted, LinesKnown, HasLine, MarkersKeyed, SessionsLinked, SessionsUnique;
    var x, g := order[0], PurgeChains(s.ix, MarkedChains(s.ix));
    assert x in Elements(order);
    LiveCounts(s, x);
    RefCountZero(s.ix.versions, x);
    v :| v in s.ix.versions && s.ix.versions[v].sha == Some(x);
    RefCountZero(g.versions, x);
    assert v !in g.versions;
    HasLineAppend(s.journal, PurgeLines(order), v);
  }

  lemma StepForgets(s: State, op: Op, limits: Limits)
    requires Live(s) && Chronicle(s) && PurgesForget(s) && BootFree(op) && NotRolledBack(s, op, limits)
    ensures PurgesForget(Step(s, op, limits))
  {
    hide Live, Chronicle, Forgotten, Collect, Commit;
    if v :| Forgotten(s, v) {
      StillForgotten(s, op, limits, v);
    } else if op.DoCollect? {
      if Lists(op.order, Unreferenced(PurgeChains(s.ix, MarkedChains(s.ix)))) {
        if op.order == [] {
          NothingCollected(s);
        } else {
          var v := PurgeForgetsRow(s, op.order);
        }
      }
    } else {
      NoNewPurges(s, op, limits);
    }
  }

  lemma NothingCollected(s: State)
    ensures Collect(s, []).journal == s.journal
  {
    assert s.journal + PurgeLines([]) == s.journal;
  }

  lemma PurgeFreeAppend(lines: seq<Event>, more: seq<Event>)
    requires PurgeFree(lines) && forall e | e in more :: !e.GcPurge?
    ensures PurgeFree(lines + more)
  {
    assert forall i | |lines| <= i < |lines + more| :: (lines + more)[i] in more;
  }

  lemma CommitNoPurge(s: State, p: Principal, u: Id, mat: Material, now: nat, limits: Limits, fault: Fault)
    requires PurgeFree(s.journal)
    ensures PurgeFree(Commit(s, p, u, mat, now, limits, fault).after.journal)
  {
    hide Commit, CommitTxn, Clashes, MaxSeq, PurgeFree;
    var t := Commit(s, p, u, mat, now, limits, fault).after;
    if t != s {
      CommitIsTxn(s, p, u, mat, now, limits, fault);
      CommitEffect(s, u, mat, now, fault);
      if CommitTxn(s, u, mat, now, fault).reply.Err? {
        FailedCommitLines(s, u, mat, now, fault);
      }
      var line := LineOf(s.next, NewRow(s.ix, s.uploads[u], mat, now), s.uploads[u].name);
      PurgeFreeAppend(s.journal, [line]);
      PurgeFreeAppend(s.journal, [Aborted(s.next)]);
      PurgeFreeAppend(s.journal, [line, Aborted(s.next)]);
    }
  }

  lemma NoNewPurges(s: State, op: Op, limits: Limits)
    requires BootFree(op) && !op.DoCollect? && PurgeFree(s.journal)
    ensures PurgeFree(Step(s, op, limits).journal)
  {
    hide Commit, Clashes, MaxSeq, Looked, Abort, Expire, PurgeFree;
    match op {
      case DoCommit(p, u, mat, now, fault) => CommitNoPurge(s, p, u, mat, now, limits, fault);
      case DoDelete(p, a, now) => PurgeFreeAppend(s.journal, [DeleteMarker(s.next, a)]);
      case DoRestore(a, v) => PurgeFreeAppend(s.journal, [PointerMove(a, Some(v))]);
      case _ =>
        hide Step;
        if op.DoRegister? {
          RegisterKeepsJournal(s, op, limits);
        } else {
          SessionStep(s, op, limits);
        }
    }
  }

  lemma RegisterKeepsJournal(s: State, op: Op, limits: Limits)
    requires op.DoRegister?
    ensures Step(s, op, limits).journal == s.journal
  {
    hide Looked, WellFormed, NormalizeFence, PendingOf;
  }

  lemma StepRecorded(s: State, op: Op, limits: Limits)
    requires Recorded(s) && JournalMinted(s) && BootFree(op) && NotRolledBack(s, op, limits)
    ensures Recorded(Step(s, op, limits))
  {
    StepTrail(s, op, limits);
    hide Live, Chronicle, Trail, LinesMinted, PurgesForget, PurgesNamed, OpsTyped, Step, JournalMinted, NotRolledBack;
    StepLive(s, op, limits);
    StepChronicle(s, op, limits);
    NewLinesMinted(s, op, limits);
    StepForgets(s, op, limits);
    StepPurgesNamed(s, op, limits);
    StepOpsTyped(s, op, limits);
  }

  // ----- replaying such a journal --------------------------------------------------------------------------------

  /** What one line does to a pointer, adopted artifacts included. */
  lemma NextLanding(f: Index, e: Event)
    requires ApplyEvent(f, e).Some?
    ensures var g := ApplyEvent(f, e).value;
            forall a | a in g.artifacts ::
              if a !in f.artifacts then Moves(e, a) && g.artifacts[a].current == Target(e)
              else if !Moves(e, a) then g.artifacts[a] == f.artifacts[a]
              else g.artifacts[a] == f.artifacts[a].(current := g.artifacts[a].current)
                   && (g.artifacts[a].current == Target(e)
                       || (e.VersionCommitted? && g.artifacts[a].current == f.artifacts[a].current
                           && CurrentSeq(f, a) >= e.row.seqNo))
  {
    hide Clashes, NameTaken, RefCount, RaiseFence;
  }

  /** Whole chains of `whole` and nothing else, with the blobs they name; none of it, and all of it, among others. */
  ghost predicate PartOf(ix: Index, whole: Index) {
    && (forall a | a in ix.artifacts :: a in whole.artifacts && ix.artifacts[a] == whole.artifacts[a])
    && (forall v | v in ix.versions :: v in whole.versions && ix.versions[v] == whole.versions[v])
    && (forall v | v in whole.versions :: v in ix.versions <==> whole.versions[v].artifact in ix.artifacts)
    && ShasLinked(ix)
    && (forall x | x in ix.blobs :: x in whole.blobs && PrintIn(ix.blobs, x) == PrintIn(whole.blobs, x))
    && (forall t | t in ix.fences :: t in whole.fences && ix.fences[t] == whole.fences[t])
  }

  /** Tables such a replay starts from: the live ones, none, or what is left of the live ones by a purge. */
  ghost predicate StartsFrom(s: State, ix: Index) {
    Facts(s) && Recorded(s) && PartOf(ix, s.ix)
  }

  lemma StartsItself(s: State)
    requires Facts(s) && Recorded(s)
    ensures StartsFrom(s, s.ix) && StartsFrom(s, EMPTY)
  {
    hide Recorded, RowsTold, NamesTold, PointersTold;
  }

  lemma PartStarts(s: State, ix: Index)
    requires StartsFrom(s, ix)
    ensures LinesApart(s.journal) && NoneAborted(s.journal) && Startable(ix, s.journal)
  {
    LiveStartable(s);
    hide Facts, Recorded;
    PartStartable(s, ix);
  }

  lemma PartStartable(s: State, ix: Index)
    requires PartOf(ix, s.ix) && Startable(s.ix, s.journal)
    ensures Startable(ix, s.journal)
  {
    hide HasLine, ShasLinked;
    forall i | 0 <= i < |s.journal| && s.journal[i].VersionCommitted?
      ensures Whole(ix, s.journal[i])
    {
      assert Whole(s.ix, s.journal[i]);
    }
  }

  lemma FactsLinked(s: State)
    requires Facts(s)
    ensures RowsLinked(s.ix)
  {
  }

  ghost predicate Follows(f: Index, ix: Index, lines: seq<Event>, a: Id)
    requires a in f.artifacts
  {
    || (a in ix.artifacts && f.artifacts[a].current == ix.artifacts[a].current)
    || (LastMove(lines, a).Some? && f.artifacts[a].current == Target(LastMove(lines, a).value))
  }

  /** What a replay has of a version a line committed is that line's row. */
  lemma RowOfLine(s: State, ix: Index, f: Index, k: nat, w: Id, j: nat)
    requires StartsFrom(s, ix) && k <= |s.journal| && Sourced(f, ix, s.journal[..k]) && w in f.versions
    requires j < |s.journal| && IsLineOf(s.journal[j], w)
    ensures f.versions[w].seqNo == s.journal[j].row.seqNo && f.versions[w].sha == s.journal[j].row.sha
    ensures f.versions[w].Journaled() == s.journal[j].row
  {
    hide Recorded, Sound, NamesTold, PointersTold;
    assert RowSourced(f, ix, s.journal[..k], w);
    assert LineWhole(s.journal[j]);
    if i :| 0 <= i < k && IsLineOf(s.journal[..k][i], w) && s.journal[..k][i].row.Journaled() == f.versions[w] {
      assert s.journal[i].row == s.journal[j].row;
    }
    assert f.versions[w].Journaled() == s.journal[j].row;
  }

  /** The line that committed the version another line points the artifact to. */
  lemma TargetLine(s: State, i: nat, a: Id, w: Id) returns (j: nat)
    requires Facts(s) && Recorded(s) && i < |s.journal| && Moves(s.journal[i], a) && Target(s.journal[i]) == Some(w)
    ensures j <= i && IsLineOf(s.journal[j], w) && s.journal[j].row.artifact == a
  {
    hide Live, Chronicle, Sound, LinesWhole, RowsTold, NamesTold;
    assert LinePoints(s.journal[i], a, w);
    assert Pointed(s, a, w);
    assert Owns(s, a, w);
    if s.journal[i].VersionCommitted? {
      j := i;
    } else {
      assert MoveLined(s.journal, i);
      j :| 0 <= j < i && IsLineOf(s.journal[j], s.journal[i].to.value);
    }
  }

  lemma GuardAscends(s: State, ix: Index, f: Index, k: nat, a: Id)
    requires StartsFrom(s, ix) && k < |s.journal| && Sourced(f, ix, s.journal[..k]) && a in f.artifacts
    requires s.journal[k].VersionCommitted? && s.journal[k].row.artifact == a
    requires LastMove(s.journal[..k], a).Some? && f.artifacts[a].current == Target(LastMove(s.journal[..k], a).value)
    ensures CurrentSeq(f, a) < s.journal[k].row.seqNo
  {
    hide Live, Chronicle, Facts, Sourced;
    if f.artifacts[a].current.Some? && f.artifacts[a].current.value in f.versions {
      var w := f.artifacts[a].current.value;
      var i := LastMoveFound(s.journal[..k], a);
      assert s.journal[..k][i] == s.journal[i];
      var j := TargetLine(s, i, a, w);
      RowOfLine(s, ix, f, k, w, j);
    }
  }

  lemma FollowsNext(s: State, ix: Index, f: Index, k: nat)
    requires StartsFrom(s, ix) && k < |s.journal| && Sourced(f, ix, s.journal[..k]) && ApplyEvent(f, s.journal[k]).Some?
    requires forall a | a in f.artifacts :: Follows(f, ix, s.journal[..k], a)
    ensures var g := ApplyEvent(f, s.journal[k]).value; forall a | a in g.artifacts ::
            Follows(g, ix, s.journal[..k + 1], a)
  {
    var e, g := s.journal[k], ApplyEvent(f, s.journal[k]).value;
    NextLanding(f, e);
    assert s.journal[..k + 1] == s.journal[..k] + [e];
    hide ApplyEvent, StartsFrom, Sourced, CurrentSeq;
    forall a | a in g.artifacts
      ensures Follows(g, ix, s.journal[..k + 1], a)
    {
      LastMoveAppend(s.journal[..k], e, a);
      if a in f.artifacts && Moves(e, a) && e.VersionCommitted? {
        if LastMove(s.journal[..k], a).Some? && f.artifacts[a].current == Target(LastMove(s.journal[..k], a).value) {
          GuardAscends(s, ix, f, k, a);
        }
      }
    }
  }

  lemma {:induction false} ReplayFollows(s: State, ix: Index, k: nat)
    requires StartsFrom(s, ix) && k <= |s.journal| && ReplayLines(ix, s.journal[..k]).Some?
    ensures var f := ReplayLines(ix, s.journal[..k]).value; forall a | a in f.artifacts ::
            Follows(f, ix, s.journal[..k], a)
  {
    if k > 0 {
      hide StartsFrom, ApplyEvent, Follows;
      assert s.journal[..k] == s.journal[..k - 1] + [s.journal[k - 1]];
      ReplayAppend(ix, s.journal[..k - 1], s.journal[k - 1]);
      ReplayFollows(s, ix, k - 1);
      ReplaySourced(ix, s.journal[..k - 1]);
      FollowsNext(s, ix, ReplayLines(ix, s.journal[..k - 1]).value, k - 1);
    } else {
      assert s.journal[..k] == [];
    }
  }

  /** Where the last line that moves the pointer left it, from NULL on. */
  function Tip(lines: seq<Event>, a: Id): Option<Id> {
    if LastMove(lines, a).Some? then Target(LastMove(lines, a).value) else None
  }

  lemma ReplayedTips(s: State, ix: Index)
    requires StartsFrom(s, ix) && ReplayLines(ix, s.journal).Some?
    ensures var f := ReplayLines(ix, s.journal).value; forall a | a in f.artifacts ::
            f.artifacts[a].current == Tip(s.journal, a)
  {
    assert s.journal[..|s.journal|] == s.journal;
    ReplayFollows(s, ix, |s.journal|);
    hide ReplayLines, Facts, Live, Chronicle;
    var f := ReplayLines(ix, s.journal).value;
    forall a | a in f.artifacts
      ensures f.artifacts[a].current == Tip(s.journal, a)
    {
      assert Follows(f, ix, s.journal, a);
      if a in ix.artifacts {
        assert TipHolds(s.journal, s.ix, a);
      }
    }
  }

  // ----- rows, blobs and high-waters of the replay ---------------------------------------------------------------

  /** Nothing that was in the tables goes. */
  lemma {:induction false} ReplayKeepsStart(ix: Index, lines: seq<Event>)
    requires AbortedGone(ix, lines) && ReplayLines(ix, lines).Some?
    ensures forall w | w in ix.versions ::
            w in ReplayLines(ix, lines).value.versions && ReplayLines(ix, lines).value.versions[w] == ix.versions[w]
  {
    if lines != [] {
      assert AbortedGone(ix, Front(lines)) && lines[|lines| - 1] == Last(lines);
      ReplayKeepsStart(ix, Front(lines));
      NextRows(ReplayLines(ix, Front(lines)).value, Last(lines));
      hide ApplyEvent;
    }
  }

  lemma {:induction false} ReplayBlobs(ix: Index, lines: seq<Event>)
    requires PurgeFree(lines) && ReplayLines(ix, lines).Some?
    ensures WalkBlobs(ReplayLines(ix, lines).value, ix, lines)
  {
    if lines != [] {
      hide ApplyEvent, WalkBlobs;
      assert PurgeFree(Front(lines)) && lines[|lines| - 1] == Last(lines);
      ReplayBlobs(ix, Front(lines));
      NextWalkBlobs(ReplayLines(ix, Front(lines)).value, ix, Front(lines), Last(lines));
      assert Front(lines) + [Last(lines)] == lines;
    }
  }

  /** A replay that succeeds met no purge line, and has the row of every committed line. */
  lemma PurgeSticks(s: State, ix: Index, more: seq<Event>)
    requires StartsFrom(s, ix) && !PurgeFree(s.journal)
    ensures Rebuild(ix, s.journal + more) == None
  {
    PartStarts(s, ix);
    hide Live, Chronicle, Facts, LinesApart, NoneAborted, Startable, Rebuild;
    var k :| 0 <= k < |s.journal| && s.journal[k].GcPurge?;
    assert NamedBefore(s.journal, k, s.journal[k].sha);
    var i :| 0 <= i < k && s.journal[i].VersionCommitted? && s.journal[i].row.sha == Some(s.journal[k].sha);
    PurgeLineStops(ix, s.journal, i, k, more);
  }

  lemma ReplayedAll(s: State, ix: Index)
    requires StartsFrom(s, ix) && ReplayLines(ix, s.journal).Some?
    ensures PurgeFree(s.journal)
    ensures var f := ReplayLines(ix, s.journal).value;
            forall i | 0 <= i < |s.journal| && s.journal[i].VersionCommitted? ::
              s.journal[i].version in f.versions && f.versions[s.journal[i].version].Journaled() == s.journal[i].row
  {
    assert s.journal + [] == s.journal;
    if !PurgeFree(s.journal) {
      PurgeSticks(s, ix, []);
    }
    PartStarts(s, ix);
    hide Live, Chronicle, Facts, LinesApart, NoneAborted, Startable, ReplayLines;
    assert s.journal[..|s.journal|] == s.journal;
    ReplayOverlays(ix, s.journal, |s.journal|);
    ReplaySourced(ix, s.journal);
    var f := ReplayLines(ix, s.journal).value;
    forall i | 0 <= i < |s.journal| && s.journal[i].VersionCommitted?
      ensures s.journal[i].version in f.versions && f.versions[s.journal[i].version].Journaled() == s.journal[i].row
    {
      RowOfLine(s, ix, f, |s.journal|, s.journal[i].version, i);
    }
  }

  // ----- when it succeeds ----------------------------------------------------------------------------------------

  predicate SameName(d: Event, e: Event)
    requires d.VersionCommitted? && e.VersionCommitted?
  {
    d.row.ticket == e.row.ticket && d.logicalName == e.logicalName
  }

  /** The name of an artifact that is gone is free in the table, and no other artifact that is gone had it. */
  ghost predicate NamesClear(ix: Index, lines: seq<Event>) {
    && (forall i | 0 <= i < |lines| && lines[i].VersionCommitted? && lines[i].row.artifact !in ix.artifacts ::
          !NameTaken(ix.artifacts, lines[i].row.ticket, lines[i].logicalName))
    && (forall i, k | 0 <= i < |lines| && 0 <= k < |lines| && lines[i].VersionCommitted? && lines[k].VersionCommitted?
                      && lines[i].row.artifact !in ix.artifacts && lines[k].row.artifact !in ix.artifacts
                      && SameName(lines[i], lines[k]) ::
          lines[i].row.artifact == lines[k].row.artifact)
  }

  lemma NextSucceeds(ix: Index, f: Index, lines: seq<Event>, k: nat)
    requires NamesClear(ix, lines) && k < |lines| && Sourced(f, ix, lines[..k]) && !lines[k].GcPurge?
    requires forall a | a in ix.artifacts ::
               a in f.artifacts && f.artifacts[a].ticket == ix.artifacts[a].ticket
                 && f.artifacts[a].name == ix.artifacts[a].name
    ensures ApplyEvent(f, lines[k]).Some?
  {
    hide Clashes, CurrentSeq, RaiseFence, RefCount;
    var e := lines[k];
    if e.VersionCommitted? && e.row.artifact !in f.artifacts {
      if b :| b in f.artifacts && f.artifacts[b].ticket == e.row.ticket && f.artifacts[b].name == e.logicalName {
        assert NamesArtifact(f.artifacts, b, e.row.ticket, e.logicalName);
        assert NameSourced(ix, lines[..k], b, e.row.ticket, e.logicalName);
        assert b !in ix.artifacts;
        NameClash(ix, lines, k, b);
      }
    }
  }

  lemma NameClash(ix: Index, lines: seq<Event>, k: nat, b: Id)
    requires NamesClear(ix, lines) && k < |lines| && lines[k].VersionCommitted?
             && lines[k].row.artifact !in ix.artifacts
    requires b !in ix.artifacts && NameSourced(ix, lines[..k], b, lines[k].row.ticket, lines[k].logicalName)
    ensures b == lines[k].row.artifact
  {
    var i :| 0 <= i < k && LineNames(lines[..k][i], b, lines[k].row.ticket, lines[k].logicalName);
    assert lines[..k][i] == lines[i] && SameName(lines[i], lines[k]);
  }

  lemma {:induction false} ReplaySucceeds(ix: Index, lines: seq<Event>, k: nat)
    requires NamesClear(ix, lines) && PurgeFree(lines) && k <= |lines|
    ensures ReplayLines(ix, lines[..k]).Some?
  {
    if k > 0 {
      hide ApplyEvent, NamesClear, Sourced;
      assert lines[..k] == lines[..k - 1] + [lines[k - 1]];
      ReplayAppend(ix, lines[..k - 1], lines[k - 1]);
      ReplaySucceeds(ix, lines, k - 1);
      ReplaySourced(ix, lines[..k - 1]);
      ReplayKeepsNames(ix, lines[..k - 1]);
      NextSucceeds(ix, ReplayLines(ix, lines[..k - 1]).value, lines, k - 1);
    }
  }

  /** Every committed line's artifact is there at the end, under its name. */
  lemma ReplayedNames(s: State, ix: Index, i: nat)
    requires StartsFrom(s, ix) && ReplayLines(ix, s.journal).Some? && i < |s.journal| && s.journal[i].VersionCommitted?
    ensures NamesArtifact(ReplayLines(ix, s.journal).value.artifacts, s.journal[i].row.artifact,
                          s.journal[i].row.ticket,
                          s.journal[i].logicalName)
  {
    ReplayedAll(s, ix);
    StartSound(s, ix);
    ReplaySound(ix, s.journal);
    ReplaySourced(ix, s.journal);
    var f, a := ReplayLines(ix, s.journal).value, s.journal[i].row.artifact;
    hide ReplayLines, Recorded, Facts, Sourced;
    assert f.versions[s.journal[i].version].Journaled().artifact == a;
    OneName(s, ix, f, i);
  }

  /** Table, line and replay name one artifact alike. */
  lemma OneName(s: State, ix: Index, f: Index, i: nat)
    requires StartsFrom(s, ix) && Sourced(f, ix, s.journal) && i < |s.journal| && s.journal[i].VersionCommitted?
    requires s.journal[i].row.artifact in f.artifacts
    ensures NamesArtifact(f.artifacts, s.journal[i].row.artifact, s.journal[i].row.ticket, s.journal[i].logicalName)
  {
    hide Recorded, Sound, RowsTold, PointersTold;
    var a := s.journal[i].row.artifact;
    assert NamesArtifact(f.artifacts, a, f.artifacts[a].ticket, f.artifacts[a].name);
    assert NameSourced(ix, s.journal, a, f.artifacts[a].ticket, f.artifacts[a].name);
    assert NamedAs(s, a, f.artifacts[a].ticket, f.artifacts[a].name);
    assert LineNames(s.journal[i], a, s.journal[i].row.ticket, s.journal[i].logicalName);
    assert NamedAs(s, a, s.journal[i].row.ticket, s.journal[i].logicalName);
  }

  lemma StartSound(s: State, ix: Index)
    requires StartsFrom(s, ix)
    ensures RowsLinked(ix) && RowsUnique(ix.versions) && NamesUnique(ix.artifacts) && LinesWhole(s.journal)
  {
    hide Recorded;
  }

  lemma SucceededClear(s: State, ix: Index)
    requires StartsFrom(s, ix) && ReplayLines(ix, s.journal).Some?
    ensures NamesClear(ix, s.journal)
  {
    var f := ReplayLines(ix, s.journal).value;
    StartSound(s, ix);
    ReplaySound(ix, s.journal);
    ReplayKeepsNames(ix, s.journal);
    forall i | 0 <= i < |s.journal| && s.journal[i].VersionCommitted?
      ensures NamesArtifact(f.artifacts, s.journal[i].row.artifact, s.journal[i].row.ticket, s.journal[i].logicalName)
    {
      ReplayedNames(s, ix, i);
    }
    hide ReplayLines, StartsFrom, RowsLinked, RowsUnique, LinesWhole;
    forall i | 0 <= i < |s.journal| && s.journal[i].VersionCommitted? && s.journal[i].row.artifact !in ix.artifacts
      ensures !NameTaken(ix.artifacts, s.journal[i].row.ticket, s.journal[i].logicalName)
    {
      forall b | b in ix.artifacts
        ensures !(ix.artifacts[b].ticket == s.journal[i].row.ticket && ix.artifacts[b].name == s.journal[i].logicalName)
      {
        assert b in f.artifacts && f.artifacts[b].ticket == ix.artifacts[b].ticket
               && f.artifacts[b].name == ix.artifacts[b].name;
      }
    }
  }

  lemma {:induction false} ReplayKeepsNames(ix: Index, lines: seq<Event>)
    requires ReplayLines(ix, lines).Some?
    ensures var f := ReplayLines(ix, lines).value;
            forall a | a in ix.artifacts ::
              a in f.artifacts && f.artifacts[a].ticket == ix.artifacts[a].ticket
                && f.artifacts[a].name == ix.artifacts[a].name
  {
    if lines != [] {
      ReplayKeepsNames(ix, Front(lines));
      NextNames(ReplayLines(ix, Front(lines)).value, Last(lines));
      hide ApplyEvent;
    }
  }

  /** A replay over the live tables, or from nothing, succeeds exactly on these conditions. */
  lemma SucceedsIff(s: State, ix: Index)
    requires StartsFrom(s, ix)
    ensures Rebuild(ix, s.journal).Some? <==> PurgeFree(s.journal) && NamesClear(ix, s.journal)
  {
    hide StartsFrom, ReplayLines, NamesClear, PurgeFree;
    assert s.journal[..|s.journal|] == s.journal;
    if ReplayLines(ix, s.journal).Some? {
      ReplayedAll(s, ix);
      SucceededClear(s, ix);
    }
    if PurgeFree(s.journal) && NamesClear(ix, s.journal) {
      ReplaySucceeds(ix, s.journal, |s.journal|);
    }
  }

  // ----- what it leaves ------------------------------------------------------------------------------------------

  /** Every version the journal commits is in the table. */
  ghost predicate NothingForgotten(ix: Index, lines: seq<Event>) {
    forall i | 0 <= i < |lines| && lines[i].VersionCommitted? :: lines[i].version in ix.versions
  }

  /** The blob rows with the refcounts the version rows give them. */
  function Counted(blobs: map<Sha, BlobRow>, versions: map<Id, VersionRow>): map<Sha, BlobRow> {
    map x | x in blobs :: blobs[x].(refcount := RefCount(versions, x))
  }

  /**
   * The boot's effect: what was there stays, and every missing version is back, under its artifact, at its last
   * pointer.
   */
  ghost predicate Revived(r: Index, s: State) {
    && (forall w | w in r.versions :: w in s.ix.versions || HasLine(s.journal, w))
    && (forall w | w in s.ix.versions :: w in r.versions && r.versions[w] == s.ix.versions[w])
    && NothingForgotten(r, s.journal)
    && (forall a | a in s.ix.artifacts :: a in r.artifacts && r.artifacts[a] == s.ix.artifacts[a])
    && (forall a | a in r.artifacts :: a in s.ix.artifacts || CommittedTo(s.journal, a))
    && (forall a | a in r.artifacts :: r.artifacts[a].current == Tip(s.journal, a))
    && r.fences == s.ix.fences
    && r.blobs == Counted(s.ix.blobs, r.versions)
  }

  lemma ReplayedFencesSame(replayed: map<Ticket, nat>, fences: map<Ticket, nat>, lines: seq<Event>)
    requires ReplayedFences(replayed, fences, lines) && HighWaterIsMax(fences, lines)
    ensures replayed == fences
  {
    forall t | t in replayed
      ensures t in fences && replayed[t] == fences[t]
    {
      if Carried(lines, t, replayed[t]) {
        var i :| 0 <= i < |lines| && Carries(lines[i], t) && lines[i].row.fence.value == replayed[t];
        assert t in fences && replayed[t] <= fences[t];
      }
    }
  }

  lemma {:induction false} ReplayKeepsArtifacts(ix: Index, lines: seq<Event>)
    requires ReplayLines(ix, lines).Some?
    ensures var f := ReplayLines(ix, lines).value;
            forall a | a in ix.artifacts ::
                   a in f.artifacts && f.artifacts[a] == ix.artifacts[a].(current := f.artifacts[a].current)
  {
    if lines != [] {
      ReplayKeepsArtifacts(ix, Front(lines));
      NextLanding(ReplayLines(ix, Front(lines)).value, Last(lines));
      NextNames(ReplayLines(ix, Front(lines)).value, Last(lines));
      hide ApplyEvent;
    }
  }

  /** Blobs the table lacks are named by no line, or the replay would have met their purge. */
  lemma RevivedBlobs(f: Index, s: State)
    requires WalkBlobs(f, s.ix, s.journal) && PurgeFree(s.journal) && PrintsKept(s.ix, s.journal)
    ensures f.blobs == s.ix.blobs
  {
    hide FirstPrint;
    forall x: Sha
      ensures x in f.blobs <==> x in s.ix.blobs
    {
      assert PrintIn(s.ix.blobs, x) == FirstPrint(s.journal, x);
    }
  }

  lemma RevivedRows(f: Index, s: State)
    requires Facts(s) && Recorded(s) && ReplayLines(s.ix, s.journal) == Some(f)
    ensures forall w | w in f.versions :: w in s.ix.versions || HasLine(s.journal, w)
    ensures forall w | w in s.ix.versions :: w in f.versions && f.versions[w] == s.ix.versions[w]
    ensures NothingForgotten(f, s.journal) && PurgeFree(s.journal)
  {
    ReplayedAll(s, s.ix);
    ReplayKeepsStart(s.ix, s.journal);
    ReplaySourced(s.ix, s.journal);
    hide ReplayLines, Facts, Live, Chronicle, PurgesForget, PurgesNamed;
    forall w | w in f.versions
      ensures w in s.ix.versions || HasLine(s.journal, w)
    {
      assert RowSourced(f, s.ix, s.journal, w);
    }
  }

  lemma RevivedArtifacts(f: Index, s: State)
    requires Facts(s) && Recorded(s) && ReplayLines(s.ix, s.journal) == Some(f)
    ensures forall a | a in s.ix.artifacts :: a in f.artifacts && f.artifacts[a] == s.ix.artifacts[a]
    ensures forall a | a in f.artifacts :: a in s.ix.artifacts || CommittedTo(s.journal, a)
    ensures forall a | a in f.artifacts :: f.artifacts[a].current == Tip(s.journal, a)
  {
    ReplayedTips(s, s.ix);
    ReplaySourced(s.ix, s.journal);
    ReplayKeepsArtifacts(s.ix, s.journal);
    hide ReplayLines, Facts, Live, Chronicle, Sourced;
    forall a | a in f.artifacts
      ensures a in s.ix.artifacts || CommittedTo(s.journal, a)
    {
      RevivedArtifact(f, s, a);
    }
    forall a | a in s.ix.artifacts
      ensures f.artifacts[a] == s.ix.artifacts[a]
    {
      assert TipHolds(s.journal, s.ix, a);
    }
  }

  lemma BootRevives(s: State)
    requires Facts(s) && Recorded(s) && Fenced(s) && Rebuild(s.ix, s.journal).Some?
    ensures Revived(Rebuild(s.ix, s.journal).value, s)
  {
    var f := ReplayLines(s.ix, s.journal).value;
    RecordedPrints(s);
    hide ReplayLines, Facts, Recorded, HasLine, HighWaterIsMax, TokensSorted, Tip, RefCount, PrintsKept, CommittedTo,
      PurgeFree;
    RevivedRows(f, s);
    RevivedArtifacts(f, s);
    ReplayBlobs(s.ix, s.journal);
    ReplayFences(s.ix, s.journal);
    hide WalkBlobs, ReplayedFences, NothingForgotten;
    ReplayedFencesSame(f.fences, s.ix.fences, s.journal);
    RevivedBlobs(f, s);
  }

  lemma RecordedPrints(s: State)
    requires Recorded(s)
    ensures PrintsKept(s.ix, s.journal)
  {
  }

  lemma RevivedArtifact(f: Index, s: State, a: Id)
    requires Sourced(f, s.ix, s.journal) && a in f.artifacts
    ensures a in s.ix.artifacts || CommittedTo(s.journal, a)
  {
    assert NamesArtifact(f.artifacts, a, f.artifacts[a].ticket, f.artifacts[a].name);
    assert NameSourced(s.ix, s.journal, a, f.artifacts[a].ticket, f.artifacts[a].name);
  }
}
