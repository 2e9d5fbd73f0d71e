/**
 * Rebuilding from nothing and booting over the live tables after any run without collections: I/O faults behind the
 * journal line, crashes and boots in any order, and the exact conditions under which either gives the live tables
 * (apps/drive/src/storage/maintenance.ts, reconcileOnBoot and rebuildIndex).
 */
module DriveHealing {
  import opened Prelude
  import opened DriveIndex
  import opened DriveMachine
  import opened DriveReplay
  import opened DriveSafety
  import opened DriveRuns
  import opened DriveLive
  import opened DriveFencing
  import opened DriveFacts
  import opened DriveAlways
  import opened DriveFaults
  import opened DriveBoots

  lemma EmptyOrdered()
    ensures Ordered(INIT, {})
  {
    assert ByteRows(EMPTY.versions) == EMPTY.versions;
    FactsRuns([], Limits(0, 0, 0, 0, false));
  }

  lemma UncollectedStep(s: State, op: Op, limits: Limits, marks: set<nat>)
    requires Ordered(s, marks) && !op.DoCollect?
    ensures Ordered(Step(s, op, limits), MarksAfter(s, op, marks))
  {
    hide Ordered, Rebuild;
    if BootFree(op) {
      hide Step;
      StepOrdered(s, op, limits, marks);
    } else if op.DoReboot? {
      hide Reboot;
      BootOrdered(s, marks);
    } else if Interruptible(op.inner) {
      hide Step;
      CrashOrdered(s, op.inner, op.moved, limits, marks);
    }
  }

  lemma {:induction false} UncollectedRuns(ops: seq<Op>, limits: Limits)
    requires GcFree(ops)
    ensures Ordered(Run(ops, limits), Marks(ops, limits))
  {
    if ops == [] {
      EmptyOrdered();
    } else {
      hide Ordered, Step, MarksAfter;
      assert GcFree(Front(ops)) && !Last(ops).DoCollect?;
      UncollectedRuns(Front(ops), limits);
      UncollectedStep(Run(Front(ops), limits), Last(ops), limits, Marks(Front(ops), limits));
    }
  }

  // ----- what a rebuild after such a run gets right, and exactly when --------------------------------------------

  /** On every artifact with live bytes, the last line to move its pointer is not hidden. */
  ghost predicate PointersHealed(s: State, marks: set<nat>) {
    forall a, j: nat | a in s.ix.artifacts && HasBytes(s.ix.versions, a) && LastMoveAt(s.journal, a, j) ::
      !Hidden(s.journal, marks, j)
  }

  /** Every hidden token is matched by one at least as high that shows. */
  ghost predicate FencesHealed(lines: seq<Event>, marks: set<nat>) {
    forall i, t: Ticket | 0 <= i < |lines| && Hidden(lines, marks, i) && Carries(lines[i], t) ::
      Covered(lines, t, lines[i].row.fence.value, marks)
  }

  ghost predicate Covered(lines: seq<Event>, t: Ticket, token: nat, marks: set<nat>) {
    exists k | 0 <= k < |lines| :: Shown(lines, marks, k) && Carries(lines[k], t) && token <= lines[k].row.fence.value
  }

  /** The first line naming a blob carries the size and creation time of the one whose blob row is live. */
  ghost predicate BlobsHealed(lines: seq<Event>, marks: set<nat>) {
    forall x: Sha :: FirstPrint(lines, x) == ShownPrint(lines, lines, x, marks)
  }

  /** Every artifact a rolled-back line committed to has a commit that was not rolled back. */
  ghost predicate ArtifactsHealed(lines: seq<Event>) {
    forall i | 0 <= i < |lines| && Dead(lines, lines[i]) :: CommittedAlive(lines, lines[i].row.artifact)
  }

  ghost predicate CommittedAlive(lines: seq<Event>, a: Id) {
    exists k | 0 <= k < |lines| :: Alive(lines, lines[k]) && lines[k].row.artifact == a
  }

  /** No hidden line makes a difference in any of the four tables it touches when it is replayed. */
  ghost predicate Healed(s: State, marks: set<nat>) {
    PointersHealed(s, marks) && FencesHealed(s.journal, marks) && BlobsHealed(s.journal, marks)
      && ArtifactsHealed(s.journal)
  }

  lemma PointersAgreeIff(f: Index, s: State, marks: set<nat>)
    requires Faulty(s, marks) && FaultMirror(f, s.ix, s.journal)
    ensures ArtifactsAgree(f, s.ix) <==> PointersHealed(s, marks)
  {
    hide Facts, ReplayLines, LiveFences, LivePrints, RowsLined, FaultLines;
    forall a | a in s.ix.artifacts && HasBytes(s.ix.versions, a)
      ensures exists j: nat :: LastMoveAt(s.journal, a, j)
      ensures forall j: nat | LastMoveAt(s.journal, a, j) :: SameArtifact(f, s.ix, a) <==> !Hidden(s.journal, marks, j)
    {
      assert AdoptedArtifact(f, s.ix, s.journal, a) && FaultTip(s.journal, s.ix, a, marks);
      var j := LastMoveFound(s.journal, a);
      forall j: nat | LastMoveAt(s.journal, a, j)
        ensures SameArtifact(f, s.ix, a) <==> !Hidden(s.journal, marks, j)
      {
        LastMoveIsAt(s.journal, a, j);
      }
    }
  }

  lemma CoveredBelow(fences: map<Ticket, nat>, lines: seq<Event>, t: Ticket, token: nat, marks: set<nat>)
    requires LiveFences(fences, lines, marks) && Covered(lines, t, token, marks)
    ensures t in fences && token <= fences[t]
  {
    var k :| 0 <= k < |lines| && Shown(lines, marks, k) && Carries(lines[k], t) && token <= lines[k].row.fence.value;
  }

  lemma LiveBelowReplayed(replayed: map<Ticket, nat>, live: map<Ticket, nat>, lines: seq<Event>, t: Ticket,
                          marks: set<nat>)
    requires HighWaterIsMax(replayed, lines) && LiveFences(live, lines, marks) && t in live
    ensures t in replayed && live[t] <= replayed[t] && Covered(lines, t, live[t], marks)
  {
    var i :| 0 <= i < |lines| && Shown(lines, marks, i) && Carries(lines[i], t) && lines[i].row.fence.value == live[t];
  }

  lemma HealedBelow(replayed: map<Ticket, nat>, live: map<Ticket, nat>, lines: seq<Event>, t: Ticket, marks: set<nat>)
    requires HighWaterIsMax(replayed, lines) && LiveFences(live, lines, marks) && FencesHealed(lines, marks)
             && t in replayed
    ensures t in live && replayed[t] <= live[t]
  {
    var i :| 0 <= i < |lines| && Carries(lines[i], t) && lines[i].row.fence.value == replayed[t];
    if Hidden(lines, marks, i) {
      CoveredBelow(live, lines, t, replayed[t], marks);
    }
  }

  lemma AgreementHeals(live: map<Ticket, nat>, lines: seq<Event>, marks: set<nat>)
    requires HighWaterIsMax(live, lines) && LiveFences(live, lines, marks)
    ensures FencesHealed(lines, marks)
  {
    forall i, t: Ticket | 0 <= i < |lines| && Hidden(lines, marks, i) && Carries(lines[i], t)
      ensures Covered(lines, t, lines[i].row.fence.value, marks)
    {
      LiveBelowReplayed(live, live, lines, t, marks);
      CoveredDown(lines, t, live[t], lines[i].row.fence.value, marks);
    }
  }

  lemma FencesAgreeIff(replayed: map<Ticket, nat>, live: map<Ticket, nat>, lines: seq<Event>, marks: set<nat>)
    requires HighWaterIsMax(replayed, lines) && LiveFences(live, lines, marks)
    ensures replayed == live <==> FencesHealed(lines, marks)
  {
    hide HighWaterIsMax, LiveFences, FencesHealed, Covered;
    forall t | t in live
      ensures t in replayed && live[t] <= replayed[t]
    {
      LiveBelowReplayed(replayed, live, lines, t, marks);
    }
    if FencesHealed(lines, marks) {
      forall t | t in replayed
        ensures t in live && replayed[t] == live[t]
      {
        HealedBelow(replayed, live, lines, t, marks);
      }
      assert replayed == live;
    }
    if replayed == live {
      AgreementHeals(live, lines, marks);
    }
  }

  lemma CoveredDown(lines: seq<Event>, t: Ticket, high: nat, low: nat, marks: set<nat>)
    requires Covered(lines, t, high, marks) && low <= high
    ensures Covered(lines, t, low, marks)
  {
    var k :| 0 <= k < |lines| && Shown(lines, marks, k) && Carries(lines[k], t) && high <= lines[k].row.fence.value;
  }

  lemma BytesAreAlive(s: State, a: Id, marks: set<nat>)
    requires Faulty(s, marks)
    ensures HasBytes(s.ix.versions, a) <==> CommittedAlive(s.journal, a)
  {
    hide FaultTips, LiveFences, FaultMirror, ReplayLines, LivePrints, Sound;
    if HasBytes(s.ix.versions, a) {
      var v :| v in s.ix.versions && s.ix.versions[v].artifact == a && !s.ix.versions[v].IsMarker();
      var i :| 0 <= i < |s.journal| && Alive(s.journal, s.journal[i]) && s.journal[i].version == v;
      assert FaultLine(s.journal, s.ix, s.journal[i]);
      assert s.journal[i].row.artifact == s.ix.versions[v].Journaled().artifact;
    }
    if CommittedAlive(s.journal, a) {
      var k :| 0 <= k < |s.journal| && Alive(s.journal, s.journal[k]) && s.journal[k].row.artifact == a;
      assert FaultLine(s.journal, s.ix, s.journal[k]);
      assert s.ix.versions[s.journal[k].version].Journaled() == s.journal[k].row;
    }
  }

  lemma StraysIff(f: Index, s: State, marks: set<nat>)
    requires Faulty(s, marks) && FaultMirror(f, s.ix, s.journal)
    ensures NoStrays(f, s.ix) <==> ArtifactsHealed(s.journal)
  {
    AdoptedAreCommitted(f, s);
    hide Faulty, FaultMirror, HasBytes, CommittedAlive;
    if ArtifactsHealed(s.journal) {
      forall a | a in f.artifacts
        ensures HasBytes(s.ix.versions, a)
      {
        var i :| 0 <= i < |s.journal| && s.journal[i].VersionCommitted? && s.journal[i].row.artifact == a;
        LineCommits(s.journal, i);
        BytesAreAlive(s, a, marks);
      }
    }
    if NoStrays(f, s.ix) {
      StraysHeal(f, s, marks);
    }
  }

  lemma StraysHeal(f: Index, s: State, marks: set<nat>)
    requires Faulty(s, marks) && NoStrays(f, s.ix) && forall a: Id :: a in f.artifacts <==> CommittedTo(s.journal, a)
    ensures ArtifactsHealed(s.journal)
  {
    hide Faulty, HasBytes, CommittedAlive;
    forall i | 0 <= i < |s.journal| && Dead(s.journal, s.journal[i])
      ensures CommittedAlive(s.journal, s.journal[i].row.artifact)
    {
      assert CommittedTo(s.journal, s.journal[i].row.artifact);
      BytesAreAlive(s, s.journal[i].row.artifact, marks);
    }
  }

  lemma LineCommits(lines: seq<Event>, i: nat)
    requires i < |lines| && lines[i].VersionCommitted? && ArtifactsHealed(lines)
    ensures CommittedAlive(lines, lines[i].row.artifact)
  {
    assert Dead(lines, lines[i]) || Alive(lines, lines[i]);
  }

  lemma AdoptedAreCommitted(f: Index, s: State)
    requires FaultMirror(f, s.ix, s.journal)
    ensures forall a: Id :: a in f.artifacts <==> CommittedTo(s.journal, a)
    ensures forall a | a in f.artifacts :: a in s.ix.artifacts
  {
    assert forall a | a in f.artifacts :: AdoptedArtifact(f, s.ix, s.journal, a);
  }

  lemma NothingPurged(s: State, marks: set<nat>)
    requires Faulty(s, marks)
    ensures forall e | e in s.journal :: !e.GcPurge?
  {
    forall i | 0 <= i < |s.journal|
      ensures !s.journal[i].GcPurge?
    {
      assert FaultLine(s.journal, s.ix, s.journal[i]);
    }
  }

  /** Recounted, the two blob tables are equal exactly when they have the same prints. */
  lemma PrintsDecide(f: Index, ix: Index)
    requires f.versions == ByteRows(ix.versions) && RefsCounted(ix)
    ensures Recount(f).blobs == ix.blobs <==> forall x: Sha :: PrintIn(f.blobs, x) == PrintIn(ix.blobs, x)
  {
    var r := Recount(f).blobs;
    forall x | x in ix.blobs
      ensures ix.blobs[x].refcount == RefCount(f.versions, x)
    {
      RefCountByteRows(ix.versions, x);
    }
    if r == ix.blobs {
      forall x: Sha
        ensures PrintIn(f.blobs, x) == PrintIn(ix.blobs, x)
      {
        assert x in r <==> x in f.blobs;
      }
    }
    if forall x: Sha :: PrintIn(f.blobs, x) == PrintIn(ix.blobs, x) {
      forall x: Sha
        ensures x in r <==> x in ix.blobs
        ensures x in ix.blobs ==> r[x] == ix.blobs[x]
      {
        assert PrintIn(f.blobs, x) == PrintIn(ix.blobs, x);
      }
      assert r == ix.blobs;
    }
  }

  lemma BlobsAgreeIff(s: State, marks: set<nat>)
    requires Faulty(s, marks)
    ensures ReplayLines(EMPTY, s.journal).Some?
    ensures Recount(ReplayLines(EMPTY, s.journal).value).blobs == s.ix.blobs <==> BlobsHealed(s.journal, marks)
  {
    var f := ReplayLines(EMPTY, s.journal).value;
    FaultyMeans(f, s, marks);
    NothingPurged(s, marks);
    PrintsDecide(f, s.ix);
    ReplayPrints(s.journal);
    hide Faulty, ReplayLines, FirstPrint, ShownPrint, Recount;
    if forall x: Sha :: PrintIn(f.blobs, x) == PrintIn(s.ix.blobs, x) {
      forall x: Sha
        ensures FirstPrint(s.journal, x) == ShownPrint(s.journal, s.journal, x, marks)
      {
        assert PrintIn(f.blobs, x) == PrintIn(s.ix.blobs, x);
      }
    }
    if BlobsHealed(s.journal, marks) {
      forall x: Sha
        ensures PrintIn(f.blobs, x) == PrintIn(s.ix.blobs, x)
      {
        assert FirstPrint(s.journal, x) == ShownPrint(s.journal, s.journal, x, marks);
      }
    }
  }

  /** The rebuilt index `r` of a run with faults: rows always right, each other table exactly when healed. */
  ghost predicate FaultsShow(r: Index, s: State, marks: set<nat>) {
    && r.versions == ByteRows(s.ix.versions)
    && (ArtifactsAgree(r, s.ix) <==> PointersHealed(s, marks))
    && (r.fences == s.ix.fences <==> FencesHealed(s.journal, marks))
    && (r.blobs == s.ix.blobs <==> BlobsHealed(s.journal, marks))
    && (NoStrays(r, s.ix) <==> ArtifactsHealed(s.journal))
  }

  /**
   * After any run in which nothing was collected, whichever commits failed behind their line and whatever crashed and
   * booted, a rebuild from nothing succeeds and restores the version rows; it restores pointers, fences, blob rows and
   * the set of artifacts each exactly when no rolled-back line that no boot has replayed makes a difference there, so
   * that it agrees with the live index exactly when none does anywhere.
   */
  lemma RebuildAfterFaults(ops: seq<Op>, limits: Limits, s: State, marks: set<nat>)
    requires GcFree(ops) && s == Run(ops, limits) && marks == Marks(ops, limits)
    ensures Rebuild(EMPTY, s.journal).Some? && FaultsShow(Rebuild(EMPTY, s.journal).value, s, marks)
    ensures Rebuildable(s) <==> Healed(s, marks)
  {
    hide Facts, FaultCore, Run, Rebuild, Marks, DeadPaired, SeqsAscend, PointersHealed, FencesHealed, BlobsHealed,
      ArtifactsHealed;
    hide ArtifactsAgree, NoStrays;
    UncollectedRuns(ops, limits);
    ShowsAll(s, marks);
  }

  lemma ReplayedMirrors(s: State, marks: set<nat>)
    requires Faulty(s, marks)
    ensures ReplayLines(EMPTY, s.journal).Some? && FaultMirror(ReplayLines(EMPTY, s.journal).value, s.ix, s.journal)
  {
    hide Facts, FaultMirror, ReplayLines, FaultLines, FaultTips, LiveFences, RowsLined, LivePrints, Minted;
  }

  lemma ShowsAll(s: State, marks: set<nat>)
    requires Faulty(s, marks)
    ensures Rebuild(EMPTY, s.journal).Some? && FaultsShow(Rebuild(EMPTY, s.journal).value, s, marks)
  {
    hide Faulty, FaultMirror, ReplayLines, PointersHealed, FencesHealed, BlobsHealed, ArtifactsHealed, ArtifactsAgree,
      NoStrays;
    ReplayedMirrors(s, marks);
    BlobsAgreeIff(s, marks);
    var f := ReplayLines(EMPTY, s.journal).value;
    PointersAgreeIff(f, s, marks);
    FaultyMeans(f, s, marks);
    StraysIff(f, s, marks);
    FencesAgreeIff(f.fences, s.ix.fences, s.journal, marks);
    RecountKeepsArtifacts(f, s.ix);
  }

  lemma FaultyMeans(f: Index, s: State, marks: set<nat>)
    requires Faulty(s, marks) && FaultMirror(f, s.ix, s.journal)
    ensures HighWaterIsMax(f.fences, s.journal) && LiveFences(s.ix.fences, s.journal, marks)
            && LivePrints(s.ix.blobs, s.journal, marks)
    ensures f.versions == ByteRows(s.ix.versions) && RefsCounted(s.ix)
  {
  }

  lemma RecountKeepsArtifacts(f: Index, ix: Index)
    ensures ArtifactsAgree(Recount(f), ix) <==> ArtifactsAgree(f, ix)
    ensures NoStrays(Recount(f), ix) <==> NoStrays(f, ix)
  {
    forall a | a in ix.artifacts
      ensures SameArtifact(Recount(f), ix, a) <==> SameArtifact(f, ix, a)
    {
    }
  }

  lemma RolledBackLines(s: State, op: Op, limits: Limits)
    requires op.DoCommit? && Commit(s, op.p, op.u, op.mat, op.now, limits, op.fault).reply == Err(IoFailure)
    ensures op.u in s.uploads
    ensures var row := NewRow(s.ix, s.uploads[op.u], op.mat, op.now);
            && Step(s, op, limits).journal ==
              s.journal + [LineOf(s.next, row, s.uploads[op.u].name)] + [Aborted(s.next)]
            && Step(s, op, limits).ix == s.ix
            && !Stale(s.ix.fences, s.uploads[op.u].ticket, s.uploads[op.u].fence)
            && !Clashes(s.ix.versions, row) && row.artifact in s.ix.artifacts
  {
    hide Clashes, CommitIndex, MaxSeq;
  }

  /** Replaying a rolled-back line: the row is gone, the pointer it moved is not. */
  lemma RollbackReplayed(ix: Index, lines: seq<Event>, v: Id, row: VersionRow, name: string, marks: set<nat>)
    requires Sound(ix) && FaultCore(ix, lines, v, marks) && Fits(ix, v, row, name)
    ensures var r := Rebuild(EMPTY, lines + [LineOf(v, row, name)] + [Aborted(v)]);
            r.Some? && row.artifact in r.value.artifacts && r.value.artifacts[row.artifact].current == Some(v)
            && v !in r.value.versions
  {
    hide RowsLinked, RowsUnique, RefsCounted, FaultLines, FaultTips, RowsLined, LiveFences, Minted;
    hide FaultMirror, Fits, RefCount, NameTaken;
    var e, f := LineOf(v, row, name), ReplayLines(EMPTY, lines).value;
    FaultyLineApplies(f, ix, lines, v, row, name);
    ReplayAppend(EMPTY, lines, e);
    ReplayAppend(EMPTY, lines + [e], Aborted(v));
  }

  /**
   * A commit that fails behind its line leaves the live index alone, yet the next rebuild points the artifact at
   * the version that was rolled back, for which there is no row.
   */
  lemma RollbackDangles(ops: seq<Op>, op: Op, limits: Limits, s: State, t: State)
    requires GcFree(ops) && s == Run(ops, limits) && t == Step(s, op, limits)
    requires op.DoCommit? && Commit(s, op.p, op.u, op.mat, op.now, limits, op.fault).reply == Err(IoFailure)
    ensures t.ix == s.ix && s.next !in s.ix.versions && op.u in s.uploads
    ensures var r, a := Rebuild(EMPTY, t.journal), s.uploads[op.u].artifact;
            r.Some? && a in r.value.artifacts && r.value.artifacts[a].current == Some(s.next)
              && s.next !in r.value.versions
  {
    UncollectedRuns(ops, limits);
    hide FaultCore, Sound, Clashes, Commit, Step, Rebuild, LinesWhole, RowsTold, NamesTold, PointersTold, DeadPaired,
      SeqsAscend;
    RolledBackLines(s, op, limits);
    FactsFit(s, op.u, op.mat, op.now);
    RollbackReplayed(s.ix, s.journal, s.next, NewRow(s.ix, s.uploads[op.u], op.mat, op.now), s.uploads[op.u].name,
                     Marks(ops, limits));
  }

  // ----- when a boot changes nothing -----------------------------------------------------------------------------

  /** No artifact's last move is hidden. */
  ghost predicate TipsShown(s: State, marks: set<nat>) {
    forall a, j: nat | a in s.ix.artifacts && LastMoveAt(s.journal, a, j) :: !Hidden(s.journal, marks, j)
  }

  /** Every blob a rolled-back line names is in the table. */
  ghost predicate DeadBlobsHeld(s: State) {
    forall i | 0 <= i < |s.journal| && Dead(s.journal, s.journal[i]) && s.journal[i].row.sha.Some? ::
      s.journal[i].row.sha.value in s.ix.blobs
  }

  /** The index `r` a boot over the live tables ends with: rows as they were, each other table exactly when healed. */
  ghost predicate BootShows(r: Index, s: State, marks: set<nat>) {
    && r.versions == s.ix.versions
    && (r.artifacts == s.ix.artifacts <==> TipsShown(s, marks))
    && (r.fences == s.ix.fences <==> FencesHealed(s.journal, marks))
    && (r.blobs == s.ix.blobs <==> DeadBlobsHeld(s))
  }

  /** Behind a boot each pointer is where its last move says; before it, exactly unless that move is hidden. */
  lemma PointersBack(f: Index, s: State, marks: set<nat>)
    requires WalkPointers(f, s.ix, s.journal) && FaultTips(s.journal, s.ix, marks)
    requires FaultTips(s.journal, f, marks + {|s.journal|})
    ensures f.artifacts == s.ix.artifacts <==> TipsShown(s, marks)
  {
    AllSeen(s.journal, marks);
    hide WalkPointer;
    forall a | a in s.ix.artifacts
      ensures a in f.artifacts
      ensures f.artifacts[a] == s.ix.artifacts[a] <==>
              forall j: nat | LastMoveAt(s.journal, a, j) :: !Hidden(s.journal, marks, j)
    {
      assert a in f.artifacts.Keys;
      assert FaultTip(s.journal, s.ix, a, marks) && FaultTip(s.journal, f, a, marks + {|s.journal|});
      if LastMove(s.journal, a).Some? {
        var j := LastMoveFound(s.journal, a);
        OneLastMove(s.journal, a, j);
      } else {
        NoLastMove(s.journal, a);
      }
    }
    if TipsShown(s, marks) {
      assert f.artifacts == s.ix.artifacts;
    }
  }

  lemma OneLastMove(lines: seq<Event>, a: Id, j: nat)
    requires LastMoveAt(lines, a, j)
    ensures forall k: nat | LastMoveAt(lines, a, k) :: k == j
  {
  }

  lemma NoLastMove(lines: seq<Event>, a: Id)
    requires LastMove(lines, a).None?
    ensures forall j: nat :: !LastMoveAt(lines, a, j)
  {
    forall j: nat | LastMoveAt(lines, a, j)
      ensures false
    {
      LastMoveIsAt(lines, a, j);
    }
  }

  lemma FencesBack(replayed: map<Ticket, nat>, fences: map<Ticket, nat>, lines: seq<Event>, marks: set<nat>)
    requires ReplayedFences(replayed, fences, lines) && LiveFences(fences, lines, marks)
    ensures replayed == fences <==> FencesHealed(lines, marks)
  {
    hide FencesHealed, ReplayedFences, LiveFences, AllBelow;
    HealedIsBelow(fences, lines, marks);
    if FencesHealed(lines, marks) {
      WalkedWithin(replayed, fences, lines);
    } else if replayed == fences {
      WalkedBelow(replayed, fences, lines);
    }
  }

  lemma WalkedBelow(replayed: map<Ticket, nat>, fences: map<Ticket, nat>, lines: seq<Event>)
    requires ReplayedFences(replayed, fences, lines)
    ensures AllBelow(replayed, lines)
  {
  }

  lemma WalkedWithin(replayed: map<Ticket, nat>, fences: map<Ticket, nat>, lines: seq<Event>)
    requires ReplayedFences(replayed, fences, lines) && AllBelow(fences, lines)
    ensures replayed == fences
  {
    forall t | t in replayed
      ensures t in fences && replayed[t] == fences[t]
    {
      if Carried(lines, t, replayed[t]) {
        var i :| 0 <= i < |lines| && Carries(lines[i], t) && lines[i].row.fence.value == replayed[t];
        assert t in fences && replayed[t] <= fences[t];
      }
    }
  }

  /** Healed means no token at all is above the live high-water. */
  lemma HealedIsBelow(fences: map<Ticket, nat>, lines: seq<Event>, marks: set<nat>)
    requires LiveFences(fences, lines, marks)
    ensures FencesHealed(lines, marks) <==> AllBelow(fences, lines)
  {
    if FencesHealed(lines, marks) {
      forall i, t: Ticket | 0 <= i < |lines| && Carries(lines[i], t)
        ensures t in fences && lines[i].row.fence.value <= fences[t]
      {
        if Hidden(lines, marks, i) {
          CoveredBelow(fences, lines, t, lines[i].row.fence.value, marks);
        }
      }
    }
    if AllBelow(fences, lines) {
      forall i, t: Ticket | 0 <= i < |lines| && Hidden(lines, marks, i) && Carries(lines[i], t)
        ensures Covered(lines, t, lines[i].row.fence.value, marks)
      {
        LiveIsCovered(fences, lines, t, lines[i].row.fence.value, marks);
      }
    }
  }

  lemma LiveIsCovered(fences: map<Ticket, nat>, lines: seq<Event>, t: Ticket, token: nat, marks: set<nat>)
    requires LiveFences(fences, lines, marks) && t in fences && token <= fences[t]
    ensures Covered(lines, t, token, marks)
  {
    var k :| 0 <= k < |lines| && Shown(lines, marks, k) && Carries(lines[k], t)
      && lines[k].row.fence.value == fences[t];
  }

  lemma {:induction false} PrintedIsNamed(lines: seq<Event>, x: Sha)
    ensures FirstPrint(lines, x).Some? <==> exists i | 0 <= i < |lines| :: NamesBlob(lines[i], x)
  {
    if lines != [] {
      PrintedIsNamed(Front(lines), x);
      assert lines[|lines| - 1] == Last(lines);
      assert forall i | 0 <= i < |lines| - 1 :: lines[i] == Front(lines)[i];
    }
  }

  lemma BlobsBack(f: Index, s: State)
    requires WalkBlobs(f, s.ix, s.journal) && f.versions == s.ix.versions && RefsCounted(s.ix)
    requires RowsLinked(s.ix) && FaultLines(s.journal, s.ix)
    ensures Recount(f).blobs == s.ix.blobs <==> DeadBlobsHeld(s)
  {
    hide RefCount, FirstPrint;
    forall x: Sha
      ensures x !in s.ix.blobs ==> (x in f.blobs <==> exists i | 0 <= i < |s.journal| :: NamesBlob(s.journal[i], x))
    {
      PrintedIsNamed(s.journal, x);
    }
    if DeadBlobsHeld(s) {
      forall i, x: Sha | 0 <= i < |s.journal| && NamesBlob(s.journal[i], x)
        ensures x in s.ix.blobs
      {
        assert FaultLine(s.journal, s.ix, s.journal[i]);
        assert Dead(s.journal, s.journal[i]) || s.ix.versions[s.journal[i].version].sha == Some(x);
      }
      assert Recount(f).blobs == s.ix.blobs;
    }
    if Recount(f).blobs == s.ix.blobs {
      forall i | 0 <= i < |s.journal| && Dead(s.journal, s.journal[i]) && s.journal[i].row.sha.Some?
        ensures s.journal[i].row.sha.value in s.ix.blobs
      {
        assert NamesBlob(s.journal[i], s.journal[i].row.sha.value);
        assert s.journal[i].row.sha.value in f.blobs ==> s.journal[i].row.sha.value in Recount(f).blobs;
      }
    }
  }

  lemma RecountOnlyBlobs(f: Index)
    ensures Recount(f) == f.(blobs := Recount(f).blobs)
  {
  }

  lemma OrderedMeans(s: State, marks: set<nat>)
    requires Ordered(s, marks)
    ensures FaultTips(s.journal, s.ix, marks) && LiveFences(s.ix.fences, s.journal, marks)
            && FaultLines(s.journal, s.ix)
    ensures RefsCounted(s.ix) && RowsLinked(s.ix)
  {
  }

  lemma BootShowsAll(s: State, marks: set<nat>)
    requires Ordered(s, marks)
    ensures Rebuild(s.ix, s.journal).Some? && BootShows(Rebuild(s.ix, s.journal).value, s, marks)
  {
    OrderedWalks(s, marks);
    OrderedMeans(s, marks);
    hide ReplayLines, Ordered, FaultTips, LiveFences, RefsCounted, RowsLinked, FaultLines;
    hide TipsShown, FencesHealed, DeadBlobsHeld, Recount, WalkPointers, WalkBlobs, ReplayedFences;
    BootWalks(s.ix, s.journal);
    var f := ReplayLines(s.ix, s.journal).value;
    hide Walkable;
    BootTips(f, s.ix, s.journal, marks);
    PointersBack(f, s, marks);
    FencesBack(f.fences, s.ix.fences, s.journal, marks);
    BlobsBack(f, s);
    RecountOnlyBlobs(f);
  }

  /**
   * After any run in which nothing was collected, whichever commits failed and whatever crashed and booted, a boot over
   * the live tables succeeds and keeps the version rows; pointers, high-waters and blob rows it keeps each exactly when
   * no rolled-back line that no boot has replayed makes a difference there, so that it changes nothing exactly when
   * none does anywhere.
   */
  lemma BootAfterFaults(ops: seq<Op>, limits: Limits, s: State, marks: set<nat>)
    requires GcFree(ops) && s == Run(ops, limits) && marks == Marks(ops, limits)
    ensures Rebuild(s.ix, s.journal).Some? && BootShows(Rebuild(s.ix, s.journal).value, s, marks)
    ensures Reboot(s) == s <==> TipsShown(s, marks) && FencesHealed(s.journal, marks) && DeadBlobsHeld(s)
  {
    hide Run, Rebuild, Marks, Ordered, TipsShown, FencesHealed, DeadBlobsHeld;
    UncollectedRuns(ops, limits);
    BootShowsAll(s, marks);
  }

  /**
   * The boot after the faults heals what it can: behind it pointers and high-waters are what any rebuild gives, another
   * boot changes nothing, and the journal rebuilds the tables exactly when blob rows and the set of artifacts agree.
   */
  lemma BootHeals(ops: seq<Op>, limits: Limits, t: State, marks: set<nat>)
    requires GcFree(ops) && t == Reboot(Run(ops, limits)) && marks == Marks(ops + [DoReboot], limits)
    ensures PointersHealed(t, marks) && FencesHealed(t.journal, marks)
    ensures Reboot(t) == t
    ensures Rebuildable(t) <==> BlobsHealed(t.journal, marks) && ArtifactsHealed(t.journal)
  {
    hide Run, Rebuild, Marks, Ordered, PointersHealed, FencesHealed, BlobsHealed, ArtifactsHealed, TipsShown,
      DeadBlobsHeld, Rebuildable, BootShows, FaultsShow, GcFree;
    var again := ops + [DoReboot];
    BootedRun(ops, limits, t, marks);
    UncollectedRuns(again, limits);
    RebuildAfterFaults(again, limits, t, marks);
    BootAfterFaults(again, limits, t, marks);
    AllShown(t, marks);
    BlobsAreHeld(t, marks);
  }

  lemma BootedRun(ops: seq<Op>, limits: Limits, t: State, marks: set<nat>)
    requires GcFree(ops) && t == Reboot(Run(ops, limits)) && marks == Marks(ops + [DoReboot], limits)
    ensures GcFree(ops + [DoReboot]) && t == Run(ops + [DoReboot], limits) && |t.journal| in marks
  {
    hide Rebuild, Ordered, Reboot, MarksAfter;
    var again := ops + [DoReboot];
    assert Front(again) == ops && Last(again) == DoReboot;
    UncollectedRuns(ops, limits);
    BootOrdered(Run(ops, limits), Marks(ops, limits));
    BootMarks(Run(ops, limits), Marks(ops, limits));
  }

  lemma BootMarks(s: State, marks: set<nat>)
    requires Rebuild(s.ix, s.journal).Some?
    ensures |Reboot(s).journal| in MarksAfter(s, DoReboot, marks)
  {
  }

  lemma AllShown(s: State, marks: set<nat>)
    requires |s.journal| in marks
    ensures PointersHealed(s, marks) && TipsShown(s, marks) && FencesHealed(s.journal, marks)
  {
    forall i | 0 <= i < |s.journal|
      ensures Seen(marks, i)
    {
    }
  }

  lemma BlobsAreHeld(s: State, marks: set<nat>)
    requires Ordered(s, marks) && |s.journal| in marks
    ensures DeadBlobsHeld(s)
  {
    forall i | 0 <= i < |s.journal| && Dead(s.journal, s.journal[i]) && s.journal[i].row.sha.Some?
      ensures s.journal[i].row.sha.value in s.ix.blobs
    {
      var x := s.journal[i].row.sha.value;
      PrintedIsNamed(s.journal, x);
      assert NamesBlob(s.journal[i], x);
      assert PrintIn(s.ix.blobs, x) == ShownPrint(s.journal, s.journal, x, marks);
    }
  }

  lemma {:induction false} ShownIsNamed(lines: seq<Event>, all: seq<Event>, x: Sha, marks: set<nat>)
    ensures ShownPrint(lines, all, x, marks).Some? ==> exists i | 0 <= i < |lines| :: NamesBlob(lines[i], x)
  {
    PrintedIsNamed(lines, x);
    if lines != [] {
      ShownIsNamed(Front(lines), all, x, marks);
      assert lines[|lines| - 1] == Last(lines);
      assert forall i | 0 <= i < |lines| - 1 :: lines[i] == Front(lines)[i];
    }
  }

  /** Some commit that stands names the blob. */
  ghost predicate NamedAlive(lines: seq<Event>, x: Sha) {
    exists i | 0 <= i < |lines| :: Alive(lines, lines[i]) && NamesBlob(lines[i], x)
  }

  /** The last line to move the artifact's pointer was rolled back. */
  ghost predicate DeadTip(lines: seq<Event>, a: Id) {
    exists j: nat :: LastMoveAt(lines, a, j) && Dead(lines, lines[j])
  }

  lemma CountedIsAlive(s: State, x: Sha, marks: set<nat>)
    requires Ordered(s, marks)
    ensures RefCount(s.ix.versions, x) > 0 <==> NamedAlive(s.journal, x)
  {
    hide FaultTips, LiveFences, LivePrints, FaultMirror, ReplayLines, DeadPaired, SeqsAscend, LinesWhole, RowsTold,
      NamesTold, PointersTold;
    RefCountZero(s.ix.versions, x);
    if v :| v in s.ix.versions && s.ix.versions[v].sha == Some(x) {
      var i :| 0 <= i < |s.journal| && Alive(s.journal, s.journal[i]) && s.journal[i].version == v;
      assert FaultLine(s.journal, s.ix, s.journal[i]);
      assert s.ix.versions[v].Journaled().sha == s.journal[i].row.sha;
    }
    if i :| 0 <= i < |s.journal| && Alive(s.journal, s.journal[i]) && NamesBlob(s.journal[i], x) {
      assert FaultLine(s.journal, s.ix, s.journal[i]);
      assert s.ix.versions[s.journal[i].version].Journaled().sha == Some(x);
    }
  }

  lemma OrphansAreDead(s: State, marks: set<nat>)
    requires Ordered(s, marks) && |s.journal| in marks
    ensures NoOrphans(s.ix) <==>
            forall i, x: Sha | 0 <= i < |s.journal| && NamesBlob(s.journal[i], x) :: NamedAlive(s.journal, x)
  {
    OrderedMeans(s, marks);
    PrintsLive(s, marks);
    hide Ordered, FaultTips, LiveFences, FaultLines, RowsLinked, RefCount, NamedAlive, ShownPrint;
    forall x: Sha
      ensures x in s.ix.blobs <==> exists i | 0 <= i < |s.journal| :: NamesBlob(s.journal[i], x)
      ensures RefCount(s.ix.versions, x) > 0 <==> NamedAlive(s.journal, x)
    {
      CountedIsAlive(s, x, marks);
      BlobIsNamed(s, x, marks);
    }
  }

  lemma PrintsLive(s: State, marks: set<nat>)
    requires Ordered(s, marks)
    ensures LivePrints(s.ix.blobs, s.journal, marks)
  {
  }

  lemma BlobIsNamed(s: State, x: Sha, marks: set<nat>)
    requires LivePrints(s.ix.blobs, s.journal, marks) && |s.journal| in marks
    ensures x in s.ix.blobs <==> exists i | 0 <= i < |s.journal| :: NamesBlob(s.journal[i], x)
  {
    assert PrintIn(s.ix.blobs, x) == ShownPrint(s.journal, s.journal, x, marks);
    ShownIsNamed(s.journal, s.journal, x, marks);
    PrintedIsNamed(s.journal, x);
  }

  lemma SeenPointer(s: State, a: Id, marks: set<nat>)
    requires Ordered(s, marks) && |s.journal| in marks && a in s.ix.artifacts
    ensures PointerValid(s.ix, a) <==> !DeadTip(s.journal, a)
  {
    hide LiveFences, LivePrints, FaultMirror, ReplayLines, DeadPaired, SeqsAscend, LinesWhole, RowsTold, NamesTold,
      PointersTold, RowsLined, Sound, Minted;
    assert FaultTip(s.journal, s.ix, a, marks);
    if LastMove(s.journal, a).Some? {
      var j := LastMoveFound(s.journal, a);
      OneLastMove(s.journal, a, j);
      assert Seen(marks, j) && FaultLine(s.journal, s.ix, s.journal[j]);
      assert s.ix.artifacts[a].current == Target(s.journal[j]);
      if Alive(s.journal, s.journal[j]) {
        assert s.ix.versions[s.journal[j].version].Journaled().artifact == a;
        assert s.ix.versions[s.journal[j].version].Journaled().sha.Some?;
      }
    } else {
      NoLastMove(s.journal, a);
    }
  }

  /**
   * What the boot does not heal: behind it a pointer dangles exactly where a rolled-back line was the last to move it,
   * and a blob row has no version exactly where no commit that stands names the blob.
   */
  lemma BootDangles(ops: seq<Op>, limits: Limits, t: State)
    requires GcFree(ops) && t == Reboot(Run(ops, limits))
    ensures forall a | a in t.ix.artifacts :: PointerValid(t.ix, a) <==> !DeadTip(t.journal, a)
    ensures NoOrphans(t.ix) <==>
            forall i, x: Sha | 0 <= i < |t.journal| && NamesBlob(t.journal[i], x) :: NamedAlive(t.journal, x)
  {
    hide Run, Rebuild, Marks, Ordered, GcFree, DeadTip, NoOrphans, NamedAlive;
    var marks := Marks(ops + [DoReboot], limits);
    BootedRun(ops, limits, t, marks);
    UncollectedRuns(ops + [DoReboot], limits);
    OrphansAreDead(t, marks);
    forall a | a in t.ix.artifacts
      ensures PointerValid(t.ix, a) <==> !DeadTip(t.journal, a)
    {
      SeenPointer(t, a, marks);
    }
  }

  // ----- markers and restores whose audit throws -----------------------------------------------------------------

  /** A delete marker or a restore that got as far as its line, and where that line points. */
  ghost predicate PointsTo(s: State, op: Op, a: Id, to: Option<Id>) {
    || (op.DoDelete? && op.a == a && to == None && Delete(s, op.p, a, op.now).reply.Ok?)
    || (op.DoRestore? && op.a == a && to == Some(op.v) && Restore(s, a, op.v).reply.Ok?)
  }

  /** The audit behind the durable line throws: the tables roll back, and no compensation is written. */
  ghost function Unaudited(s: State, op: Op, limits: Limits): State {
    s.(journal := Step(s, op, limits).journal, next := Step(s, op, limits).next)
  }

  lemma PointsLine(s: State, op: Op, limits: Limits, a: Id, to: Option<Id>) returns (e: Event)
    requires PointsTo(s, op, a, to)
    ensures Step(s, op, limits).journal == s.journal + [e] && Points(e, a, to) && a in s.ix.artifacts
    ensures to.Some? ==> HasBytes(s.ix.versions, a)
  {
    hide Clashes, MaxSeq;
    e := if op.DoDelete? then DeleteMarker(s.next, a) else PointerMove(a, to);
  }

  /** Moving one pointer in the mirror breaks the agreement exactly if the live one was elsewhere. */
  lemma MovedMirror(f: Index, ix: Index, a: Id, to: Option<Id>)
    requires Mirrors(f, ix) && RefsCounted(ix) && a in ix.artifacts
    ensures Agrees(Recount(SetPointer(f, a, to)), ix) <==> (HasBytes(ix.versions, a) ==> ix.artifacts[a].current == to)
  {
    MirrorAgrees(f, ix);
    hide Mirrors, ByteRows, HasBytes, RefsCounted, RefCount;
    var g, h := Recount(f), Recount(SetPointer(f, a, to));
    assert h.blobs == g.blobs;
    forall b | b in ix.artifacts && HasBytes(ix.versions, b)
      ensures SameArtifact(h, ix, b) <==> (b == a ==> ix.artifacts[a].current == to)
    {
      assert SameArtifact(g, ix, b);
    }
  }

  /**
   * A delete marker or restore whose audit throws behind its line leaves the tables as they were, but the next boot
   * sets the pointer all the same; a rebuild from nothing agrees with the tables exactly when the artifact has no
   * bytes or its pointer was there already.
   */
  lemma AuditThrows(ops: seq<Op>, op: Op, limits: Limits, s: State, a: Id, to: Option<Id>)
    requires SafeRun(ops, limits) && s == Run(ops, limits) && PointsTo(s, op, a, to)
    ensures var t := Unaudited(s, op, limits);
            && a in t.ix.artifacts
            && Reboot(t) == t.(ix := SetPointer(t.ix, a, to))
            && (Rebuildable(t) <==> (HasBytes(t.ix.versions, a) ==> t.ix.artifacts[a].current == to))
  {
    hide Safe, Step, Mirrors, RefsCounted, Run, PointsTo, Agrees, HasBytes, RowsLinked, RowsUnique, NamesUnique,
      PointersValid;
    SafeRuns(ops, limits);
    SafeMeans(s.ix, s.journal, s.next);
    var e := PointsLine(s, op, limits, a, to);
    PointerReplayed(s.ix, s.journal, a, to, e);
    ReplayAppend(EMPTY, s.journal, e);
    MovedMirror(ReplayLines(EMPTY, s.journal).value, s.ix, a, to);
  }
}
