/**
 * Runs that boot and crash between collections: without I/O faults the journal rebuilds the live tables exactly when
 * since the last boot that came up nothing with bytes was purged, and a boot brings what was purged back or throws
 * (apps/drive/src/index.ts, the boot; storage/gc.ts, gcPhase2; storage/maintenance.ts, rebuildIndex).
 */
module DriveRestarts {
  import opened Prelude
  import opened DriveIndex
  import opened DriveMachine
  import opened DriveReplay
  import opened DriveSafety
  import opened DriveRuns
  import opened DriveLive
  import opened DriveFencing
  import opened DriveFacts
  import opened DriveAlways
  import opened DriveFaults
  import opened DriveBoots
  import opened DriveTokens
  import opened DrivePurge
  import opened DriveRevival
  import opened DriveRestoring

  // ----- a crash in the middle of an operation: the boot's effect, then its first line's -------------------------

  /** A row some session may commit next. */
  ghost predicate Committable(s: State, u: Id, row: VersionRow, name: string) {
    && u in s.uploads && Claims(s.uploads[u], LineOf(s.next, row, name))
    && SessionNames(s.uploads[u], row.artifact, row.ticket, name)
    && row.sha.Some? && row.Journaled() == row && row.seqNo == MaxSeq(s.ix.versions, row.artifact) + 1
    && row.artifact in s.ix.artifacts && !Clashes(s.ix.versions, row) && !Stale(s.ix.fences, row.ticket, row.fence)
  }

  /** The first line an interrupted operation may have journaled. */
  ghost predicate FirstLine(s: State, next: Id, e: Event) {
    match e
    case VersionCommitted(v, row, name) => v == s.next && next == v + 1 && exists u :: Committable(s, u, row, name)
    case DeleteMarker(v, a) => v == s.next && next == v + 1 && a in s.ix.artifacts
    case PointerMove(a, to) =>
      && next == s.next && a in s.ix.artifacts && to.Some? && to.value in s.ix.versions
      && s.ix.versions[to.value].artifact == a && !s.ix.versions[to.value].IsMarker()
    case Aborted(v) => v == s.next && next == v + 1
    case _ => false
  }

  lemma FirstLineIs(s: State, inner: Op, limits: Limits)
    requires Interruptible(inner)
    ensures var t := Step(s, inner, limits);
            && s.journal <= t.journal && s.next <= t.next
            && (|t.journal| > |s.journal| ==> FirstLine(s, t.next, t.journal[|s.journal|]))
  {
    StepGrows(s, inner, limits);
    hide Commit, Clashes, MaxSeq, Committable;
    if inner.DoCommit?
      && Commit(s, inner.p, inner.u, inner.mat, inner.now, limits, inner.fault).after.journal != s.journal {
      CommitIsTxn(s, inner.p, inner.u, inner.mat, inner.now, limits, inner.fault);
      FirstCommitLine(s, inner.u, inner.mat, inner.now, inner.fault);
    }
  }

  lemma FirstCommitLine(s: State, u: Id, mat: Material, now: nat, fault: Fault)
    requires u in s.uploads && CommitTxn(s, u, mat, now, fault).after.journal != s.journal
    ensures var t := CommitTxn(s, u, mat, now, fault).after;
            && t.next == s.next + 1
            && |t.journal| > |s.journal| && FirstLine(s, s.next + 1, t.journal[|s.journal|])
  {
    hide CommitTxn, Clashes, MaxSeq;
    CommitFirstLine(s, u, mat, now, fault);
    CommitEffect(s, u, mat, now, fault);
    var row := NewRow(s.ix, s.uploads[u], mat, now);
    if !Clashes(s.ix.versions, row) && row.artifact in s.ix.artifacts {
      JournaledClashes(s.ix.versions, row);
      assert Committable(s, u, row.Journaled(), s.uploads[u].name);
    }
  }

  lemma JournaledClashes(versions: map<Id, VersionRow>, row: VersionRow)
    ensures Clashes(versions, row.Journaled()) <==> Clashes(versions, row)
  {
  }

  /** Two blob tables that differ in refcounts at most. */
  ghost predicate SameBlobs(f: map<Sha, BlobRow>, g: map<Sha, BlobRow>) {
    && (forall x :: x in f <==> x in g)
    && (forall x | x in f :: f[x].size == g[x].size && f[x].createdAt == g[x].createdAt)
  }

  ghost predicate SameButCounts(f: Index, g: Index) {
    f.versions == g.versions && f.artifacts == g.artifacts && f.fences == g.fences && SameBlobs(f.blobs, g.blobs)
  }

  lemma CountsOnly(f: Index, g: Index)
    ensures Recount(f) == Recount(g) <==> SameButCounts(f, g)
  {
    hide RefCount;
    if Recount(f) == Recount(g) {
      forall x: Sha
        ensures x in f.blobs <==> x in g.blobs
        ensures x in f.blobs ==> f.blobs[x].size == g.blobs[x].size && f.blobs[x].createdAt == g.blobs[x].createdAt
      {
        assert x in f.blobs <==> x in Recount(f).blobs;
        assert x in f.blobs ==> Recount(f).blobs[x] == Recount(g).blobs[x];
      }
    }
    if SameButCounts(f, g) {
      assert Recount(f).blobs == Recount(g).blobs;
    }
  }

  /** Refcounts make no difference to a line that purges nothing. */
  lemma NextSameCounts(f: Index, g: Index, e: Event)
    requires SameButCounts(f, g) && !e.GcPurge?
    ensures ApplyEvent(f, e).Some? <==> ApplyEvent(g, e).Some?
    ensures ApplyEvent(f, e).Some? ==> SameButCounts(ApplyEvent(f, e).value, ApplyEvent(g, e).value)
  {
    hide RefCount, Clashes, SameBlobs, AdoptParents, Promote;
    if e.VersionCommitted? {
      var a, b := AdoptParents(f, e.row, e.logicalName), AdoptParents(g, e.row, e.logicalName);
      AdoptSameCounts(f, g, e.row, e.logicalName);
      PromoteSameCounts(a, b, e.version, e.row);
      PromoteSameCounts(a.(versions := a.versions[e.version := e.row.Journaled()]),
                        b.(versions := b.versions[e.version := e.row.Journaled()]), e.version, e.row);
    }
  }

  lemma AdoptSameCounts(f: Index, g: Index, row: VersionRow, name: string)
    requires SameButCounts(f, g)
    ensures SameButCounts(AdoptParents(f, row, name), AdoptParents(g, row, name))
    ensures AdoptParents(f, row, name).versions == f.versions
  {
    hide NameTaken;
  }

  lemma PromoteSameCounts(f: Index, g: Index, v: Id, row: VersionRow)
    requires SameButCounts(f, g)
    ensures SameButCounts(Promote(f, v, row), Promote(g, v, row))
  {
    hide RaiseFence, SameBlobs;
  }

  /** Booting over a crashed operation's line is booting first and replaying the line then. */
  lemma BootsThenReplays(ix: Index, lines: seq<Event>, e: Event)
    requires Rebuild(ix, lines + [e]).Some? && !e.GcPurge?
    ensures Rebuild(ix, lines).Some?
    ensures var r := Rebuild(ix, lines).value;
            Rebuild(r, lines) == Some(r) ==> Rebuild(r, lines + [e]) == Rebuild(ix, lines + [e])
  {
    hide ApplyEvent, ReplayLines, Recount;
    ReplayAppend(ix, lines, e);
    var f := ReplayLines(ix, lines).value;
    var r := Recount(f);
    ReplayAppend(r, lines, e);
    if Rebuild(r, lines) == Some(r) {
      var g := ReplayLines(r, lines).value;
      CountsOnly(f, g);
      NextSameCounts(f, g, e);
      if ApplyEvent(f, e).Some? {
        CountsOnly(ApplyEvent(f, e).value, ApplyEvent(g, e).value);
      }
    }
  }

  /** Nothing the journal committed is missing. */
  ghost predicate Complete(s: State) {
    Facts(s) && Recorded(s) && Fenced(s) && NothingForgotten(s.ix, s.journal)
  }

  lemma CompleteHolds(s: State)
    requires Complete(s)
    ensures PurgeFree(s.journal) && LinesHold(s.journal, s.ix) && TipsHold(s.journal, s.ix) && Consistent(s.ix)
  {
    RememberedSucceeds(s);
    RememberedHolds(s);
    hide Facts, Recorded, Fenced, NothingForgotten;
  }

  /** What a first line does to complete tables, before the rest of the invariant is looked at. */
  ghost predicate Lined(m: State, c: State, e: Event) {
    && c.journal == m.journal + [e] && c.uploads == m.uploads && m.next <= c.next
    && FirstLine(m, c.next, e) && Rebuild(m.ix, c.journal) == Some(c.ix)
  }

  lemma LinedCommit(m: State, c: State, e: Event)
    requires Complete(m) && Lined(m, c, e) && e.VersionCommitted?
    ensures exists u :: Committable(m, u, e.row, e.logicalName)
    ensures e == LineOf(m.next, e.row, e.logicalName)
    ensures Admitted(m.ix, m.next, e.row, e.logicalName) && c.ix == CommitIndex(m.ix, m.next, e.row)
  {
    CompleteHolds(m);
    CompleteAdmits(m, c.next, e);
    hide Complete, LinesHold, TipsHold, Consistent, Fits, Committable, Rebuild, PurgeFree, CommitIndex;
    CommitReplayed(m.ix, m.journal, m.next, e.row, e.logicalName);
    assert e.row.Journaled() == e.row by { JournaledRow(m, c.next, e); }
  }

  lemma JournaledRow(m: State, next: Id, e: Event)
    requires FirstLine(m, next, e) && e.VersionCommitted?
    ensures e.row.Journaled() == e.row && e == LineOf(m.next, e.row, e.logicalName)
  {
  }

  lemma CompleteAdmits(m: State, next: Id, e: Event)
    requires Complete(m) && FirstLine(m, next, e) && e.VersionCommitted?
    ensures Admitted(m.ix, m.next, e.row, e.logicalName)
  {
    hide Chronicle, Trail, Clashes, Consistent, Fenced, NothingForgotten, Facts, PurgesForget, PurgesNamed;
    var u :| Committable(m, u, e.row, e.logicalName);
    assert NamesArtifact(m.ix.artifacts, m.uploads[u].artifact, m.uploads[u].ticket, m.uploads[u].name);
  }

  lemma CommitRecorded(m: State, c: State, e: Event)
    requires Complete(m) && Lined(m, c, e) && e.VersionCommitted?
    ensures Recorded(c) && NothingForgotten(c.ix, c.journal)
  {
    LinedCommit(m, c, e);
    FactsMinted(m);
    CompleteHolds(m);
    CommittedLive(m, c, e);
    CommittedChronicle(m, c, e);
    LinesWholeHere(m);
    hide Facts, Live, Chronicle, Fenced, Consistent, LinesHold, JournalMinted, Committable, Rebuild;
    CommitTrail(m, m.next, e.row, e.logicalName);
    CommittedRest(m, c, e);
    RecordedParts(c);
  }

  lemma CommittedLive(m: State, c: State, e: Event)
    requires Live(m) && c.uploads == m.uploads && c.next == m.next + 1 && e.VersionCommitted?
    requires Admitted(m.ix, m.next, e.row, e.logicalName) && c.ix == CommitIndex(m.ix, m.next, e.row)
    ensures Live(c)
  {
    CommitConsistent(m.ix, m.next, e.row, e.logicalName);
    CommitKeepsNames(m.ix, m.next, e.row);
    CommitMarkersKeyed(m.ix, m.next, e.row);
    CommitNoOrphans(m.ix, m.next, e.row);
    hide Consistent, MarkersKeyed, NoOrphans, CommitIndex, Admitted;
    SessionsStay(m, c);
  }

  lemma CommitNoOrphans(ix: Index, v: Id, row: VersionRow)
    requires NoOrphans(ix) && row.sha.Some?
    ensures NoOrphans(CommitIndex(ix, v, row))
    ensures CommitIndex(ix, v, row).versions == ix.versions[v := row]
  {
    hide RaiseFence;
  }

  lemma SessionsStay(m: State, c: State)
    requires SessionsLinked(m) && IdsMinted(m) && SessionsUnique(m.uploads) && c.uploads == m.uploads && m.next < c.next
    requires c.ix.artifacts.Keys == m.ix.artifacts.Keys && forall v | v in c.ix.versions ::
             v in m.ix.versions || v == m.next
    requires forall a | a in m.ix.artifacts ::
               c.ix.artifacts[a].ticket == m.ix.artifacts[a].ticket && c.ix.artifacts[a].name == m.ix.artifacts[a].name
    ensures SessionsLinked(c) && IdsMinted(c) && SessionsUnique(c.uploads)
  {
  }

  lemma CommittedChronicle(m: State, c: State, e: Event)
    requires Live(m) && Chronicle(m) && Lined(m, c, e) && e.VersionCommitted?
             && c.ix == CommitIndex(m.ix, m.next, e.row)
    ensures Chronicle(c)
  {
    hide Live, Chronicle, Clashes, Rebuild, Stale, MaxSeq, CommitIndex, LineOf;
    var u :| Committable(m, u, e.row, e.logicalName);
    JournaledRow(m, c.next, e);
    AddedChronicle(m, c, u, e.row, e.logicalName);
  }

  lemma CommittedRest(m: State, c: State, e: Event)
    requires LinesMinted(m) && PurgeFree(m.journal) && OpsTyped(m.ix.versions) && NothingForgotten(m.ix, m.journal)
    requires Lined(m, c, e) && e.VersionCommitted? && c.ix == CommitIndex(m.ix, m.next, e.row) && e.row.op.ClientOp?
    requires IdsMinted(m)
    ensures LinesMinted(c) && PurgeFree(c.journal) && OpsTyped(c.ix.versions) && NothingForgotten(c.ix, c.journal)
  {
    hide Rebuild, AddRef, RaiseFence, Clashes, MaxSeq;
  }

  /** The remaining parts do not look at the tables' rows. */
  lemma RecordedParts(c: State)
    requires Live(c) && Chronicle(c) && Trail(c.ix, c.journal) && LinesMinted(c) && PurgeFree(c.journal)
             && OpsTyped(c.ix.versions)
    ensures Recorded(c)
  {
    hide Live, Chronicle, Trail, LinesMinted, OpsTyped;
  }

  lemma PointedRecorded(m: State, c: State, e: Event)
    requires Complete(m) && Lined(m, c, e) && (e.DeleteMarker? || e.PointerMove?)
    ensures Recorded(c) && NothingForgotten(c.ix, c.journal)
  {
    var to := Target(e);
    CompleteHolds(m);
    PointedIs(m, c, e);
    PointedLive(m, c, e);
    PointedKnown(m, c, e);
    hide Facts, Live, Chronicle, Fenced, Consistent, LinesHold, Rebuild, TipsHold, Trail;
    PointedTrail(m.ix, m.journal, e.artifact, to, e);
    PurgeFreeAppend(m.journal, [e]);
    PointedRest(m, c, e);
    RecordedParts(c);
  }

  lemma PointedIs(m: State, c: State, e: Event)
    requires Consistent(m.ix) && LinesHold(m.journal, m.ix) && TipsHold(m.journal, m.ix)
    requires Lined(m, c, e) && (e.DeleteMarker? || e.PointerMove?)
    ensures c.ix == SetPointer(m.ix, e.artifact, Target(e)) && Points(e, e.artifact, Target(e))
  {
    hide Consistent, LinesHold, TipsHold, Rebuild;
    PointerReplayed(m.ix, m.journal, e.artifact, Target(e), e);
  }

  lemma PointedLive(m: State, c: State, e: Event)
    requires Live(m) && Lined(m, c, e) && (e.DeleteMarker? || e.PointerMove?)
             && c.ix == SetPointer(m.ix, e.artifact, Target(e))
    ensures Live(c)
  {
    hide Consistent, Rebuild;
    PointerConsistent(m.ix, e.artifact, Target(e), e);
  }

  lemma PointedKnown(m: State, c: State, e: Event)
    requires Chronicle(m) && Lined(m, c, e) && (e.DeleteMarker? || e.PointerMove?)
    requires c.ix == SetPointer(m.ix, e.artifact, Target(e))
    ensures Chronicle(c)
    ensures e.PointerMove? ==> HasLine(m.journal, e.to.value)
  {
    hide Rebuild, LinesApart, NoneAborted, LinesKnown;
    assert e.PointerMove? ==> HasLine(m.journal, e.to.value);
    hide Chronicle, RowsJournaled;
    QuietStep(m, c, [e]);
  }

  lemma PointedRest(m: State, c: State, e: Event)
    requires LinesMinted(m) && OpsTyped(m.ix.versions) && NothingForgotten(m.ix, m.journal) && IdsMinted(m)
    requires Lined(m, c, e) && (e.DeleteMarker? || e.PointerMove?) && c.ix == SetPointer(m.ix, e.artifact, Target(e))
    ensures LinesMinted(c) && OpsTyped(c.ix.versions) && NothingForgotten(c.ix, c.journal)
  {
    hide Rebuild;
  }

  /** A compensation for a version that never was, or no line at all. */
  lemma SpentRecorded(m: State, c: State, more: seq<Event>)
    requires Complete(m) && c.journal == m.journal + more && c.uploads == m.uploads && c.ix == m.ix
    requires (more == [] && m.next <= c.next) || (more == [Aborted(m.next)] && c.next == m.next + 1)
    ensures Recorded(c) && NothingForgotten(c.ix, c.journal)
  {
    CompleteHolds(m);
    hide Facts, Consistent, Fenced, LinesHold, TipsHold;
    assert m.next !in m.ix.versions;
    if more == [] {
      assert c.journal == m.journal;
    } else {
      hide Chronicle, Live;
      FailedTrail(m, m.next);
    }
    hide Trail;
    QuietStep(m, c, more);
    PurgeFreeAppend(m.journal, more);
    hide Chronicle;
    SpentRest(m, c, more);
    RecordedParts(c);
  }

  lemma SpentRest(m: State, c: State, more: seq<Event>)
    requires Live(m) && LinesMinted(m) && NothingForgotten(m.ix, m.journal)
    requires c.journal == m.journal + more && c.uploads == m.uploads && c.ix == m.ix
    requires (more == [] && m.next <= c.next) || (more == [Aborted(m.next)] && c.next == m.next + 1)
    ensures Live(c) && LinesMinted(c) && NothingForgotten(c.ix, c.journal)
  {
    hide Consistent;
  }

  lemma LinedRecorded(m: State, c: State, e: Event)
    requires Complete(m) && Lined(m, c, e)
    ensures Recorded(c) && NothingForgotten(c.ix, c.journal)
  {
    if e.VersionCommitted? {
      CommitRecorded(m, c, e);
    } else if e.Aborted? {
      CompleteHolds(m);
      hide Complete, Recorded, NothingForgotten, Rebuild, LinesHold, TipsHold, Consistent;
      SpentFixed(m, m.next);
      SpentRecorded(m, c, [e]);
    } else {
      PointedRecorded(m, c, e);
    }
  }

  lemma SpentFixed(m: State, v: Id)
    requires Consistent(m.ix) && LinesHold(m.journal, m.ix) && TipsHold(m.journal, m.ix) && v !in m.ix.versions
    ensures Rebuild(m.ix, m.journal + [Aborted(v)]) == Some(m.ix)
  {
    CompensationTips(m.ix, m.journal, v);
    hide Consistent, TipsHold, Rebuild;
    assert LinesHold(m.journal + [Aborted(v)], m.ix);
    ReplayOverLive(m.ix, m.journal + [Aborted(v)]);
  }

  // ----- the crash itself ----------------------------------------------------------------------------------------

  lemma AwakeFits(s: State, m: State, next: Id, e: Event)
    requires Awake(s, m) && FirstLine(s, next, e)
    ensures FirstLine(m, next, e)
  {
    if e.VersionCommitted? {
      var u :| Committable(s, u, e.row, e.logicalName);
      AwakeCommittable(s, m, u, e.row, e.logicalName);
    }
    hide Facts, Recorded, RefCount, Tip, CommittedTo, HasLine, Committable, NothingForgotten;
  }

  /** What came back belongs to artifacts that were gone, under sessions of theirs. */
  lemma RevivedElsewhere(s: State, m: State, w: Id, a: Id)
    requires Awake(s, m) && w in m.ix.versions && w !in s.ix.versions && a in s.ix.artifacts
    ensures m.ix.versions[w].artifact != a
    ensures exists u | u in s.uploads ::
            Claims(s.uploads[u], LineOf(w, m.ix.versions[w], "")) && s.uploads[u].artifact != a
  {
    RevivedRow(s, m, w);
    LinesWholeHere(s);
    hide Live, Trail, Sound, NamesTold, PointersTold, RefCount, Tip, CommittedTo, LinesApart, NoneAborted;
    var i :| 0 <= i < |s.journal| && IsLineOf(s.journal[i], w);
    assert m.ix.versions[w].Journaled() == m.journal[i].row;
    assert Whole(s.ix, s.journal[i]) && LineKnown(s, s.journal[i]);
    var u :| u in s.uploads && Claims(s.uploads[u], s.journal[i]);
    assert Claims(s.uploads[u], LineOf(w, m.ix.versions[w], ""));
  }

  lemma AwakeCommittable(s: State, m: State, u: Id, row: VersionRow, name: string)
    requires Awake(s, m) && Committable(s, u, row, name)
    ensures Committable(m, u, row, name)
  {
    AwakeUnique(s);
    forall w | w in m.ix.versions && w !in s.ix.versions
      ensures m.ix.versions[w].artifact != row.artifact
      ensures !(m.ix.versions[w].createdBy == row.createdBy && m.ix.versions[w].op == row.op)
    {
      RevivedElsewhere(s, m, w, row.artifact);
      var x :| x in s.uploads && Claims(s.uploads[x], LineOf(w, m.ix.versions[w], ""))
        && s.uploads[x].artifact != row.artifact;
    }
    hide Facts, Recorded, RefCount, Tip, CommittedTo, HasLine, NothingForgotten;
    ChainKept(s.ix.versions, m.ix.versions, row);
  }

  /** Rows of other chains and operations leave numbering and uniqueness of this one alone. */
  lemma ChainKept(before: map<Id, VersionRow>, after: map<Id, VersionRow>, row: VersionRow)
    requires forall w | w in before :: w in after && after[w] == before[w]
    requires forall w | w in after && w !in before ::
               after[w].artifact != row.artifact && !(after[w].createdBy == row.createdBy && after[w].op == row.op)
    ensures MaxSeq(after, row.artifact) == MaxSeq(before, row.artifact)
    ensures Clashes(after, row) <==> Clashes(before, row)
  {
  }

  lemma AwakeUnique(s: State)
    requires Recorded(s)
    ensures SessionsUnique(s.uploads)
  {
    hide Consistent, Chronicle, Trail;
  }

  /** A crash whose boot comes up leaves everything recorded and nothing missing. */
  lemma CrashRecorded(s: State, inner: Op, moved: bool, limits: Limits)
    requires Facts(s) && Recorded(s) && Fenced(s) && Interruptible(inner)
    requires Rebuild(s.ix, Step(s, DoCrash(inner, moved), limits).journal).Some?
    ensures var c := Step(s, DoCrash(inner, moved), limits); Recorded(c) && NothingForgotten(c.ix, c.journal)
  {
    hide Facts, Recorded, Fenced, FirstLine, Step, Rebuild;
    FirstLineIs(s, inner, limits);
    CrashBooted(s, inner, moved, limits);
    var t, c := Step(s, inner, limits), Step(s, DoCrash(inner, moved), limits);
    var more := Survivors(s, t);
    if more == [] {
      assert c.journal == s.journal;
      BootComplete(s);
      hide Reboot, Complete;
      SpentRecorded(Reboot(s), c, []);
    } else {
      CrashLined(s, c, more[0]);
    }
  }

  lemma BootComplete(s: State)
    requires Facts(s) && Recorded(s) && Fenced(s) && Rebuild(s.ix, s.journal).Some?
    ensures Complete(Reboot(s)) && Reboot(s) == s.(ix := Rebuild(s.ix, s.journal).value)
    ensures Awake(s, Reboot(s))
  {
    BootRecorded(s);
    BootFacts(s);
    StartsItself(s);
    hide Facts, Recorded, Rebuild, TokensSorted, HighWaterIsMax;
    hide NothingForgotten, StartsFrom, PurgeFree, Tip, CommittedTo, HasLine;
    SucceedsIff(s, s.ix);
  }

  lemma CrashLined(s: State, c: State, e: Event)
    requires Facts(s) && Recorded(s) && Fenced(s) && FirstLine(s, c.next, e) && s.next <= c.next
    requires c.journal == s.journal + [e] && c.uploads == s.uploads && Rebuild(s.ix, c.journal) == Some(c.ix)
    ensures Recorded(c) && NothingForgotten(c.ix, c.journal)
  {
    NoPurgeFirst(s, c.next, e);
    hide Facts, Recorded, Fenced, Rebuild, FirstLine;
    BootsThenReplays(s.ix, s.journal, e);
    BootComplete(s);
    var m := Reboot(s);
    hide Reboot, Awake;
    CompleteFixed(m);
    AwakeFits(s, m, c.next, e);
    LinedRecorded(m, c, e);
  }

  lemma NoPurgeFirst(s: State, next: Id, e: Event)
    requires FirstLine(s, next, e)
    ensures !e.GcPurge?
  {
  }

  lemma CompleteFixed(m: State)
    requires Complete(m)
    ensures Rebuild(m.ix, m.journal) == Some(m.ix)
  {
    hide Facts, Recorded, Fenced, Rebuild, NothingForgotten;
    FixedIff(m);
  }

  // ----- runs ----------------------------------------------------------------------------------------------------

  /** No commit is rolled back behind its line, and a crash is followed by a boot that comes up. */
  ghost predicate FaultFreeOp(s: State, op: Op, limits: Limits) {
    NotRolledBack(s, op, limits) && CrashSurvived(s, op, limits)
  }

  /** Boots, collections and survived crashes in any order, and no I/O faults. */
  ghost predicate FaultFreeRun(ops: seq<Op>, limits: Limits) {
    ops == [] || (FaultFreeRun(Front(ops), limits) && FaultFreeOp(Run(Front(ops), limits), Last(ops), limits))
  }

  /** Once a committed line was rolled back, no boot replays it. */
  ghost predicate HealthyOp(s: State, op: Op, limits: Limits) {
    BootFree(op) || (NoneAborted(s.journal) && CrashSurvived(s, op, limits))
  }

  /** I/O faults as well, but then no boot any more. */
  ghost predicate HealthyRun(ops: seq<Op>, limits: Limits) {
    ops == [] || (HealthyRun(Front(ops), limits) && HealthyOp(Run(Front(ops), limits), Last(ops), limits))
  }

  lemma {:induction false} HealthySurvives(ops: seq<Op>, limits: Limits)
    requires HealthyRun(ops, limits)
    ensures Survives(ops, limits)
  {
    if ops != [] {
      HealthySurvives(Front(ops), limits);
      hide Step, Rebuild, NoneAborted;
    }
  }

  lemma UnabortedFenced(ops: seq<Op>, limits: Limits, s: State)
    requires HealthyRun(ops, limits) && s == Run(ops, limits) && NoneAborted(s.journal)
    ensures Facts(s) && Fenced(s)
  {
    hide Run, Facts, Fenced;
    HealthySurvives(ops, limits);
    FactsRuns(ops, limits);
    FencedUnlessRolledBack(ops, limits, s);
  }

  lemma RolledBackShows(s: State, p: Principal, u: Id, mat: Material, now: nat, limits: Limits, fault: Fault)
    requires Commit(s, p, u, mat, now, limits, fault).reply == Err(IoFailure)
    ensures !NoneAborted(Commit(s, p, u, mat, now, limits, fault).after.journal)
  {
    hide Clashes, MaxSeq, CommitIndex;
    var t, j := Commit(s, p, u, mat, now, limits, fault).after.journal, |s.journal|;
    assert t[j].VersionCommitted? && t[j + 1] == Aborted(t[j].version);
  }

  lemma NoneAbortedBefore(lines: seq<Event>, after: seq<Event>)
    requires lines <= after && NoneAborted(after)
    ensures NoneAborted(lines)
  {
    forall i, k | 0 <= i < |lines| && 0 <= k < |lines| && lines[i].VersionCommitted?
      ensures lines[k] != Aborted(lines[i].version)
    {
      assert after[k] == lines[k] && after[i] == lines[i];
    }
  }

  /** What a healthy run keeps. */
  ghost predicate Sane(s: State) {
    Live(s) && (NoneAborted(s.journal) ==> Recorded(s))
  }

  lemma BootFreeSane(s: State, op: Op, limits: Limits)
    requires Facts(s) && Sane(s) && BootFree(op)
    ensures Sane(Step(s, op, limits))
  {
    StepLive(s, op, limits);
    StepGrows(s, op, limits);
    FactsMinted(s);
    hide Facts, Live, Recorded, NoneAborted, JournalMinted, Step, Commit;
    var t := Step(s, op, limits);
    if NoneAborted(t.journal) {
      NoneAbortedBefore(s.journal, t.journal);
      if op.DoCommit? && Commit(s, op.p, op.u, op.mat, op.now, limits, op.fault).reply == Err(IoFailure) {
        CommitStepIs(s, op, limits);
        RolledBackShows(s, op.p, op.u, op.mat, op.now, limits, op.fault);
        assert false;
      }
      StepRecorded(s, op, limits);
    }
  }

  lemma CommitStepIs(s: State, op: Op, limits: Limits)
    requires op.DoCommit?
    ensures Step(s, op, limits) == Commit(s, op.p, op.u, op.mat, op.now, limits, op.fault).after
  {
    hide Commit;
  }

  lemma BootSane(s: State, op: Op, limits: Limits)
    requires Facts(s) && Recorded(s) && Fenced(s) && !BootFree(op) && CrashSurvived(s, op, limits)
    ensures Recorded(Step(s, op, limits))
  {
    hide Facts, Recorded, Fenced, Rebuild;
    if op.DoReboot? {
      hide Reboot;
      BootRecorded(s);
    } else if Interruptible(op.inner) {
      hide Step;
      CrashRecorded(s, op.inner, op.moved, limits);
    }
  }

  lemma RecordedLive(s: State)
    requires Recorded(s)
    ensures Live(s) && NoneAborted(s.journal)
  {
    hide Live, Trail;
  }

  lemma {:induction false} HealthyRuns(ops: seq<Op>, limits: Limits)
    requires HealthyRun(ops, limits)
    ensures Facts(Run(ops, limits)) && Sane(Run(ops, limits))
  {
    FactsRuns(ops, limits);
    if ops == [] {
      NothingRecorded();
    } else {
      hide Facts, Live, Recorded, NoneAborted, Step, Fenced;
      var before := Run(Front(ops), limits);
      HealthyRuns(Front(ops), limits);
      if BootFree(Last(ops)) {
        BootFreeSane(before, Last(ops), limits);
      } else {
        UnabortedFenced(Front(ops), limits, before);
        BootSane(before, Last(ops), limits);
        RecordedLive(Step(before, Last(ops), limits));
      }
    }
  }

  lemma NothingRecorded()
    ensures Recorded(INIT)
  {
  }

  /**
   * In every healthy run each pointer resolves to a byte-holding version of its artifact and no blob outlives its rows.
   */
  lemma PointersResolve(ops: seq<Op>, limits: Limits, s: State)
    requires HealthyRun(ops, limits) && s == Run(ops, limits)
    ensures PointersValid(s.ix) && NoOrphans(s.ix)
  {
    hide Run, Facts, Recorded;
    HealthyRuns(ops, limits);
  }

  /**
   * The dry run sees no blob to reclaim in any healthy run: a blob becomes unreferenced only when the purge has dropped
   * the rows naming it, which the dry run does not do.
   */
  lemma PreviewBlind(ops: seq<Op>, limits: Limits, s: State)
    requires HealthyRun(ops, limits) && s == Run(ops, limits)
    ensures Unreferenced(s.ix) == {}
    ensures forall x | x in Unreferenced(PurgeChains(s.ix, MarkedChains(s.ix))) ::
              && x in s.ix.blobs
              && forall v | v in s.ix.versions && s.ix.versions[v].sha == Some(x) ::
                  s.ix.versions[v].artifact in MarkedChains(s.ix)
  {
    hide Run, Facts, Recorded;
    HealthyRuns(ops, limits);
    OnlyMarkedName(s);
  }

  // ----- no I/O faults: when the journal rebuilds the tables -----------------------------------------------------

  lemma {:induction false} FaultFreeHealthy(ops: seq<Op>, limits: Limits)
    requires FaultFreeRun(ops, limits)
    ensures HealthyRun(ops, limits) && Recorded(Run(ops, limits))
  {
    if ops == [] {
      NothingRecorded();
    } else {
      hide Recorded, NoneAborted, Step, NotRolledBack, Facts, Live, Fenced;
      var before := Run(Front(ops), limits);
      FaultFreeHealthy(Front(ops), limits);
      RecordedLive(before);
      HealthyRuns(Front(ops), limits);
      if BootFree(Last(ops)) {
        FactsMinted(before);
        StepRecorded(before, Last(ops), limits);
      } else {
        UnabortedFenced(Front(ops), limits, before);
        BootSane(before, Last(ops), limits);
      }
    }
  }

  lemma FaultFreeRuns(ops: seq<Op>, limits: Limits, s: State)
    requires FaultFreeRun(ops, limits) && s == Run(ops, limits)
    ensures Facts(s) && Recorded(s) && Fenced(s)
  {
    hide Run, Facts, Recorded, Fenced, NoneAborted;
    FaultFreeHealthy(ops, limits);
    RecordedLive(s);
    UnabortedFenced(ops, limits, s);
  }

  /** Since the last boot that came up, no collection met a delete-marked artifact that held bytes. */
  ghost predicate Remembered(ops: seq<Op>, limits: Limits) {
    ops == [] ||
    var s := Run(Front(ops), limits);
    match Last(ops)
    case DoCollect(order) => Remembered(Front(ops), limits) && SafeOp(s, Last(ops), limits)
    case DoReboot => Rebuild(s.ix, s.journal).Some?
    case DoCrash(inner, _) => Interruptible(inner) || Remembered(Front(ops), limits)
    case _ => Remembered(Front(ops), limits)
  }

  lemma ForgottenIff(s: State)
    requires JournalMinted(s)
    ensures NothingForgotten(s.ix, s.journal) <==> forall v :: !Forgotten(s, v)
  {
    if NothingForgotten(s.ix, s.journal) {
      forall v
        ensures !Forgotten(s, v)
      {
        if HasLine(s.journal, v) {
          var i :| 0 <= i < |s.journal| && IsLineOf(s.journal[i], v);
          assert s.journal[i].version in s.ix.versions;
        }
      }
    }
    if forall v :: !Forgotten(s, v) {
      forall i | 0 <= i < |s.journal| && s.journal[i].VersionCommitted?
        ensures s.journal[i].version in s.ix.versions
      {
        assert About(s.journal[i], s.journal[i].version) && IsLineOf(s.journal[i], s.journal[i].version);
        assert !Forgotten(s, s.journal[i].version);
      }
    }
  }

  /** A forgotten version stays forgotten until a boot. */
  lemma StaysForgotten(s: State, op: Op, limits: Limits)
    requires Facts(s) && BootFree(op) && NothingForgotten(Step(s, op, limits).ix, Step(s, op, limits).journal)
    ensures NothingForgotten(s.ix, s.journal)
  {
    FactsMinted(s);
    StepFacts(s, op, limits);
    FactsMinted(Step(s, op, limits));
    hide Facts, Step, NothingForgotten, Forgotten;
    ForgottenIff(s);
    ForgottenIff(Step(s, op, limits));
    forall v
      ensures !Forgotten(s, v)
    {
      if Forgotten(s, v) {
        StillForgotten(s, op, limits, v);
      }
    }
  }

  lemma CommitRemembers(s: State, p: Principal, u: Id, mat: Material, now: nat, limits: Limits, fault: Fault)
    requires NothingForgotten(s.ix, s.journal) && Commit(s, p, u, mat, now, limits, fault).reply != Err(IoFailure)
    ensures var t := Commit(s, p, u, mat, now, limits, fault).after; NothingForgotten(t.ix, t.journal)
  {
    hide Clashes, Commit, CommitTxn, MaxSeq;
    if Commit(s, p, u, mat, now, limits, fault).after != s {
      CommitIsTxn(s, p, u, mat, now, limits, fault);
      CommitEffect(s, u, mat, now, fault);
      FailedCommitLine(s, u, mat, now, fault);
    }
  }

  lemma StepRemembers(s: State, op: Op, limits: Limits)
    requires NothingForgotten(s.ix, s.journal) && BootFree(op) && !op.DoCollect? && NotRolledBack(s, op, limits)
    ensures NothingForgotten(Step(s, op, limits).ix, Step(s, op, limits).journal)
  {
    hide Commit, Clashes, MaxSeq;
    match op {
      case DoCommit(p, u, mat, now, fault) => CommitRemembers(s, p, u, mat, now, limits, fault);
      case DoDelete(_, _, _) =>
      case DoRestore(_, _) =>
      case DoRegister(_, _, _, _, _) => hide Looked, WellFormed, NormalizeFence, PendingOf;
      case _ =>
        hide Step;
        SessionStep(s, op, limits);
    }
  }

  lemma CollectRemembers(s: State, order: seq<Sha>)
    requires Facts(s) && Recorded(s) && NothingForgotten(s.ix, s.journal)
    ensures NothingForgotten(Collect(s, order).ix, Collect(s, order).journal) <==> Byteless(s.ix, MarkedChains(s.ix))
  {
    if Byteless(s.ix, MarkedChains(s.ix)) {
      BytelessRemembers(s, order);
    } else {
      hide Facts, Live, Chronicle, MarkedChains, Byteless, Collect, Trail;
      var v := PurgeForgets(s, order);
      var i :| 0 <= i < |Collect(s, order).journal| && IsLineOf(Collect(s, order).journal[i], v);
      assert Collect(s, order).journal[i].version !in Collect(s, order).ix.versions;
    }
  }

  lemma BytelessRemembers(s: State, order: seq<Sha>)
    requires Recorded(s) && NothingForgotten(s.ix, s.journal) && Byteless(s.ix, MarkedChains(s.ix))
    ensures NothingForgotten(Collect(s, order).ix, Collect(s, order).journal)
  {
    LinesWholeHere(s);
    hide Live, Trail, LinesApart, NoneAborted, RefCount, MarkedChains;
    var t := Collect(s, order);
    forall i | 0 <= i < |t.journal| && t.journal[i].VersionCommitted?
      ensures t.journal[i].version in t.ix.versions
    {
      var e := s.journal[i];
      assert e == t.journal[i] && LineKnown(s, e) && s.ix.versions[e.version].Journaled().sha.Some?;
      assert HasBytes(s.ix.versions, s.ix.versions[e.version].artifact);
    }
  }

  lemma OpRemembered(s: State, op: Op, limits: Limits)
    requires Facts(s) && Recorded(s) && BootFree(op) && NotRolledBack(s, op, limits)
    ensures NothingForgotten(Step(s, op, limits).ix, Step(s, op, limits).journal)
            <==> NothingForgotten(s.ix, s.journal) && (op.DoCollect? ==> SafeOp(s, op, limits))
  {
    hide Facts, Recorded, NothingForgotten, Commit, Byteless, Collect;
    if NothingForgotten(Step(s, op, limits).ix, Step(s, op, limits).journal) {
      hide Step;
      StaysForgotten(s, op, limits);
    }
    if NothingForgotten(s.ix, s.journal) {
      if op.DoCollect? {
        CollectRemembers(s, op.order);
      } else {
        hide Step;
        StepRemembers(s, op, limits);
      }
    }
  }

  lemma BootRemembered(s: State, op: Op, limits: Limits)
    requires Facts(s) && Recorded(s) && Fenced(s) && !BootFree(op) && CrashSurvived(s, op, limits)
    ensures NothingForgotten(Step(s, op, limits).ix, Step(s, op, limits).journal)
            <==> if op.DoReboot? then Rebuild(s.ix, s.journal).Some?
                 else Interruptible(op.inner) || NothingForgotten(s.ix, s.journal)
  {
    hide Facts, Recorded, Fenced, NothingForgotten, Rebuild;
    if op.DoReboot? {
      BootRecorded(s);
      FixedIff(s);
    } else if Interruptible(op.inner) {
      hide Step;
      CrashRecorded(s, op.inner, op.moved, limits);
    }
  }

  lemma {:induction false} RememberedIff(ops: seq<Op>, limits: Limits)
    requires FaultFreeRun(ops, limits)
    ensures var s := Run(ops, limits); NothingForgotten(s.ix, s.journal) <==> Remembered(ops, limits)
  {
    if ops != [] {
      hide NothingForgotten, Step, NotRolledBack, Facts, Recorded, Fenced, Rebuild, SafeOp;
      var before := Run(Front(ops), limits);
      RememberedIff(Front(ops), limits);
      FaultFreeRuns(Front(ops), limits, before);
      if BootFree(Last(ops)) {
        OpRemembered(before, Last(ops), limits);
      } else {
        BootRemembered(before, Last(ops), limits);
      }
    }
  }

  /**
   * In every run without I/O faults, boots and survived crashes included, the journal rebuilds the live tables, and a
   * boot over them is a no-op, exactly when since the last boot that came up every collection found only delete-marked
   * artifacts that never held bytes.
   */
  lemma RebuildableIff(ops: seq<Op>, limits: Limits, s: State)
    requires FaultFreeRun(ops, limits) && s == Run(ops, limits)
    ensures Rebuildable(s) <==> Remembered(ops, limits)
    ensures Rebuild(s.ix, s.journal) == Some(s.ix) <==> Remembered(ops, limits)
  {
    hide Run, Facts, Recorded, Fenced, NothingForgotten, Rebuildable, Rebuild, Remembered;
    FaultFreeRuns(ops, limits, s);
    RememberedIff(ops, limits);
    RebuildableIffRemembered(s);
    FixedIff(s);
  }

  /** While nothing boots, that means in the whole run. */
  lemma {:induction false} RememberedIsSafe(ops: seq<Op>, limits: Limits)
    requires FaultFreeRun(ops, limits) && BootFreeRun(ops)
    ensures Remembered(ops, limits) <==> SafeRun(ops, limits)
  {
    if ops != [] {
      hide Step, Byteless, Commit;
      assert BootFreeRun(Front(ops)) && BootFree(Last(ops));
      RememberedIsSafe(Front(ops), limits);
    }
  }

  /**
   * In runs of one process lifetime without I/O faults the journal rebuilds the live tables exactly when every
   * collection found only delete-marked artifacts that never held bytes.
   */
  lemma RebuildableIffNothingPurged(ops: seq<Op>, limits: Limits, s: State)
    requires FaultFreeRun(ops, limits) && BootFreeRun(ops) && s == Run(ops, limits)
    ensures Rebuildable(s) <==> SafeRun(ops, limits)
    ensures Rebuild(s.ix, s.journal) == Some(s.ix) <==> SafeRun(ops, limits)
  {
    hide Run, Rebuildable, Rebuild, Remembered;
    RebuildableIff(ops, limits, s);
    RememberedIsSafe(ops, limits);
  }

  /**
   * A boot comes up exactly when no blob was purged and no missing artifact's name is taken; then it brings every
   * missing version and its artifact back, at the pointer the journal last gave it, and changes nothing else, and the
   * journal rebuilds the tables again.  A boot that throws changes nothing.
   */
  lemma BootOutcome(ops: seq<Op>, limits: Limits, s: State)
    requires FaultFreeRun(ops, limits) && s == Run(ops, limits)
    ensures Rebuild(s.ix, s.journal).Some? <==> PurgeFree(s.journal) && NamesClear(s.ix, s.journal)
    ensures Rebuild(s.ix, s.journal).Some? ==> Revived(Reboot(s).ix, s) && Rebuildable(Reboot(s))
    ensures Rebuild(s.ix, s.journal).None? ==> Reboot(s) == s
  {
    hide Run, Facts, Recorded, Fenced, NothingForgotten, Rebuildable, Rebuild, PurgeFree, NamesClear, Revived;
    FaultFreeRuns(ops, limits, s);
    StartsItself(s);
    hide StartsFrom;
    SucceedsIff(s, s.ix);
    BootRecorded(s);
    if Rebuild(s.ix, s.journal).Some? {
      BootComplete(s);
      hide Awake, Reboot;
      RebuildableIffRemembered(Reboot(s));
    }
  }

  // ----- half a collection, then a boot --------------------------------------------------------------------------

  /** What some per-chain and per-blob transactions of a collection leave of the tables. */
  function HalfCollected(ix: Index, purged: set<Id>, gone: set<Sha>): Index {
    var g := PurgeChains(ix, purged);
    g.(blobs := g.blobs - gone)
  }

  lemma HalfIsPart(s: State, purged: set<Id>, gone: set<Sha>)
    requires Facts(s) && Recorded(s) && gone <= Unreferenced(PurgeChains(s.ix, purged))
    ensures StartsFrom(s, HalfCollected(s.ix, purged, gone))
  {
    FactsLinked(s);
    hide Facts, Recorded, RefCount;
    var g := PurgeChains(s.ix, purged);
    forall v | v in g.versions && g.versions[v].sha.Some?
      ensures g.versions[v].sha.value !in gone
    {
      RefCountZero(g.versions, g.versions[v].sha.value);
    }
  }

  /**
   * A boot over a collection that ended before its first purge line, after any of its chains, brings back all the
   * rows with bytes, their artifacts and pointers, and the blobs with their refcounts.
   */
  lemma HalfCollectionUndone(ops: seq<Op>, limits: Limits, s: State, purged: set<Id>)
    requires FaultFreeRun(ops, limits) && Remembered(ops, limits) && s == Run(ops, limits)
    ensures var r := Rebuild(PurgeChains(s.ix, purged), s.journal); r.Some? && Restored(r.value, s.ix)
  {
    hide Run, Facts, Recorded, Fenced, NothingForgotten, Remembered, Rebuild, StartsFrom, PurgeChains, Restored;
    FaultFreeRuns(ops, limits, s);
    RememberedIff(ops, limits);
    HalfIsPart(s, purged, {});
    var g := PurgeChains(s.ix, purged);
    assert g.(blobs := g.blobs - {}) == g;
    PartRestored(s, g);
  }

  /**
   * So does one behind a whole collection that found no blob to reclaim: every purged version can be restored then.
   */
  lemma CollectionUndone(ops: seq<Op>, limits: Limits, s: State, t: State)
    requires FaultFreeRun(ops, limits) && Remembered(ops, limits) && s == Run(ops, limits) && t == Collect(s, [])
    ensures Rebuild(t.ix, t.journal).Some? && Restored(Reboot(t).ix, s.ix)
    ensures forall v | v in s.ix.versions && !s.ix.versions[v].IsMarker() ::
              Restore(Reboot(t), s.ix.versions[v].artifact, v).reply.Ok?
  {
    hide Run, Remembered, Rebuild, PurgeChains, Restored;
    HalfCollectionUndone(ops, limits, s, MarkedChains(s.ix));
    NothingCollected(s);
    var g := PurgeChains(s.ix, MarkedChains(s.ix));
    assert Elements<Sha>([]) == {} && g.(blobs := g.blobs - {}) == g;
    RefcountAccounting(ops, limits, s);
    hide Restore, Reboot, RowsLinked;
    forall v | v in s.ix.versions && !s.ix.versions[v].IsMarker()
      ensures Restore(Reboot(t), s.ix.versions[v].artifact, v).reply.Ok?
    {
      RestoredRestores(s, Reboot(t), v);
    }
  }

  lemma RestoredRestores(s: State, t: State, v: Id)
    requires Restored(t.ix, s.ix) && RowsLinked(s.ix) && v in s.ix.versions && !s.ix.versions[v].IsMarker()
    ensures Restore(t, s.ix.versions[v].artifact, v).reply.Ok?
  {
    var a := s.ix.versions[v].artifact;
    assert HasBytes(s.ix.versions, a) && SameArtifact(t.ix, s.ix, a);
    assert v in ByteRows(s.ix.versions) && v in ByteRows(t.ix.versions);
    assert ByteRows(t.ix.versions)[v] == ByteRows(s.ix.versions)[v];
    assert t.ix.versions[v].Journaled().artifact == s.ix.versions[v].Journaled().artifact;
  }

  /** A purge of rows with bytes that a boot has undone: the run is not safe, and the journal rebuilds its tables. */
  lemma BootForgives(ops: seq<Op>, limits: Limits, s: State, again: seq<Op>)
    requires FaultFreeRun(ops, limits) && Remembered(ops, limits) && s == Run(ops, limits)
    requires Lists([], Unreferenced(PurgeChains(s.ix, MarkedChains(s.ix)))) && !Byteless(s.ix, MarkedChains(s.ix))
    requires again == ops + [DoCollect([])] + [DoReboot]
    ensures FaultFreeRun(again, limits) && !SafeRun(again, limits) && Rebuildable(Run(again, limits))
  {
    hide Rebuild, PurgeChains, Unreferenced, Byteless, Rebuildable, Collect;
    var mid := ops + [DoCollect([])];
    assert Front(mid) == ops && Last(mid) == DoCollect([]) && Front(again) == mid && Last(again) == DoReboot;
    CollectionUndone(ops, limits, s, Collect(s, []));
    RebuildableIff(again, limits, Run(again, limits));
  }

  lemma PurgeLinesApart(s: State, ix: Index, order: seq<Sha>)
    requires LinesApart(s.journal) && NoneAborted(s.journal) && Startable(ix, s.journal)
    ensures var lines := s.journal + PurgeLines(order); LinesApart(lines) && NoneAborted(lines) && Startable(ix, lines)
  {
    hide ShasLinked;
    var lines := s.journal + PurgeLines(order);
    forall v | v in ix.versions && !ix.versions[v].IsMarker()
      ensures HasLine(lines, v)
    {
      HasLineAppend(s.journal, PurgeLines(order), v);
    }
  }

  /** Behind its first purge line no boot comes up, wherever the collection ended and whatever is appended. */
  lemma HalfReclaimedStuck(ops: seq<Op>, limits: Limits, s: State, purged: set<Id>, gone: set<Sha>, order: seq<Sha>,
                           more: seq<Event>)
    requires FaultFreeRun(ops, limits) && s == Run(ops, limits)
    requires gone <= Unreferenced(PurgeChains(s.ix, purged)) && order != [] && order[0] in s.ix.blobs
    ensures Rebuild(HalfCollected(s.ix, purged, gone), s.journal + PurgeLines(order) + more) == None
    ensures Rebuild(EMPTY, s.journal + PurgeLines(order) + more) == None
  {
    hide Run, Facts, Live, Trail, Fenced, Rebuild, HalfCollected, StartsFrom, LinesApart, NoneAborted, LinesKnown,
      Startable;
    hide PurgeChains, Unreferenced, PurgesForget, PurgesNamed;
    FaultFreeRuns(ops, limits, s);
    HalfIsPart(s, purged, gone);
    StartsItself(s);
    FirstPurgeSticks(s, HalfCollected(s.ix, purged, gone), order, more);
    FirstPurgeSticks(s, EMPTY, order, more);
  }

  lemma NamedInJournal(s: State, ix: Index, x: Sha)
    requires StartsFrom(s, ix) && x in s.ix.blobs
    ensures NamedBefore(s.journal, |s.journal|, x)
  {
    hide Facts, Live, Chronicle, PartOf, Trail;
    LiveBlobNamed(s, x);
  }

  lemma FirstPurgeSticks(s: State, ix: Index, order: seq<Sha>, more: seq<Event>)
    requires StartsFrom(s, ix) && order != [] && order[0] in s.ix.blobs
    ensures Rebuild(ix, s.journal + PurgeLines(order) + more) == None
  {
    hide StartsFrom, Startable, LinesApart, NoneAborted, Rebuild;
    PartStarts(s, ix);
    PurgeLinesApart(s, ix, order);
    NamedInJournal(s, ix, order[0]);
    var lines := s.journal + PurgeLines(order);
    var i :| 0 <= i < |s.journal| && s.journal[i].VersionCommitted? && s.journal[i].row.sha == Some(order[0]);
    assert lines[i] == s.journal[i] && lines[|s.journal|] == GcPurge(order[0]);
    PurgeLineStops(ix, lines, i, |s.journal|, more);
  }

  /**
   * From the first collection that reclaims a blob on, in runs without I/O faults, no replay of the journal succeeds,
   * whatever is appended: not from an empty index, and not over the live one, so every later boot throws.
   */
  lemma PurgeStopsRebuild(ops: seq<Op>, limits: Limits, s: State, x: Sha, more: seq<Event>)
    requires FaultFreeRun(ops, limits) && s == Run(ops, limits) && GcPurge(x) in s.journal
    ensures Rebuild(EMPTY, s.journal + more) == None
    ensures Rebuild(s.ix, s.journal + more) == None
  {
    hide Run, Facts, Recorded, Fenced, Rebuild, StartsFrom;
    FaultFreeRuns(ops, limits, s);
    StartsItself(s);
    assert !PurgeFree(s.journal);
    PurgeSticks(s, EMPTY, more);
    PurgeSticks(s, s.ix, more);
  }

  /** A collection that reclaims anything leaves such a journal. */
  lemma ReclaimingPurges(ops: seq<Op>, order: seq<Sha>, limits: Limits, s: State, more: seq<Event>)
    requires FaultFreeRun(ops, limits) && s == Run(ops, limits)
    requires Lists(order, Unreferenced(PurgeChains(s.ix, MarkedChains(s.ix)))) && order != []
    ensures Rebuild(EMPTY, Collect(s, order).journal + more) == None
    ensures Rebuild(Collect(s, order).ix, Collect(s, order).journal + more) == None
  {
    hide Rebuild, Run;
    assert order[0] in Elements(order);
    HalfReclaimedStuck(ops, limits, s, MarkedChains(s.ix), Elements(order), order, more);
  }
}
