/**
 * What holds over every run whatever, crashes, boots, I/O faults and collections included: refcounts and links are
 * exact, the UNIQUE constraints hold, and what a row or a line once said of a version or an artifact stays said
 * (apps/drive/src/storage/store.ts, gc.ts, maintenance.ts).
 */
module DriveFacts {
  import opened Prelude
  import opened DriveIndex
  import opened DriveMachine
  import opened DriveReplay
  import opened DriveSafety
  import opened DriveRuns
  import opened DriveLive

  /** No collection purges anything. */
  ghost predicate GcFree(ops: seq<Op>) {
    forall i | 0 <= i < |ops| :: !ops[i].DoCollect?
  }

  // ----- the journal only grows, by lines about ids minted on the way -------------------------------------------

  /** The version a line commits or takes back. */
  predicate About(e: Event, v: Id) { (e.VersionCommitted? || e.Aborted?) && e.version == v }

  ghost predicate Grows(s: State, t: State) {
    && s.next <= t.next && s.journal <= t.journal
    && forall i, v: Id | |s.journal| <= i < |t.journal| && About(t.journal[i], v) :: s.next <= v < t.next
  }

  ghost predicate JournalMinted(s: State) {
    forall i, v: Id | 0 <= i < |s.journal| && About(s.journal[i], v) :: v < s.next
  }

  lemma CommitGrows(s: State, p: Principal, u: Id, mat: Material, now: nat, limits: Limits, fault: Fault)
    ensures Grows(s, Commit(s, p, u, mat, now, limits, fault).after)
  {
    hide Clashes, Commit, CommitTxn;
    if Commit(s, p, u, mat, now, limits, fault).after != s {
      CommitIsTxn(s, p, u, mat, now, limits, fault);
      CommitEffect(s, u, mat, now, fault);
      if CommitTxn(s, u, mat, now, fault).reply.Err? {
        FailedCommitLines(s, u, mat, now, fault);
      }
    }
  }

  lemma LinedGrows(s: State, op: Op, limits: Limits)
    requires op.DoDelete? || op.DoRestore? || op.DoCollect?
    ensures Grows(s, Step(s, op, limits))
  {
    hide Commit, Clashes, MaxSeq, Rebuild, PurgeChains, Interrupted, Register, Abort, Expire, Looked;
  }

  lemma PlainGrows(s: State, op: Op, limits: Limits)
    requires !op.DoCommit? && !op.DoCrash? && !op.DoDelete? && !op.DoRestore? && !op.DoCollect?
    ensures Grows(s, Step(s, op, limits))
  {
    hide Commit, Delete, Restore, Collect, Rebuild, Interrupted, Looked, WellFormed, NormalizeFence;
  }

  lemma CrashGrows(s: State, inner: State, moved: bool)
    requires Grows(s, inner)
    ensures Grows(s, Crashed(s, inner, moved))
  {
    hide Rebuild;
  }

  lemma StepGrows(s: State, op: Op, limits: Limits)
    ensures Grows(s, Step(s, op, limits))
    decreases op
  {
    hide Grows, Commit, Crashed;
    match op {
      case DoCommit(p, u, mat, now, fault) => CommitGrows(s, p, u, mat, now, limits, fault);
      case DoCrash(inner, moved) =>
        if Interruptible(inner) {
          StepGrows(s, inner, limits);
          CrashGrows(s, Step(s, inner, limits), moved);
        } else {
          StillGrown(s);
        }
      case _ =>
        if op.DoDelete? || op.DoRestore? || op.DoCollect? {
          LinedGrows(s, op, limits);
        } else {
          PlainGrows(s, op, limits);
        }
    }
  }

  lemma StillGrown(s: State)
    ensures Grows(s, s)
  {
  }

  /** What a crash leaves but for the disk: a boot of the tables as they were over the lines that survived. */
  lemma CrashIsBoot(s: State, inner: State, moved: bool)
    ensures var t, b := Crashed(s, inner, moved), Reboot(Torn(s, inner));
            t.ix == b.ix && t.uploads == b.uploads && t.journal == b.journal && t.next == b.next && t.ledger == b.ledger
  {
    hide Rebuild;
  }

  lemma CrashIs(s: State, inner: Op, moved: bool, limits: Limits)
    requires Interruptible(inner)
    ensures Step(s, DoCrash(inner, moved), limits) == Crashed(s, Step(s, inner, limits), moved)
  {
    hide Crashed, Commit, Delete, Restore;
  }

  /** The lines that survive a crash: at most the first one the operation added. */
  function Survivors(s: State, inner: State): seq<Event> {
    if |inner.journal| > |s.journal| then [inner.journal[|s.journal|]] else []
  }

  lemma TornLines(s: State, inner: State)
    requires s.journal <= inner.journal
    ensures Torn(s, inner) == s.(journal := s.journal + Survivors(s, inner), next := inner.next)
  {
    var kept := inner.journal[..Min(|s.journal| + 1, |inner.journal|)];
    assert kept == s.journal + Survivors(s, inner);
  }

  /** A crash and the boot behind it leave sessions and ledger alone. */
  lemma CrashSessions(s: State, inner: State, moved: bool)
    ensures Crashed(s, inner, moved).uploads == s.uploads && Crashed(s, inner, moved).ledger == s.ledger
  {
    hide Rebuild;
  }

  // ----- while the process lives, rows are append-only -------------------------------------------------------------

  /** Rows are append-only: whatever survives is unchanged, whatever is new has a new id. */
  ghost predicate RowsAppendOnly(s: State, t: State) {
    && s.next <= t.next
    && forall v | v in t.ix.versions && v < s.next :: v in s.ix.versions && t.ix.versions[v] == s.ix.versions[v]
  }

  lemma CommitAppends(s: State, p: Principal, u: Id, mat: Material, now: nat, limits: Limits, fault: Fault)
    ensures RowsAppendOnly(s, Commit(s, p, u, mat, now, limits, fault).after)
  {
    hide Clashes, Commit, CommitTxn;
    if Commit(s, p, u, mat, now, limits, fault).after != s {
      CommitIsTxn(s, p, u, mat, now, limits, fault);
      CommitEffect(s, u, mat, now, fault);
    }
  }

  lemma PlainAppends(s: State, op: Op, limits: Limits)
    requires BootFree(op) && !op.DoCommit? && !op.DoDelete?
    ensures RowsAppendOnly(s, Step(s, op, limits))
  {
    hide Commit, Delete, Reboot, Interrupted;
  }

  lemma DeleteAppends(s: State, p: Principal, a: Id, now: nat)
    ensures RowsAppendOnly(s, Delete(s, p, a, now).after)
  {
    hide Clashes;
  }

  lemma StepAppends(s: State, op: Op, limits: Limits)
    requires BootFree(op)
    ensures RowsAppendOnly(s, Step(s, op, limits))
  {
    hide Commit, Delete, RowsAppendOnly;
    match op {
      case DoCommit(p, u, mat, now, fault) => CommitAppends(s, p, u, mat, now, limits, fault);
      case DoDelete(p, a, now) => DeleteAppends(s, p, a, now);
      case _ => PlainAppends(s, op, limits);
    }
  }

  // ----- the index alone: links, keys and counts -----------------------------------------------------------------

  /** Everything the schema and the refcounts promise; only pointers may dangle. */
  ghost predicate Sound(ix: Index) {
    RowsLinked(ix) && RowsUnique(ix.versions) && NamesUnique(ix.artifacts) && RefsCounted(ix)
  }

  /** What every committed line carries. */
  ghost predicate LineWhole(e: Event) {
    e.VersionCommitted? ==> e.row.sha.Some? && e.row.op.ClientOp? && e.row.seqNo >= 1 && e.row.Journaled() == e.row
  }

  ghost predicate LinesWhole(lines: seq<Event>) {
    forall i | 0 <= i < |lines| :: LineWhole(lines[i])
  }

  // ----- what one replayed line does to each table ---------------------------------------------------------------

  /** What one line does to the version rows. */
  lemma NextRows(f: Index, e: Event)
    requires ApplyEvent(f, e).Some?
    ensures ApplyEvent(f, e).value.versions ==
            if e.VersionCommitted? && e.version !in f.versions && !Clashes(f.versions, e.row) then
              f.versions[e.version := e.row.Journaled()]
            else if e.Aborted? then f.versions - {e.version}
            else f.versions
  {
    hide Clashes, NameTaken, CurrentSeq, RaiseFence, RefCount;
  }

  lemma NextNames(f: Index, e: Event)
    requires ApplyEvent(f, e).Some?
    ensures var g := ApplyEvent(f, e).value;
            && (forall a | a in f.artifacts ::
                  && a in g.artifacts
                  && g.artifacts[a].ticket == f.artifacts[a].ticket && g.artifacts[a].name == f.artifacts[a].name)
            && (forall a | a in g.artifacts && a !in f.artifacts ::
                  && e.VersionCommitted? && e.row.artifact == a && !NameTaken(f.artifacts, e.row.ticket, e.logicalName)
                  && g.artifacts[a].ticket == e.row.ticket && g.artifacts[a].name == e.logicalName)
  {
    if e.VersionCommitted? {
      NextCommitNames(f, e);
    }
  }

  lemma NextCommitNames(f: Index, e: Event)
    requires e.VersionCommitted? && ApplyEvent(f, e).Some?
    ensures var g := ApplyEvent(f, e).value;
            && (forall a | a in f.artifacts ::
                  && a in g.artifacts
                  && g.artifacts[a].ticket == f.artifacts[a].ticket && g.artifacts[a].name == f.artifacts[a].name)
            && (forall a | a in g.artifacts && a !in f.artifacts ::
                  && e.row.artifact == a && !NameTaken(f.artifacts, e.row.ticket, e.logicalName)
                  && g.artifacts[a].ticket == e.row.ticket && g.artifacts[a].name == e.logicalName)
  {
    hide Clashes, NameTaken, CurrentSeq, RaiseFence, RefCount;
  }

  /** A pointer stays, or goes where the line that moves it says. */
  lemma NextPointer(f: Index, e: Event)
    requires ApplyEvent(f, e).Some?
    ensures var g := ApplyEvent(f, e).value;
            forall a | a in g.artifacts ::
              || g.artifacts[a].current == (if a in f.artifacts then f.artifacts[a].current else None)
              || (Moves(e, a) && g.artifacts[a].current == Target(e))
  {
    hide Clashes, NameTaken, CurrentSeq, RaiseFence, RefCount;
  }

  lemma ApplyKeys(f: Index, e: Event)
    requires RowsUnique(f.versions) && NamesUnique(f.artifacts) && ApplyEvent(f, e).Some?
    ensures RowsUnique(ApplyEvent(f, e).value.versions) && NamesUnique(ApplyEvent(f, e).value.artifacts)
  {
    NextRows(f, e);
    NextNames(f, e);
    hide ApplyEvent;
  }

  lemma ApplyLinks(f: Index, e: Event)
    requires RowsLinked(f) && LineWhole(e) && ApplyEvent(f, e).Some?
    ensures RowsLinked(ApplyEvent(f, e).value)
  {
    if e.VersionCommitted? {
      CommitLineLinks(f, e);
    } else if e.GcPurge? {
      RefCountZero(f.versions, e.sha);
    }
  }

  lemma CommitLineLinks(f: Index, e: Event)
    requires RowsLinked(f) && LineWhole(e) && e.VersionCommitted? && ApplyEvent(f, e).Some?
    ensures RowsLinked(ApplyEvent(f, e).value)
  {
    hide RaiseFence, CurrentSeq, Clashes, NameTaken;
  }

  lemma {:induction false} ReplaySound(ix: Index, lines: seq<Event>)
    requires RowsLinked(ix) && RowsUnique(ix.versions) && NamesUnique(ix.artifacts) && LinesWhole(lines)
    requires ReplayLines(ix, lines).Some?
    ensures var f := ReplayLines(ix, lines).value; RowsLinked(f) && RowsUnique(f.versions) && NamesUnique(f.artifacts)
  {
    if lines != [] {
      hide ApplyEvent, RowsLinked, RowsUnique, NamesUnique;
      ReplaySound(ix, Front(lines));
      ApplyKeys(ReplayLines(ix, Front(lines)).value, Last(lines));
      ApplyLinks(ReplayLines(ix, Front(lines)).value, Last(lines));
    }
  }

  lemma RecountSound(f: Index)
    requires RowsLinked(f) && RowsUnique(f.versions) && NamesUnique(f.artifacts)
    ensures Sound(Recount(f))
  {
    hide RefCount;
  }

  lemma RebuildSound(ix: Index, lines: seq<Event>)
    requires Sound(ix) && LinesWhole(lines) && Rebuild(ix, lines).Some?
    ensures Sound(Rebuild(ix, lines).value)
  {
    hide ReplayLines, RowsLinked, RowsUnique, NamesUnique, RefsCounted, Recount;
    ReplaySound(ix, lines);
    RecountSound(ReplayLines(ix, lines).value);
  }

  lemma CommitLinks(ix: Index, v: Id, row: VersionRow, name: string)
    requires RowsLinked(ix) && Fits(ix, v, row, name)
    ensures RowsLinked(CommitIndex(ix, v, row))
  {
    hide Clashes, RaiseFence;
  }

  lemma CommitSound(ix: Index, v: Id, row: VersionRow, name: string)
    requires Sound(ix) && Fits(ix, v, row, name)
    ensures Sound(CommitIndex(ix, v, row))
  {
    CommitCounts(ix, v, row, name);
    CommitLinks(ix, v, row, name);
    hide RefCount, RaiseFence, RowsLinked, RefsCounted, AddRef, MaxSeq;
  }

  lemma MarkerSound(ix: Index, v: Id, row: VersionRow)
    requires Sound(ix) && v !in ix.versions && row.IsMarker() && row.artifact in ix.artifacts && row.seqNo >= 1
    requires !Clashes(ix.versions, row)
    ensures Sound(AddMarker(ix, v, row))
  {
    forall s | s in ix.blobs
      ensures ix.blobs[s].refcount == RefCount(ix.versions[v := row], s)
    {
      RefCountInsert(ix.versions, v, row, s);
    }
    hide RefCount;
  }

  lemma PointerSound(ix: Index, a: Id, to: Option<Id>)
    requires Sound(ix)
    ensures Sound(SetPointer(ix, a, to))
  {
    hide RefCount;
  }

  lemma ArtifactSound(ix: Index, a: Id, row: ArtifactRow)
    requires Sound(ix) && a !in ix.artifacts && !NameTaken(ix.artifacts, row.ticket, row.name)
    ensures Sound(AddArtifact(ix, a, row))
  {
    hide RefCount;
  }

  lemma PurgeSound(ix: Index, purged: set<Id>)
    requires Sound(ix)
    ensures Sound(PurgeChains(ix, purged))
  {
    hide RefCount;
  }

  lemma DropSound(ix: Index, gone: set<Sha>)
    requires Sound(ix) && gone <= Unreferenced(ix)
    ensures Sound(ix.(blobs := ix.blobs - gone))
  {
    forall v | v in ix.versions && ix.versions[v].sha.Some?
      ensures ix.versions[v].sha.value !in gone
    {
      RefCountZero(ix.versions, ix.versions[v].sha.value);
    }
  }
}
