/**
 * Disk safety: every version row with a hash resolves to a stored file with that hash, through dedup, garbage
 * collection, re-commits of purged content, I/O faults, boots, and every crash but one that falls between a commit's
 * journal line and its rename (apps/drive/src/storage/store.ts, commit; cas.ts; gc.ts).
 */
module DriveDisk {
  import opened Prelude
  import opened DriveIndex
  import opened DriveMachine
  import opened DriveReplay
  import opened DriveSafety
  import opened DriveRuns
  import opened DriveFencing
  import opened DriveLive
  import opened DriveFacts
  import opened DriveAlways
  import opened DriveFaults
  import opened DriveBoots
  import opened DriveRecords

  /** The operation itself, or the one a crash interrupts. */
  function Attempted(op: Op): Op { if op.DoCrash? then op.inner else op }

  /** The upload handler commits the hash and length of the very bytes it staged. */
  ghost predicate HonestOp(s: State, op: Op, hash: Bytes -> Sha) {
    var c := Attempted(op);
    c.DoCommit? && c.u in s.staging ==> c.mat.sha == hash(s.staging[c.u]) && c.mat.size == |s.staging[c.u]|
  }

  ghost predicate HonestRun(ops: seq<Op>, limits: Limits, hash: Bytes -> Sha) {
    ops == [] || (HonestRun(Front(ops), limits, hash) && HonestOp(Run(Front(ops), limits), Last(ops), hash))
  }

  /** If a crash kept the line of a commit, the file was in place by then. */
  ghost predicate FilePlaced(s: State, op: Op, limits: Limits) {
    var t := Step(s, op, limits);
    op.DoCrash? ==>
      forall i | |s.journal| <= i < |t.journal| && t.journal[i].VersionCommitted? && t.journal[i].row.sha.Some? ::
        t.journal[i].row.sha.value in t.disk
  }

  /** No crash of the run falls between a commit's line and its rename. */
  ghost predicate FilesPlaced(ops: seq<Op>, limits: Limits) {
    ops == [] || (FilesPlaced(Front(ops), limits) && FilePlaced(Run(Front(ops), limits), Last(ops), limits))
  }

  /** Every version row with a hash resolves to a stored file whose content has that hash. */
  ghost predicate DiskSafe(s: State, hash: Bytes -> Sha) {
    forall v | v in s.ix.versions && s.ix.versions[v].sha.Some? ::
      s.ix.versions[v].sha.value in s.disk && hash(s.disk[s.ix.versions[v].sha.value]) == s.ix.versions[v].sha.value
  }

  // ----- which lines still stand for a file ----------------------------------------------------------------------

  /** A later line takes the version back or purges its blob. */
  ghost predicate Lost(lines: seq<Event>, i: nat)
    requires i < |lines| && lines[i].VersionCommitted? && lines[i].row.sha.Some?
  {
    exists j | i < j < |lines| :: lines[j] == Aborted(lines[i].version) || lines[j] == GcPurge(lines[i].row.sha.value)
  }

  ghost predicate LinesBacked(lines: seq<Event>, disk: map<Sha, Bytes>) {
    forall i, x: Sha | 0 <= i < |lines| && NamesBlob(lines[i], x) && !Lost(lines, i) :: x in disk
  }

  ghost predicate RowsBacked(versions: map<Id, VersionRow>, disk: map<Sha, Bytes>) {
    forall v | v in versions && versions[v].sha.Some? :: versions[v].sha.value in disk
  }

  ghost predicate Backed(s: State, hash: Bytes -> Sha) {
    && (forall x | x in s.disk :: hash(s.disk[x]) == x)
    && RowsBacked(s.ix.versions, s.disk)
    && LinesBacked(s.journal, s.disk)
  }

  lemma LostStays(lines: seq<Event>, more: seq<Event>, i: nat)
    requires i < |lines| && lines[i].VersionCommitted? && lines[i].row.sha.Some? && Lost(lines, i)
    ensures (lines + more)[i] == lines[i] && Lost(lines + more, i)
  {
    var j :| i < j < |lines| && (lines[j] == Aborted(lines[i].version) || lines[j] == GcPurge(lines[i].row.sha.value));
    assert (lines + more)[j] == lines[j];
  }

  /** Lines appended while no file goes: each new commit has its file or is taken back. */
  lemma LinesStayBacked(lines: seq<Event>, more: seq<Event>, before: map<Sha, Bytes>, after: map<Sha, Bytes>)
    requires LinesBacked(lines, before) && before.Keys <= after.Keys
    requires forall i, x: Sha | |lines| <= i < |lines + more| && NamesBlob((lines + more)[i], x) ::
             x in after || Lost(lines + more, i)
    ensures LinesBacked(lines + more, after)
  {
    forall i, x: Sha | 0 <= i < |lines + more| && NamesBlob((lines + more)[i], x) && !Lost(lines + more, i)
      ensures x in after
    {
      if i < |lines| {
        assert NamesBlob(lines[i], x);
        if Lost(lines, i) {
          LostStays(lines, more, i);
        }
        assert x in before.Keys;
      }
    }
  }

  // ----- replays bring back only rows that lines stand for -------------------------------------------------------

  ghost predicate FromLine(lines: seq<Event>, row: VersionRow, w: Id) {
    exists i | 0 <= i < |lines| ::
      IsLineOf(lines[i], w) && lines[i].row.Journaled() == row && (row.sha.Some? ==> !Lost(lines, i))
  }

  ghost predicate RowBacked(f: Index, ix: Index, lines: seq<Event>, w: Id)
    requires w in f.versions
  {
    (w in ix.versions && f.versions[w] == ix.versions[w]) || FromLine(lines, f.versions[w], w)
  }

  lemma LostByLast(lines: seq<Event>, e: Event, i: nat)
    requires i < |lines| && lines[i].VersionCommitted? && lines[i].row.sha.Some? && !Lost(lines, i)
    requires e != Aborted(lines[i].version) && e != GcPurge(lines[i].row.sha.value)
    ensures (lines + [e])[i] == lines[i] && !Lost(lines + [e], i)
  {
    var after := lines + [e];
    assert forall j | 0 <= j < |after| :: after[j] == if j < |lines| then lines[j] else e;
  }

  lemma NextRowBacked(f: Index, ix: Index, lines: seq<Event>, e: Event, w: Id)
    requires RowsLinked(f) && ApplyEvent(f, e).Some? && w in ApplyEvent(f, e).value.versions
    requires forall v | v in f.versions :: RowBacked(f, ix, lines, v)
    ensures RowBacked(ApplyEvent(f, e).value, ix, lines + [e], w)
  {
    NextRows(f, e);
    PurgedIsUnnamed(f, e, w);
    hide ApplyEvent, Clashes, RowsLinked;
    var after := lines + [e];
    assert after[|lines|] == e;
    if w in f.versions {
      assert RowBacked(f, ix, lines, w);
      if i :| 0 <= i < |lines| && IsLineOf(lines[i], w) && lines[i].row.Journaled() == f.versions[w]
              && (f.versions[w].sha.Some? ==> !Lost(lines, i)) {
        assert after[i] == lines[i];
        if f.versions[w].sha.Some? {
          LostByLast(lines, e, i);
        }
      }
    }
  }

  /** A purge line that applies purges no blob a row names. */
  lemma PurgedIsUnnamed(f: Index, e: Event, w: Id)
    requires RowsLinked(f) && ApplyEvent(f, e).Some? && w in ApplyEvent(f, e).value.versions
    ensures w in f.versions && e.GcPurge? ==> f.versions[w].sha != Some(e.sha)
    ensures w in f.versions ==> e != Aborted(w)
  {
    hide Clashes, NameTaken, CurrentSeq, RaiseFence;
    if e.GcPurge? {
      RefCountZero(f.versions, e.sha);
    }
  }

  lemma {:induction false} ReplayBacked(ix: Index, lines: seq<Event>)
    requires RowsLinked(ix) && RowsUnique(ix.versions) && NamesUnique(ix.artifacts) && LinesWhole(lines)
    requires ReplayLines(ix, lines).Some?
    ensures forall w | w in ReplayLines(ix, lines).value.versions ::
            RowBacked(ReplayLines(ix, lines).value, ix, lines, w)
  {
    if lines != [] {
      ReplayBacked(ix, Front(lines));
      ReplaySound(ix, Front(lines));
      hide ApplyEvent, RowBacked, RowsLinked;
      assert Front(lines) + [Last(lines)] == lines;
      forall w | w in ReplayLines(ix, lines).value.versions
        ensures RowBacked(ReplayLines(ix, lines).value, ix, lines, w)
      {
        NextRowBacked(ReplayLines(ix, Front(lines)).value, ix, Front(lines), Last(lines), w);
      }
    }
  }

  lemma RebuildBacked(ix: Index, lines: seq<Event>, disk: map<Sha, Bytes>)
    requires Sound(ix) && LinesWhole(lines) && Rebuild(ix, lines).Some?
    requires RowsBacked(ix.versions, disk) && LinesBacked(lines, disk)
    ensures RowsBacked(Rebuild(ix, lines).value.versions, disk)
  {
    ReplayBacked(ix, lines);
    hide ReplayLines, RowsLinked, RowsUnique, NamesUnique;
    var f := ReplayLines(ix, lines).value;
    forall v | v in f.versions && f.versions[v].sha.Some?
      ensures f.versions[v].sha.value in disk
    {
      assert RowBacked(f, ix, lines, v);
      if FromLine(lines, f.versions[v], v) {
        var i :| 0 <= i < |lines| && IsLineOf(lines[i], v) && lines[i].row.Journaled() == f.versions[v]
          && !Lost(lines, i);
        assert NamesBlob(lines[i], f.versions[v].sha.value);
      }
    }
  }

  // ----- each kind of step ---------------------------------------------------------------------------------------

  /** A commit adds at most the staged file at its own address, and a successful one leaves that address occupied. */
  lemma CommitDisk(s: State, u: Id, mat: Material, now: nat, fault: Fault)
    requires u in s.uploads
    ensures var t := CommitTxn(s, u, mat, now, fault).after;
            && (t.disk == s.disk || (u in s.staging && t.disk == s.disk[mat.sha := s.staging[u]]))
            && (CommitTxn(s, u, mat, now, fault).reply.Ok? ==> mat.sha in t.disk)
  {
    hide Clashes, CommitIndex;
  }

  lemma CommittedBacked(s: State, t: State, v: Id, row: VersionRow, name: string)
    requires RowsBacked(s.ix.versions, s.disk) && LinesBacked(s.journal, s.disk) && s.disk.Keys <= t.disk.Keys
    requires row.sha.Some? && row.sha.value in t.disk
    requires t.ix == CommitIndex(s.ix, v, row) && t.journal == s.journal + [LineOf(v, row, name)]
    ensures RowsBacked(t.ix.versions, t.disk) && LinesBacked(t.journal, t.disk)
  {
    hide AddRef, RaiseFence;
    LinesStayBacked(s.journal, [LineOf(v, row, name)], s.disk, t.disk);
    assert forall w | w in s.ix.versions && s.ix.versions[w].sha.Some? :: s.ix.versions[w].sha.value in s.disk.Keys;
  }

  lemma FailedBacked(s: State, t: State, v: Id, row: VersionRow, name: string)
    requires RowsBacked(s.ix.versions, s.disk) && LinesBacked(s.journal, s.disk) && s.disk.Keys <= t.disk.Keys
    requires t.ix == s.ix
    requires t.journal == s.journal || t.journal == s.journal + [Aborted(v)]
             || t.journal == s.journal + [LineOf(v, row, name), Aborted(v)]
    ensures RowsBacked(t.ix.versions, t.disk) && LinesBacked(t.journal, t.disk)
  {
    var more := if t.journal == s.journal then [] else if t.journal == s.journal + [Aborted(v)] then [Aborted(v)]
                else [LineOf(v, row, name), Aborted(v)];
    assert s.journal + [] == s.journal && t.journal == s.journal + more;
    if |more| == 2 {
      assert t.journal[|s.journal| + 1] == Aborted(v);
    }
    LinesStayBacked(s.journal, more, s.disk, t.disk);
    assert forall w | w in s.ix.versions && s.ix.versions[w].sha.Some? :: s.ix.versions[w].sha.value in s.disk.Keys;
  }

  lemma CommitBacked(s: State, p: Principal, u: Id, mat: Material, now: nat, limits: Limits, fault: Fault,
                     hash: Bytes -> Sha)
    requires Backed(s, hash) && HonestOp(s, DoCommit(p, u, mat, now, fault), hash)
    ensures Backed(Commit(s, p, u, mat, now, limits, fault).after, hash)
    ensures s.disk.Keys <= Commit(s, p, u, mat, now, limits, fault).after.disk.Keys
  {
    hide Clashes, Commit, CommitTxn, RowsBacked, LinesBacked, MaxSeq;
    var t := Commit(s, p, u, mat, now, limits, fault).after;
    if t != s {
      CommitIsTxn(s, p, u, mat, now, limits, fault);
      CommitEffect(s, u, mat, now, fault);
      CommitDisk(s, u, mat, now, fault);
      var row, name := NewRow(s.ix, s.uploads[u], mat, now), s.uploads[u].name;
      if CommitTxn(s, u, mat, now, fault).reply.Ok? {
        CommittedBacked(s, t, s.next, row, name);
      } else {
        FailedCommitLines(s, u, mat, now, fault);
        FailedBacked(s, t, s.next, row, name);
      }
    }
  }

  lemma PurgedLost(lines: seq<Event>, order: seq<Sha>, i: nat, x: Sha)
    requires i < |lines| && NamesBlob(lines[i], x) && x in order
    ensures (lines + PurgeLines(order))[i] == lines[i] && Lost(lines + PurgeLines(order), i)
  {
    var k :| 0 <= k < |order| && order[k] == x;
    assert (lines + PurgeLines(order))[|lines| + k] == GcPurge(x);
  }

  lemma CollectBacked(s: State, order: seq<Sha>, hash: Bytes -> Sha)
    requires Backed(s, hash) && Lists(order, Unreferenced(PurgeChains(s.ix, MarkedChains(s.ix))))
    ensures Backed(Collect(s, order), hash)
  {
    var g, t := PurgeChains(s.ix, MarkedChains(s.ix)), Collect(s, order);
    forall v | v in t.ix.versions && t.ix.versions[v].sha.Some?
      ensures t.ix.versions[v].sha.value in t.disk
    {
      RefCountZero(g.versions, t.ix.versions[v].sha.value);
    }
    hide RefCount, MarkedChains, Surviving;
    forall i, x: Sha | 0 <= i < |t.journal| && NamesBlob(t.journal[i], x) && !Lost(t.journal, i)
      ensures x in t.disk
    {
      assert i < |s.journal| && NamesBlob(s.journal[i], x);
      if Lost(s.journal, i) {
        LostStays(s.journal, PurgeLines(order), i);
      }
      if x in order {
        PurgedLost(s.journal, order, i, x);
        assert false;
      }
    }
  }

  /** Operations that leave the disk alone and neither add byte-holding rows nor committed lines. */
  lemma StillBacked(s: State, t: State, hash: Bytes -> Sha)
    requires Backed(s, hash) && t.disk == s.disk && s.journal <= t.journal
    requires forall i | |s.journal| <= i < |t.journal| :: !t.journal[i].VersionCommitted?
    requires forall v | v in t.ix.versions && t.ix.versions[v].sha.Some? ::
             v in s.ix.versions && t.ix.versions[v] == s.ix.versions[v]
    ensures Backed(t, hash)
  {
    var more := t.journal[|s.journal|..];
    assert t.journal == s.journal + more;
    LinesStayBacked(s.journal, more, s.disk, t.disk);
  }

  lemma PlainBacked(s: State, op: Op, limits: Limits, hash: Bytes -> Sha)
    requires Backed(s, hash) && BootFree(op) && !op.DoCommit? && !op.DoCollect?
    ensures Backed(Step(s, op, limits), hash)
  {
    hide Backed, Commit, Collect, Crashed, Reboot, Clashes, MaxSeq, Looked, Abort, Expire;
    PlainRows(s, op, limits);
    StillBacked(s, Step(s, op, limits), hash);
  }

  /** Files and lines of the disk's account stay. */
  ghost predicate DiskStays(s: State, t: State) {
    && t.disk == s.disk && s.journal <= t.journal
    && (forall i | |s.journal| <= i < |t.journal| :: !t.journal[i].VersionCommitted?)
    && (forall v | v in t.ix.versions && t.ix.versions[v].sha.Some? ::
          v in s.ix.versions && t.ix.versions[v] == s.ix.versions[v])
  }

  lemma PointerRows(s: State, op: Op, limits: Limits)
    requires op.DoDelete? || op.DoRestore?
    ensures DiskStays(s, Step(s, op, limits))
  {
    hide Commit, Collect, Crashed, Reboot, Clashes, MaxSeq, Looked, Register, Abort, Expire;
  }

  lemma QuietRows(s: State, op: Op, limits: Limits)
    requires BootFree(op) && !op.DoCommit? && !op.DoCollect? && !op.DoDelete? && !op.DoRestore?
    ensures DiskStays(s, Step(s, op, limits))
  {
    hide Commit, Collect, Crashed, Reboot, Delete, Restore, Looked, WellFormed, NormalizeFence, PendingOf;
  }

  lemma PlainRows(s: State, op: Op, limits: Limits)
    requires BootFree(op) && !op.DoCommit? && !op.DoCollect?
    ensures DiskStays(s, Step(s, op, limits))
  {
    hide DiskStays, Step;
    if op.DoDelete? || op.DoRestore? {
      PointerRows(s, op, limits);
    } else {
      QuietRows(s, op, limits);
    }
  }

  lemma BootBacked(s: State, hash: Bytes -> Sha)
    requires Facts(s) && Backed(s, hash)
    ensures Backed(Reboot(s), hash)
  {
    hide Rebuild, RowsTold, NamesTold, PointersTold, Sound, LinesWhole, RowsBacked, LinesBacked;
    if Rebuild(s.ix, s.journal).Some? {
      RebuildBacked(s.ix, s.journal, s.disk);
    }
  }

  /** The disk a crash leaves is the old one, or that of the operation it interrupted. */
  lemma CrashDisk(s: State, inner: Op, moved: bool, limits: Limits, hash: Bytes -> Sha)
    requires Backed(s, hash) && Interruptible(inner) && HonestOp(s, inner, hash)
    ensures var c := Step(s, DoCrash(inner, moved), limits);
            s.disk.Keys <= c.disk.Keys && forall x | x in c.disk :: hash(c.disk[x]) == x
  {
    hide RowsBacked, LinesBacked, Rebuild, Commit, Delete, Restore;
    if inner.DoCommit? {
      CommitBacked(s, inner.p, inner.u, inner.mat, inner.now, limits, inner.fault, hash);
    } else {
      hide Step;
      PlainRows(s, inner, limits);
      CrashKeepsDisk(s, inner, moved, limits);
    }
  }

  lemma CrashKeepsDisk(s: State, inner: Op, moved: bool, limits: Limits)
    requires Interruptible(inner) && Step(s, inner, limits).disk == s.disk
    ensures Step(s, DoCrash(inner, moved), limits).disk == s.disk
  {
    hide Rebuild, Commit, Delete, Restore;
  }

  lemma CrashBacked(s: State, inner: Op, moved: bool, limits: Limits, hash: Bytes -> Sha)
    requires Facts(s) && Backed(s, hash) && Interruptible(inner) && HonestOp(s, inner, hash)
    requires FilePlaced(s, DoCrash(inner, moved), limits)
    ensures Backed(Step(s, DoCrash(inner, moved), limits), hash)
  {
    var t, c := Step(s, inner, limits), Step(s, DoCrash(inner, moved), limits);
    hide Step, Rebuild, RowsTold, NamesTold, PointersTold, Sound, LinesWhole, RowsBacked;
    CrashDisk(s, inner, moved, limits, hash);
    StepFacts(s, DoCrash(inner, moved), limits);
    CrashBooted(s, inner, moved, limits);
    LinesStayBacked(s.journal, Survivors(s, t), s.disk, c.disk);
    MoreFiles(s.ix.versions, s.disk, c.disk);
    if Rebuild(s.ix, c.journal).Some? {
      RebuildBacked(s.ix, c.journal, c.disk);
    }
  }

  lemma MoreFiles(versions: map<Id, VersionRow>, before: map<Sha, Bytes>, after: map<Sha, Bytes>)
    requires RowsBacked(versions, before) && before.Keys <= after.Keys
    ensures RowsBacked(versions, after)
  {
    forall v | v in versions && versions[v].sha.Some?
      ensures versions[v].sha.value in after
    {
      assert versions[v].sha.value in before.Keys;
    }
  }

  lemma StepBacked(s: State, op: Op, limits: Limits, hash: Bytes -> Sha)
    requires Facts(s) && Backed(s, hash) && HonestOp(s, op, hash) && FilePlaced(s, op, limits)
    ensures Backed(Step(s, op, limits), hash)
  {
    hide Facts, Backed, Commit, Collect, Crashed, Reboot, FilePlaced;
    match op {
      case DoCommit(p, u, mat, now, fault) => CommitBacked(s, p, u, mat, now, limits, fault, hash);
      case DoCollect(order) =>
        if Lists(order, Unreferenced(PurgeChains(s.ix, MarkedChains(s.ix)))) {
          CollectBacked(s, order, hash);
        }
      case DoReboot => BootBacked(s, hash);
      case DoCrash(inner, moved) =>
        if Interruptible(inner) {
          CrashBacked(s, inner, moved, limits, hash);
        }
      case _ =>
        hide Step;
        PlainBacked(s, op, limits, hash);
    }
  }

  lemma {:induction false} BackedRuns(ops: seq<Op>, limits: Limits, hash: Bytes -> Sha)
    requires FilesPlaced(ops, limits) && HonestRun(ops, limits, hash)
    ensures Backed(Run(ops, limits), hash)
  {
    if ops != [] {
      hide Step, Facts, Backed, HonestOp, FilePlaced;
      BackedRuns(Front(ops), limits, hash);
      FactsRuns(Front(ops), limits);
      StepBacked(Run(Front(ops), limits), Last(ops), limits, hash);
    }
  }

  /** Over every run in which no crash falls between a commit's line and its rename. */
  lemma DiskSafety(ops: seq<Op>, limits: Limits, s: State, hash: Bytes -> Sha)
    requires FilesPlaced(ops, limits) && HonestRun(ops, limits, hash) && s == Run(ops, limits)
    ensures DiskSafe(s, hash)
  {
    BackedRuns(ops, limits, hash);
  }

  /** The limit is exact: a safe step behind such a run keeps disk safety if and only if it is no such crash. */
  lemma DiskSafeIff(ops: seq<Op>, op: Op, limits: Limits, s: State, hash: Bytes -> Sha)
    requires FilesPlaced(ops, limits) && HonestRun(ops + [op], limits, hash) && SafeRun(ops + [op], limits)
    requires s == Run(ops, limits)
    ensures DiskSafe(Step(s, op, limits), hash) <==> FilePlaced(s, op, limits)
  {
    hide Step, Safe, HonestOp;
    RunAfter(ops, op, limits);
    assert Front(ops + [op]) == ops && Last(ops + [op]) == op;
    var t := Step(s, op, limits);
    if FilePlaced(s, op, limits) {
      DiskSafety(ops + [op], limits, t, hash);
    }
    SafeRuns(ops + [op], limits);
    SafeMeans(t.ix, t.journal, t.next);
    if DiskSafe(t, hash) {
      forall i | |s.journal| <= i < |t.journal| && t.journal[i].VersionCommitted? && t.journal[i].row.sha.Some?
        ensures t.journal[i].row.sha.value in t.disk
      {
        assert LineHolds(t.journal[i], t.ix);
        assert t.ix.versions[t.journal[i].version].Journaled().sha == t.journal[i].row.sha;
      }
    }
  }

  // ----- the very bytes that were committed ---------------------------------------------------------------

  ghost predicate Injective(hash: Bytes -> Sha) {
    forall a, b :: hash(a) == hash(b) ==> a == b
  }

  /**
   * A version committed anywhere in such a run still serves exactly the bytes that were staged for it, for as long as
   * its row is there, purged and brought back or not.
   */
  lemma CommittedBytesServed(pre: seq<Op>, commit: Op, post: seq<Op>, limits: Limits, s: State, t: State,
                             r: Receipt, hash: Bytes -> Sha)
    requires FilesPlaced(pre + [commit] + post, limits) && HonestRun(pre + [commit] + post, limits, hash)
             && Injective(hash)
    requires s == Run(pre, limits) && t == Run(pre + [commit] + post, limits)
    requires commit.DoCommit? && commit.u in s.staging && commit.u in s.uploads && s.uploads[commit.u].status.Pending?
    requires Commit(s, commit.p, commit.u, commit.mat, commit.now, limits, commit.fault).reply == Ok(r)
    requires r.version in t.ix.versions
    ensures t.ix.versions[r.version].sha == Some(commit.mat.sha)
    ensures commit.mat.sha in t.disk && t.disk[commit.mat.sha] == s.staging[commit.u]
  {
    hide Commit, CommitTxn, Facts, Step, FilesPlaced, Held, JournalMinted;
    HonestCommit(pre, commit, post, limits, s, hash);
    FactsRuns(pre, limits);
    FactsMinted(s);
    FirstHeld(s, commit, limits, r);
    RunAfter(pre, commit, limits);
    RunHolds(pre + [commit], post, limits, commit.u, commit.p.sub, r);
    HeldSha(t, commit, r);
    ReceiptSha(s, commit, limits, r);
    DiskSafety(pre + [commit] + post, limits, t, hash);
  }

  lemma RunAfter(pre: seq<Op>, op: Op, limits: Limits)
    ensures Run(pre + [op], limits) == Step(Run(pre, limits), op, limits)
  {
    assert Front(pre + [op]) == pre;
  }

  lemma HeldSha(t: State, commit: Op, r: Receipt)
    requires commit.DoCommit? && Held(t, commit.u, commit.p.sub, r) && r.version in t.ix.versions
    ensures t.ix.versions[r.version].sha == r.sha
  {
  }

  lemma ReceiptSha(s: State, commit: Op, limits: Limits, r: Receipt)
    requires commit.DoCommit? && commit.u in s.uploads && s.uploads[commit.u].status.Pending?
    requires Commit(s, commit.p, commit.u, commit.mat, commit.now, limits, commit.fault).reply == Ok(r)
    ensures r.sha == Some(commit.mat.sha)
  {
    hide Commit, CommitTxn, Clashes, MaxSeq;
    PendingIsTxn(s, commit, limits);
    CommitEffect(s, commit.u, commit.mat, commit.now, commit.fault);
  }

  lemma HonestCommit(pre: seq<Op>, commit: Op, post: seq<Op>, limits: Limits, s: State, hash: Bytes -> Sha)
    requires HonestRun(pre + [commit] + post, limits, hash) && s == Run(pre, limits)
    ensures HonestOp(s, commit, hash)
  {
    hide HonestOp, Run;
    HonestPrefix(pre + [commit], post, limits, hash);
    assert Front(pre + [commit]) == pre && Last(pre + [commit]) == commit;
  }

  lemma {:induction false} HonestPrefix(pre: seq<Op>, post: seq<Op>, limits: Limits, hash: Bytes -> Sha)
    requires HonestRun(pre + post, limits, hash)
    ensures HonestRun(pre, limits, hash)
  {
    if post == [] {
      assert pre + post == pre;
    } else {
      assert Front(pre + post) == pre + Front(post);
      HonestPrefix(pre, Front(post), limits, hash);
    }
  }
}
