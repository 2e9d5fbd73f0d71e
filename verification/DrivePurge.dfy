/**
 * What the journal records while no commit is rolled back behind its line: lines that never clash and whose rows are
 * there for as long as their artifact is.  Purging a delete-marked chain is not journaled, so a replay resurrects its
 * rows or trips over the purge line of a blob they name (apps/drive/src/storage/gc.ts, maintenance.ts).
 */
module DrivePurge {
  import opened Prelude
  import opened DriveIndex
  import opened DriveMachine
  import opened DriveReplay
  import opened DriveSafety
  import opened DriveRuns
  import opened DriveLive
  import opened DriveFacts
  import opened DriveAlways

  /** No commit of the step is rolled back behind its line. */
  ghost predicate NotRolledBack(s: State, op: Op, limits: Limits) {
    op.DoCommit? ==> Commit(s, op.p, op.u, op.mat, op.now, limits, op.fault).reply != Err(IoFailure)
  }

  // ----- what the journal of such a run looks like -------------------------------------------------------

  /** Two committed lines never share a version id, a place in a chain, or an operation. */
  predicate Apart(d: Event, e: Event)
    requires d.VersionCommitted? && e.VersionCommitted?
  {
    && d.version != e.version
    && !(d.row.artifact == e.row.artifact && d.row.seqNo == e.row.seqNo)
    && !(d.row.createdBy == e.row.createdBy && d.row.op == e.row.op)
  }

  ghost predicate LinesApart(lines: seq<Event>) {
    forall i, k | 0 <= i < k < |lines| && lines[i].VersionCommitted? && lines[k].VersionCommitted? ::
           Apart(lines[i], lines[k])
  }

  ghost predicate NoneAborted(lines: seq<Event>) {
    forall i, k | 0 <= i < |lines| && 0 <= k < |lines| && lines[i].VersionCommitted? ::
           lines[k] != Aborted(lines[i].version)
  }

  /** A committed line's session is there, with the line's operation and artifact. */
  ghost predicate Claimed(uploads: map<Id, Upload>, e: Event)
    requires e.VersionCommitted?
  {
    exists u | u in uploads :: Claims(uploads[u], e)
  }

  predicate Claims(up: Upload, e: Event)
    requires e.VersionCommitted?
  {
    up.createdBy == e.row.createdBy && ClientOp(up.op) == e.row.op && up.artifact == e.row.artifact
  }

  /** A committed line's row is in the table for as long as its artifact is, and as the line says if it is there. */
  ghost predicate Whole(ix: Index, e: Event)
    requires e.VersionCommitted?
  {
    && (e.row.artifact in ix.artifacts ==> e.version in ix.versions)
    && (e.version in ix.versions ==> ix.versions[e.version].Journaled() == e.row)
  }

  ghost predicate LineKnown(s: State, e: Event) {
    && (e.VersionCommitted? ==>
          e.version < s.next && e.row.artifact < s.next && e.row.Journaled() == e.row && e.row.sha.Some?
          && Claimed(s.uploads, e) && Whole(s.ix, e))
    && (e.Aborted? ==> e.version < s.next)
  }

  ghost predicate HasLine(lines: seq<Event>, v: Id) {
    exists i | 0 <= i < |lines| :: IsLineOf(lines[i], v)
  }

  ghost predicate RowsJournaled(ix: Index, lines: seq<Event>) {
    forall v | v in ix.versions && !ix.versions[v].IsMarker() :: HasLine(lines, v)
  }

  ghost predicate LinesKnown(s: State) {
    forall i | 0 <= i < |s.journal| :: LineKnown(s, s.journal[i])
  }

  ghost predicate Chronicle(s: State) {
    && LinesApart(s.journal)
    && NoneAborted(s.journal)
    && LinesKnown(s)
    && RowsJournaled(s.ix, s.journal)
  }

  lemma HasLineAppend(lines: seq<Event>, more: seq<Event>, v: Id)
    requires HasLine(lines, v)
    ensures HasLine(lines + more, v)
  {
    var i :| 0 <= i < |lines| && IsLineOf(lines[i], v);
    assert IsLineOf((lines + more)[i], v);
  }

  // ----- each kind of step -----------------------------------------------------------------------------------

  /** Steps that add no committed line. */
  lemma QuietChronicle(s: State, t: State, more: seq<Event>)
    requires Chronicle(s) && t.journal == s.journal + more && s.next <= t.next
    requires forall e | e in more :: !e.VersionCommitted? && (e.Aborted? ==> s.next <= e.version < t.next)
    requires forall v | v in t.ix.versions && !t.ix.versions[v].IsMarker() ::
             v in s.ix.versions && !s.ix.versions[v].IsMarker()
    requires forall i | 0 <= i < |s.journal| :: LineKnown(t, s.journal[i])
    ensures Chronicle(t)
  {
    assert forall i | |s.journal| <= i < |t.journal| :: t.journal[i] in more;
    assert forall i | 0 <= i < |s.journal| :: LineKnown(s, s.journal[i]);
    forall v | v in t.ix.versions && !t.ix.versions[v].IsMarker()
      ensures HasLine(t.journal, v)
    {
      HasLineAppend(s.journal, more, v);
    }
  }

  predicate SameSession(up: Upload, was: Upload) {
    up.createdBy == was.createdBy && up.op == was.op && up.artifact == was.artifact
  }

  /** Sessions keep what they were registered for, and a chain stays whole while its artifact does. */
  ghost predicate KeepsKnown(s: State, t: State) {
    && s.next <= t.next
    && (forall u | u in s.uploads :: u in t.uploads && SameSession(t.uploads[u], s.uploads[u]))
    && (forall a | a in t.ix.artifacts :: a in s.ix.artifacts || a >= s.next)
    && (forall v | v in s.ix.versions && s.ix.versions[v].artifact in t.ix.artifacts ::
          v in t.ix.versions && t.ix.versions[v] == s.ix.versions[v])
    && (forall v | v in t.ix.versions && v < s.next :: v in s.ix.versions && t.ix.versions[v] == s.ix.versions[v])
  }

  lemma KnownKept(s: State, t: State, e: Event)
    requires LineKnown(s, e) && KeepsKnown(s, t)
    ensures LineKnown(t, e)
  {
    if e.VersionCommitted? {
      var u :| u in s.uploads && Claims(s.uploads[u], e);
      assert SameSession(t.uploads[u], s.uploads[u]) && Claims(t.uploads[u], e);
      if e.row.artifact in t.ix.artifacts {
        assert Whole(s.ix, e);
        assert e.version in s.ix.versions && s.ix.versions[e.version].Journaled() == e.row;
      }
    }
  }

  lemma QuietStep(s: State, t: State, more: seq<Event>)
    requires Chronicle(s) && KeepsKnown(s, t) && t.journal == s.journal + more
    requires forall e | e in more :: !e.VersionCommitted? && (e.Aborted? ==> s.next <= e.version < t.next)
    requires forall v | v in t.ix.versions && !t.ix.versions[v].IsMarker() ::
             v in s.ix.versions && !s.ix.versions[v].IsMarker()
    ensures Chronicle(t)
  {
    forall i | 0 <= i < |s.journal|
      ensures LineKnown(t, s.journal[i])
    {
      KnownKept(s, t, s.journal[i]);
    }
    QuietChronicle(s, t, more);
  }

  /** The row a session commits is apart from every committed line. */
  lemma NewLineApart(s: State, u: Id, v: Id, row: VersionRow, name: string, e: Event)
    requires SessionsUnique(s.uploads) && LineKnown(s, e) && e.VersionCommitted?
    requires u in s.uploads && row.artifact == s.uploads[u].artifact && !Clashes(s.ix.versions, row)
    requires row.createdBy == s.uploads[u].createdBy && row.op == ClientOp(s.uploads[u].op)
    requires v == s.next && row.artifact in s.ix.artifacts && row.seqNo == MaxSeq(s.ix.versions, row.artifact) + 1
    ensures Apart(e, LineOf(v, row, name))
  {
    assert Whole(s.ix, e);
    assert e.version in s.ix.versions ==>
        && s.ix.versions[e.version].Journaled().seqNo == e.row.seqNo
        && s.ix.versions[e.version].Journaled().createdBy == e.row.createdBy
        && s.ix.versions[e.version].Journaled().op == e.row.op;
  }

  lemma CommitChronicle(s: State, u: Id, mat: Material, now: nat, fault: Fault)
    requires Live(s) && Chronicle(s) && u in s.uploads && CommitTxn(s, u, mat, now, fault).reply.Ok?
    ensures Chronicle(CommitTxn(s, u, mat, now, fault).after)
  {
    hide Consistent, Clashes, CommitTxn, CommitIndex, Chronicle, MaxSeq;
    CommitEffect(s, u, mat, now, fault);
    AddedChronicle(s, CommitTxn(s, u, mat, now, fault).after, u, NewRow(s.ix, s.uploads[u], mat, now),
                   s.uploads[u].name);
  }

  /** A row some session commits, with its line. */
  lemma AddedChronicle(s: State, t: State, u: Id, row: VersionRow, name: string)
    requires Live(s) && Chronicle(s) && u in s.uploads && Claims(s.uploads[u], LineOf(s.next, row, name))
    requires row.sha.Some? && row.artifact in s.ix.artifacts && !Clashes(s.ix.versions, row)
    requires row.seqNo == MaxSeq(s.ix.versions, row.artifact) + 1
    requires t.next == s.next + 1 && t.ix == CommitIndex(s.ix, s.next, row)
             && t.journal == s.journal + [LineOf(s.next, row, name)]
    requires forall w | w in s.uploads :: w in t.uploads && SameSession(t.uploads[w], s.uploads[w])
    ensures Chronicle(t)
  {
    hide Consistent, Clashes;
    var line := LineOf(s.next, row, name);
    assert KeepsKnown(s, t);
    forall i | 0 <= i < |s.journal|
      ensures LineKnown(t, s.journal[i]) && LineKnown(s, s.journal[i])
      ensures s.journal[i].VersionCommitted? ==> Apart(s.journal[i], line)
    {
      KnownKept(s, t, s.journal[i]);
      if s.journal[i].VersionCommitted? {
        NewLineApart(s, u, s.next, row, name, s.journal[i]);
      }
    }
    assert SameSession(t.uploads[u], s.uploads[u]) && Claims(t.uploads[u], line);
    AppendLine(s, t, line);
  }

  lemma AppendLine(s: State, t: State, line: Event)
    requires Chronicle(s) && t.journal == s.journal + [line] && line.VersionCommitted? && line.version == s.next
    requires forall i | 0 <= i < |s.journal| :: LineKnown(t, s.journal[i]) && LineKnown(s, s.journal[i])
    requires forall i | 0 <= i < |s.journal| && s.journal[i].VersionCommitted? :: Apart(s.journal[i], line)
    requires LineKnown(t, line)
    requires forall v | v in t.ix.versions && v != line.version ::
             v in s.ix.versions && s.ix.versions[v].sha == t.ix.versions[v].sha
    ensures Chronicle(t)
  {
    forall v | v in t.ix.versions && !t.ix.versions[v].IsMarker()
      ensures HasLine(t.journal, v)
    {
      if v == line.version {
        assert IsLineOf(t.journal[|s.journal|], v);
      } else {
        HasLineAppend(s.journal, [line], v);
      }
    }
  }

  lemma CommitStepChronicle(s: State, p: Principal, u: Id, mat: Material, now: nat, limits: Limits, fault: Fault)
    requires Live(s) && Chronicle(s) && Commit(s, p, u, mat, now, limits, fault).reply != Err(IoFailure)
    ensures Chronicle(Commit(s, p, u, mat, now, limits, fault).after)
  {
    hide Clashes, CommitTxn, Consistent, Chronicle, Commit;
    var out := Commit(s, p, u, mat, now, limits, fault);
    if out.after != s {
      CommitIsTxn(s, p, u, mat, now, limits, fault);
      CommitEffect(s, u, mat, now, fault);
      if out.reply.Ok? {
        CommitChronicle(s, u, mat, now, fault);
      } else {
        FailedCommitLine(s, u, mat, now, fault);
        var more := if out.after.journal == s.journal then [] else [Aborted(s.next)];
        assert s.journal + [] == s.journal;
        QuietStep(s, out.after, more);
      }
    }
  }

  lemma DeleteKeepsKnown(s: State, p: Principal, a: Id, now: nat)
    requires s.next !in s.ix.versions
    ensures var t := Delete(s, p, a, now).after;
            && KeepsKnown(s, t)
            && (t.journal == s.journal || t.journal == s.journal + [DeleteMarker(s.next, a)])
            && forall v | v in t.ix.versions && !t.ix.versions[v].IsMarker() ::
                 v in s.ix.versions && !s.ix.versions[v].IsMarker()
  {
    hide Clashes, MaxSeq, KeepsKnown, SameSession;
    var t := Delete(s, p, a, now).after;
    if t.ix == s.ix {
      SameTables(s, t);
    } else {
      MarkerAdded(s, t, MarkerRow(s.ix, a, s.next, p.sub, now));
    }
  }

  lemma SameTables(s: State, t: State)
    requires t.ix == s.ix && t.uploads == s.uploads && s.next <= t.next
    ensures KeepsKnown(s, t)
  {
  }

  lemma MarkerAdded(s: State, t: State, row: VersionRow)
    requires s.next !in s.ix.versions && t.uploads == s.uploads && s.next <= t.next
    requires t.ix.versions == s.ix.versions[s.next := row] && t.ix.artifacts.Keys == s.ix.artifacts.Keys
    ensures KeepsKnown(s, t)
  {
    assert forall a | a in t.ix.artifacts :: a in s.ix.artifacts.Keys;
  }

  lemma DeleteChronicle(s: State, p: Principal, a: Id, now: nat)
    requires Chronicle(s) && s.next !in s.ix.versions
    ensures Chronicle(Delete(s, p, a, now).after)
  {
    hide Chronicle, Delete, KeepsKnown;
    DeleteKeepsKnown(s, p, a, now);
    var t := Delete(s, p, a, now).after;
    assert s.journal + [] == s.journal;
    QuietStep(s, t, if t.journal == s.journal then [] else [DeleteMarker(s.next, a)]);
  }

  lemma RegisterKeepsKnown(s: State, p: Principal, intent: Intent, found: Option<Id>, session: Option<Id>, now: nat,
                           limits: Limits)
    requires IdsMinted(s) && RowsLinked(s.ix) && Looked(s, p, intent, found, session)
    ensures var t := Register(s, p, intent, found, session, now, limits).after;
            KeepsKnown(s, t) && t.journal == s.journal && t.ix.versions == s.ix.versions
  {
    hide PendingOf, WellFormed, NormalizeFence, NameTaken, HasSession;
    var t := Register(s, p, intent, found, session, now, limits).after;
    if t != s {
      SessionAdded(s, t);
    }
  }

  lemma SessionAdded(s: State, t: State)
    requires IdsMinted(s) && RowsLinked(s.ix) && s.next <= t.next && t.ix.versions == s.ix.versions
    requires forall u | u in s.uploads :: u in t.uploads && t.uploads[u] == s.uploads[u]
    requires forall a | a in t.ix.artifacts :: a in s.ix.artifacts || a >= s.next
    requires s.ix.artifacts.Keys <= t.ix.artifacts.Keys
    ensures KeepsKnown(s, t)
  {
  }

  lemma RegisterChronicle(s: State, p: Principal, intent: Intent, found: Option<Id>, session: Option<Id>, now: nat,
                          limits: Limits)
    requires Live(s) && Chronicle(s) && Looked(s, p, intent, found, session)
    ensures Chronicle(Register(s, p, intent, found, session, now, limits).after)
  {
    hide Chronicle, Register, KeepsKnown;
    RegisterKeepsKnown(s, p, intent, found, session, now, limits);
    assert s.journal + [] == s.journal;
    QuietStep(s, Register(s, p, intent, found, session, now, limits).after, []);
  }

  /** The session and ledger operations leave index and journal alone. */
  lemma SessionStep(s: State, op: Op, limits: Limits)
    requires op.DoStage? || op.DoCharge? || op.DoTouch? || op.DoAbort? || op.DoExpire? || op.DoSweep?
    ensures var t := Step(s, op, limits); KeepsKnown(s, t) && t.journal == s.journal && t.ix == s.ix
  {
    hide Register, Commit, Delete, Restore, Collect, Reboot, Interrupted;
  }

  lemma CollectChronicle(s: State, order: seq<Sha>)
    requires Chronicle(s)
    ensures Chronicle(Collect(s, order))
  {
    hide Chronicle;
    QuietStep(s, Collect(s, order), PurgeLines(order));
  }

  lemma RestoreChronicle(s: State, a: Id, v: Id)
    requires Chronicle(s)
    ensures Chronicle(Restore(s, a, v).after)
  {
    hide Chronicle;
    assert s.journal + [] == s.journal;
    QuietStep(s, Restore(s, a, v).after, if Restore(s, a, v).reply.Ok? then [PointerMove(a, Some(v))] else []);
  }

  lemma StepChronicle(s: State, op: Op, limits: Limits)
    requires Live(s) && Chronicle(s) && BootFree(op) && NotRolledBack(s, op, limits)
    ensures Chronicle(Step(s, op, limits))
  {
    hide Chronicle, Consistent, Clashes, Collect, Commit, Register, Delete;
    assert s.journal + [] == s.journal;
    match op {
      case DoRegister(p, intent, found, session, now) =>
        if Looked(s, p, intent, found, session) {
          RegisterChronicle(s, p, intent, found, session, now, limits);
        }
      case DoCommit(p, u, mat, now, fault) => CommitStepChronicle(s, p, u, mat, now, limits, fault);
      case DoDelete(p, a, now) => DeleteChronicle(s, p, a, now);
      case DoRestore(a, v) => RestoreChronicle(s, a, v);
      case DoCollect(order) => CollectChronicle(s, order);
      case _ =>
        hide Step;
        SessionStep(s, op, limits);
        QuietStep(s, Step(s, op, limits), []);
    }
  }

  // ----- what replaying such a journal must produce --------------------------------------------------------------

  /** Every committed line's row is in the replayed index, and every replayed row has its line. */
  ghost predicate Replays(f: Index, lines: seq<Event>) {
    && (forall i | 0 <= i < |lines| && lines[i].VersionCommitted? ::
          lines[i].version in f.versions && f.versions[lines[i].version] == lines[i].row.Journaled())
    && (forall w | w in f.versions :: HasLine(lines, w))
  }

  lemma ReplayInsertsRow(f: Index, lines: seq<Event>, e: Event)
    requires Replays(f, lines) && e.VersionCommitted?
    requires forall i | 0 <= i < |lines| && lines[i].VersionCommitted? :: Apart(lines[i], e)
    ensures e.version !in f.versions && !Clashes(f.versions, e.row)
    ensures ApplyEvent(f, e).Some? ==> ApplyEvent(f, e).value.versions == f.versions[e.version := e.row.Journaled()]
  {
    forall w | w in f.versions
      ensures w != e.version
      ensures !(f.versions[w].artifact == e.row.artifact && f.versions[w].seqNo == e.row.seqNo)
      ensures !(f.versions[w].createdBy == e.row.createdBy && f.versions[w].op == e.row.op)
    {
      var i :| 0 <= i < |lines| && IsLineOf(lines[i], w);
      assert Apart(lines[i], e);
    }
  }

  lemma ReplaysAppend(f: Index, g: Index, lines: seq<Event>, e: Event)
    requires Replays(f, lines) && ApplyEvent(f, e) == Some(g)
    requires e.VersionCommitted? ==> forall i | 0 <= i < |lines| && lines[i].VersionCommitted? :: Apart(lines[i], e)
    requires forall i | 0 <= i < |lines| && lines[i].VersionCommitted? :: e != Aborted(lines[i].version)
    ensures Replays(g, lines + [e])
  {
    if e.VersionCommitted? {
      ReplayInsertsRow(f, lines, e);
      assert IsLineOf((lines + [e])[|lines|], e.version);
    }
    forall w | w in g.versions
      ensures HasLine(lines + [e], w)
    {
      if w in f.versions {
        HasLineAppend(lines, [e], w);
      }
    }
  }

  lemma {:induction false} ReplayKeepsLines(lines: seq<Event>)
    requires LinesApart(lines) && NoneAborted(lines) && ReplayLines(EMPTY, lines).Some?
    ensures Replays(ReplayLines(EMPTY, lines).value, lines)
  {
    if lines != [] {
      ReplayKeepsLines(Front(lines));
      hide ApplyEvent;
      assert Front(lines) + [Last(lines)] == lines;
      ReplaysAppend(ReplayLines(EMPTY, Front(lines)).value, ReplayLines(EMPTY, lines).value, Front(lines), Last(lines));
    }
  }

  // ----- the equivalence ---------------------------------------------------------------------------------------------

  /** Some committed version is journaled but gone from the table. */
  ghost predicate Forgotten(s: State, v: Id) {
    HasLine(s.journal, v) && v !in s.ix.versions && v < s.next
  }

  lemma ForgottenBreaks(s: State, v: Id)
    requires Chronicle(s) && Forgotten(s, v)
    ensures !Rebuildable(s)
  {
    if ReplayLines(EMPTY, s.journal).Some? {
      ReplayKeepsLines(s.journal);
      var i :| 0 <= i < |s.journal| && IsLineOf(s.journal[i], v);
      assert v in ReplayLines(EMPTY, s.journal).value.versions && v !in ByteRows(s.ix.versions);
    }
  }

  /** A collection of a chain with bytes forgets at least one journaled version. */
  lemma PurgeForgets(s: State, order: seq<Sha>) returns (v: Id)
    requires Live(s) && Chronicle(s) && !Byteless(s.ix, MarkedChains(s.ix))
    ensures Forgotten(Collect(s, order), v)
  {
    var a :| a in MarkedChains(s.ix) && HasBytes(s.ix.versions, a);
    v :| v in s.ix.versions && s.ix.versions[v].artifact == a && !s.ix.versions[v].IsMarker();
    HasLineAppend(s.journal, PurgeLines(order), v);
  }

  lemma CommitGrowsJournal(s: State, u: Id, mat: Material, now: nat, fault: Fault)
    requires u in s.uploads
    ensures s.journal <= CommitTxn(s, u, mat, now, fault).after.journal
  {
    hide Clashes, CommitIndex;
  }

  lemma StepGrowsJournal(s: State, op: Op, limits: Limits)
    requires BootFree(op)
    ensures s.journal <= Step(s, op, limits).journal
  {
    hide CommitTxn, Clashes;
    if op.DoCommit? {
      if op.u in s.uploads {
        CommitGrowsJournal(s, op.u, op.mat, op.now, op.fault);
      }
    } else {
      hide Commit;
    }
  }

  /** Forgotten versions stay forgotten: ids are never minted twice. */
  lemma StillForgotten(s: State, op: Op, limits: Limits, v: Id)
    requires Forgotten(s, v) && BootFree(op)
    ensures Forgotten(Step(s, op, limits), v)
  {
    hide Step;
    StepGrowsJournal(s, op, limits);
    var after := Step(s, op, limits).journal;
    assert after == s.journal + after[|s.journal|..];
    HasLineAppend(s.journal, after[|s.journal|..], v);
    StepAppends(s, op, limits);
  }

  // ----- after a purge nothing replays ------------------------------------------------------------------------------

  /** Every blob a row names has its row. */
  ghost predicate ShasLinked(f: Index) {
    forall v | v in f.versions && f.versions[v].sha.Some? :: f.versions[v].sha.value in f.blobs
  }

  /** Only a delete marker's operation id is derived from the version, and every byte-holding row has a client's. */
  ghost predicate OpsTyped(versions: map<Id, VersionRow>) {
    forall v | v in versions :: versions[v].op.MarkerOp? <==> versions[v].IsMarker()
  }

  /** Tables a replay of `lines` can start from: each line's row is absent with its artifact, or as the line says. */
  ghost predicate Startable(ix: Index, lines: seq<Event>) {
    && (forall i | 0 <= i < |lines| && lines[i].VersionCommitted? ::
          Whole(ix, lines[i]) && lines[i].row.sha.Some? && lines[i].row.op.ClientOp?)
    && RowsJournaled(ix, lines)
    && (forall w | w in ix.versions :: ix.versions[w].artifact in ix.artifacts)
    && OpsTyped(ix.versions)
    && ShasLinked(ix)
  }

  /** The row `w` of a replay is the starting table's, or one of the lines' replayed so far. */
  ghost predicate Accounted(f: Index, ix: Index, lines: seq<Event>, w: Id)
    requires w in f.versions
  {
    || (w in ix.versions && f.versions[w] == ix.versions[w])
    || (exists i | 0 <= i < |lines| :: IsLineOf(lines[i], w) && f.versions[w] == lines[i].row.Journaled())
  }

  /** A replay over those tables: all its rows accounted for, none lost, every line's row there. */
  ghost predicate Overlays(f: Index, ix: Index, lines: seq<Event>) {
    && (forall w | w in f.versions :: Accounted(f, ix, lines, w))
    && (forall w | w in ix.versions && !ix.versions[w].IsMarker() :: w in f.versions)
    && (forall i | 0 <= i < |lines| && lines[i].VersionCommitted? ::
          lines[i].version in f.versions && f.versions[lines[i].version].sha == lines[i].row.sha)
    && ShasLinked(f)
  }

  /** The row of the next line is there already, or it clashes with nothing. */
  lemma NextLineFits(f: Index, ix: Index, lines: seq<Event>, k: nat)
    requires LinesApart(lines) && Startable(ix, lines) && k < |lines| && lines[k].VersionCommitted?
    requires Overlays(f, ix, lines[..k])
    ensures lines[k].version in f.versions ==> f.versions[lines[k].version].sha == lines[k].row.sha
    ensures lines[k].version !in f.versions ==> !Clashes(f.versions, lines[k].row)
  {
    hide ShasLinked;
    var e := lines[k];
    assert Whole(ix, e);
    forall w | w in f.versions
      ensures w == e.version ==> f.versions[w].sha == e.row.sha
      ensures e.version !in f.versions ==>
              !(f.versions[w].artifact == e.row.artifact && f.versions[w].seqNo == e.row.seqNo)
      ensures e.version !in f.versions ==> !(f.versions[w].createdBy == e.row.createdBy && f.versions[w].op == e.row.op)
    {
      assert Accounted(f, ix, lines[..k], w);
      if w in ix.versions && f.versions[w] == ix.versions[w] {
        if !ix.versions[w].IsMarker() {
          var j :| 0 <= j < |lines| && IsLineOf(lines[j], w);
          assert Whole(ix, lines[j]) && ix.versions[w].Journaled() == lines[j].row;
          assert j < k ==> Apart(lines[j], e);
          assert k < j ==> Apart(e, lines[j]);
        }
      } else {
        var i :| 0 <= i < k && IsLineOf(lines[..k][i], w) && f.versions[w] == lines[..k][i].row.Journaled();
        assert Apart(lines[i], e);
      }
    }
  }

  lemma NextAccounted(f: Index, ix: Index, lines: seq<Event>, k: nat, w: Id)
    requires k < |lines| && Overlays(f, ix, lines[..k]) && ApplyEvent(f, lines[k]).Some?
    requires w in ApplyEvent(f, lines[k]).value.versions
    ensures Accounted(ApplyEvent(f, lines[k]).value, ix, lines[..k + 1], w)
  {
    NextRows(f, lines[k]);
    hide ApplyEvent, ShasLinked, Clashes;
    if w in f.versions {
      assert Accounted(f, ix, lines[..k], w);
      if !(w in ix.versions && f.versions[w] == ix.versions[w]) {
        var i :| 0 <= i < k && IsLineOf(lines[..k][i], w) && f.versions[w] == lines[..k][i].row.Journaled();
        assert lines[..k + 1][i] == lines[..k][i];
      }
    } else {
      assert IsLineOf(lines[..k + 1][k], w);
    }
  }

  /** Nothing rolled back, a line drops no row that a line or the starting table put there. */
  lemma NextDropsNothing(f: Index, ix: Index, lines: seq<Event>, k: nat)
    requires NoneAborted(lines) && RowsJournaled(ix, lines) && k < |lines|
    requires Overlays(f, ix, lines[..k]) && ApplyEvent(f, lines[k]).Some?
    ensures var g := ApplyEvent(f, lines[k]).value;
            && (forall w | w in ix.versions && !ix.versions[w].IsMarker() :: w in g.versions)
            && (forall i | 0 <= i < k && lines[i].VersionCommitted? ::
                  lines[i].version in g.versions && g.versions[lines[i].version].sha == lines[i].row.sha)
  {
    NextRows(f, lines[k]);
    hide ApplyEvent, ShasLinked, Clashes, Accounted;
    forall w | w in ix.versions && !ix.versions[w].IsMarker()
      ensures lines[k] != Aborted(w)
    {
      var j :| 0 <= j < |lines| && IsLineOf(lines[j], w);
    }
    forall i | 0 <= i < k && lines[i].VersionCommitted?
      ensures lines[k] != Aborted(lines[i].version)
      ensures lines[i].version in f.versions && f.versions[lines[i].version].sha == lines[i].row.sha
    {
      assert lines[..k][i] == lines[i];
    }
  }

  lemma OverlaysNext(f: Index, ix: Index, lines: seq<Event>, k: nat)
    requires LinesApart(lines) && NoneAborted(lines) && Startable(ix, lines) && k < |lines|
    requires Overlays(f, ix, lines[..k]) && ApplyEvent(f, lines[k]).Some?
    ensures Overlays(ApplyEvent(f, lines[k]).value, ix, lines[..k + 1])
  {
    var e, g := lines[k], ApplyEvent(f, lines[k]).value;
    ApplyKeepsShas(f, e);
    if e.VersionCommitted? {
      NextLineFits(f, ix, lines, k);
    }
    NextRows(f, e);
    NextDropsNothing(f, ix, lines, k);
    hide ApplyEvent, ShasLinked, Clashes, Accounted, LinesApart, NoneAborted, Startable;
    forall w | w in g.versions
      ensures Accounted(g, ix, lines[..k + 1], w)
    {
      NextAccounted(f, ix, lines, k, w);
    }
    assert forall i | 0 <= i < k + 1 :: lines[..k + 1][i] == lines[i];
  }

  lemma ApplyKeepsShas(f: Index, e: Event)
    requires ShasLinked(f) && ApplyEvent(f, e).Some?
    ensures ShasLinked(ApplyEvent(f, e).value)
  {
    hide Clashes, NameTaken, CurrentSeq, RaiseFence;
    if e.GcPurge? {
      RefCountZero(f.versions, e.sha);
    }
  }

  lemma {:induction false} ReplayOverlays(ix: Index, lines: seq<Event>, k: nat)
    requires LinesApart(lines) && NoneAborted(lines) && Startable(ix, lines) && k <= |lines|
    ensures ReplayLines(ix, lines[..k]).Some? ==> Overlays(ReplayLines(ix, lines[..k]).value, ix, lines[..k])
  {
    hide LinesApart, NoneAborted, Overlays, ApplyEvent;
    if k == 0 {
      StartOverlays(ix, lines);
    } else {
      assert Front(lines[..k]) == lines[..k - 1] && Last(lines[..k]) == lines[k - 1];
      ReplayOverlays(ix, lines, k - 1);
      if ReplayLines(ix, lines[..k]).Some? {
        OverlaysNext(ReplayLines(ix, lines[..k - 1]).value, ix, lines, k - 1);
      }
    }
  }

  lemma StartOverlays(ix: Index, lines: seq<Event>)
    requires Startable(ix, lines)
    ensures Overlays(ix, ix, lines[..0]) && ReplayLines(ix, lines[..0]) == Some(ix)
  {
  }

  /** A purge line behind a line that names its blob stops every replay over such tables. */
  lemma PurgeLineStops(ix: Index, lines: seq<Event>, i: nat, k: nat, more: seq<Event>)
    requires LinesApart(lines) && NoneAborted(lines) && Startable(ix, lines)
    requires i < k < |lines| && lines[i].VersionCommitted? && lines[k] == GcPurge(lines[i].row.sha.value)
    ensures Rebuild(ix, lines + more) == None
  {
    ReplayOverlays(ix, lines, k);
    hide LinesApart, NoneAborted, Startable, ReplayLines;
    if ReplayLines(ix, lines[..k]).Some? {
      var f := ReplayLines(ix, lines[..k]).value;
      assert lines[..k][i] == lines[i];
      RefCountZero(f.versions, lines[i].row.sha.value);
    }
    ReplayAppend(ix, lines[..k], lines[k]);
    assert lines + more == lines[..k] + [lines[k]] + (lines[k + 1..] + more);
    ReplayStuck(ix, lines[..k] + [lines[k]], lines[k + 1..] + more);
  }

  /** Every purge line has a line before it that names its blob. */
  ghost predicate PurgesNamed(lines: seq<Event>) {
    forall k | 0 <= k < |lines| && lines[k].GcPurge? :: NamedBefore(lines, k, lines[k].sha)
  }

  ghost predicate NamedBefore(lines: seq<Event>, k: nat, x: Sha) {
    exists i | 0 <= i < k && i < |lines| :: lines[i].VersionCommitted? && lines[i].row.sha == Some(x)
  }

  lemma LiveBlobNamed(s: State, x: Sha)
    requires Live(s) && Chronicle(s) && x in s.ix.blobs
    ensures NamedBefore(s.journal, |s.journal|, x)
  {
    hide Consistent, MarkersKeyed, IdsMinted, SessionsLinked, SessionsUnique, LinesApart, NoneAborted;
    assert RefCount(s.ix.versions, x) > 0 by { LiveCounts(s, x); }
    RefCountZero(s.ix.versions, x);
    var v :| v in s.ix.versions && s.ix.versions[v].sha == Some(x);
    var i :| 0 <= i < |s.journal| && IsLineOf(s.journal[i], v);
    assert LineKnown(s, s.journal[i]) && Whole(s.ix, s.journal[i]);
    assert s.journal[i].row.sha == Some(x);
  }

  lemma LiveCounts(s: State, x: Sha)
    requires Live(s) && x in s.ix.blobs
    ensures RefCount(s.ix.versions, x) > 0
  {
  }

  /** Only a collection journals purge lines, and only of blobs it found in the table. */
  lemma StepPurges(s: State, op: Op, limits: Limits)
    requires BootFree(op) && NotRolledBack(s, op, limits)
    ensures s.journal <= Step(s, op, limits).journal
    ensures forall k | |s.journal| <= k < |Step(s, op, limits).journal| && Step(s, op, limits).journal[k].GcPurge? ::
              Step(s, op, limits).journal[k].sha in s.ix.blobs
  {
    StepGrowsJournal(s, op, limits);
    hide Clashes, CommitTxn;
    match op {
      case DoCommit(p, u, mat, now, fault) =>
        hide Commit;
        if Commit(s, p, u, mat, now, limits, fault).after != s {
          CommitIsTxn(s, p, u, mat, now, limits, fault);
          CommitEffect(s, u, mat, now, fault);
          FailedCommitLine(s, u, mat, now, fault);
        }
      case DoCollect(order) =>
        hide Commit;
        forall k | 0 <= k < |order| && Lists(order, Unreferenced(PurgeChains(s.ix, MarkedChains(s.ix))))
          ensures order[k] in s.ix.blobs
        {
          assert order[k] in Elements(order);
        }
      case _ => hide Commit;
    }
  }

  lemma StepPurgesNamed(s: State, op: Op, limits: Limits)
    requires Live(s) && Chronicle(s) && PurgesNamed(s.journal)
    requires BootFree(op) && NotRolledBack(s, op, limits)
    ensures PurgesNamed(Step(s, op, limits).journal)
  {
    hide Live, Chronicle, Step, NotRolledBack;
    StepPurges(s, op, limits);
    var after := Step(s, op, limits).journal;
    forall k | 0 <= k < |after| && after[k].GcPurge?
      ensures NamedBefore(after, k, after[k].sha)
    {
      if k < |s.journal| {
        assert NamedBefore(s.journal, k, s.journal[k].sha);
        var i :| 0 <= i < k && s.journal[i].VersionCommitted? && s.journal[i].row.sha == Some(after[k].sha);
        assert after[i] == s.journal[i];
      } else {
        LiveBlobNamed(s, after[k].sha);
        var i :| 0 <= i < |s.journal| && s.journal[i].VersionCommitted? && s.journal[i].row.sha == Some(after[k].sha);
        assert after[i] == s.journal[i];
      }
    }
  }

  lemma CommitOpsTyped(s: State, p: Principal, u: Id, mat: Material, now: nat, limits: Limits, fault: Fault)
    requires OpsTyped(s.ix.versions)
    ensures OpsTyped(Commit(s, p, u, mat, now, limits, fault).after.ix.versions)
  {
    hide Clashes, Commit, CommitTxn;
    if Commit(s, p, u, mat, now, limits, fault).after != s {
      CommitIsTxn(s, p, u, mat, now, limits, fault);
      CommitEffect(s, u, mat, now, fault);
    }
  }

  lemma StepOpsTyped(s: State, op: Op, limits: Limits)
    requires OpsTyped(s.ix.versions) && BootFree(op)
    ensures OpsTyped(Step(s, op, limits).ix.versions)
  {
    hide Commit, Clashes, MaxSeq;
    if op.DoCommit? {
      CommitOpsTyped(s, op.p, op.u, op.mat, op.now, limits, op.fault);
    }
  }

  lemma LiveStartable(s: State)
    requires Live(s) && Chronicle(s) && OpsTyped(s.ix.versions)
    ensures LinesApart(s.journal) && NoneAborted(s.journal)
    ensures Startable(s.ix, s.journal) && Startable(EMPTY, s.journal)
  {
    hide LinesApart, NoneAborted, NoOrphans, IdsMinted, SessionsLinked, SessionsUnique, RowsUnique, NamesUnique,
      PointersValid, RefsCounted;
    forall i | 0 <= i < |s.journal| && s.journal[i].VersionCommitted?
      ensures Whole(s.ix, s.journal[i]) && s.journal[i].row.sha.Some? && s.journal[i].row.op.ClientOp?
    {
      assert LineKnown(s, s.journal[i]);
    }
  }
}
