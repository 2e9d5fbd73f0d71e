/**
 * Whole runs of the Drive store: the journal always rebuilds the index the live path maintains, and
 * booting over a live index changes nothing.
 */
module DriveRuns {
  import opened Prelude
  import opened DriveIndex
  import opened DriveMachine
  import opened DriveReplay
  import opened DriveSafety

  /** A session's artifact, while it exists, is the one its ticket and name were registered under. */
  ghost predicate SessionsLinked(s: State) {
    forall u | u in s.uploads ::
      && s.uploads[u].artifact < s.next
      && (s.uploads[u].artifact in s.ix.artifacts ==>
            NamesArtifact(s.ix.artifacts, s.uploads[u].artifact, s.uploads[u].ticket, s.uploads[u].name))
  }

  ghost predicate SafeState(s: State) {
    Safe(s.ix, s.journal, s.next) && SessionsLinked(s)
  }

  /**
   * The two things after which the journal no longer tells the whole story: a commit rolled back
   * after its line was durable, and a purge of a delete-marked chain that held bytes.
   */
  ghost predicate SafeOp(s: State, op: Op, limits: Limits) {
    match op
    case DoCommit(p, u, mat, now, fault) => Commit(s, p, u, mat, now, limits, fault).reply != Err(IoFailure)
    case DoCollect(order) =>
      Lists(order, Unreferenced(PurgeChains(s.ix, MarkedChains(s.ix)))) ==> Byteless(s.ix, MarkedChains(s.ix))
    case _ => true
  }

  /** Every operation of the run was safe in the state it met. */
  ghost predicate SafeRun(ops: seq<Op>, limits: Limits) {
    ops == [] || (SafeRun(Front(ops), limits) && SafeOp(Run(Front(ops), limits), Last(ops), limits))
  }

  // ----- one step -------------------------------------------------------------------------------------------

  lemma SessionAdmits(s: State, u: Id, mat: Material, now: nat)
    requires SafeState(s) && u in s.uploads
    requires !Stale(s.ix.fences, s.uploads[u].ticket, s.uploads[u].fence)
    requires s.uploads[u].artifact in s.ix.artifacts
    requires !Clashes(s.ix.versions, NewRow(s.ix, s.uploads[u], mat, now))
    ensures Admitted(s.ix, s.next, NewRow(s.ix, s.uploads[u], mat, now), s.uploads[u].name)
  {
    SafeMeans(s.ix, s.journal, s.next);
    assert NamesArtifact(s.ix.artifacts, s.uploads[u].artifact, s.uploads[u].ticket, s.uploads[u].name);
  }

  lemma NothingAborted(s: State)
    requires SafeState(s)
    ensures Aborted(s.next) !in s.journal && s.next !in s.ix.versions && s.next !in s.ix.artifacts
    ensures forall a | a in s.ix.artifacts :: a < s.next
  {
    SafeMeans(s.ix, s.journal, s.next);
  }

  lemma RegisterStep(s: State, p: Principal, intent: Intent, found: Option<Id>, session: Option<Id>, now: nat,
                     limits: Limits)
    requires SafeState(s) && Looked(s, p, intent, found, session)
    ensures SafeState(Register(s, p, intent, found, session, now, limits).after)
  {
    hide Safe;
    NothingAborted(s);
    MintingKeepsSafe(s.ix, s.journal, s.next, s.next + 1);
    if found.None? {
      var row := ArtifactRow(intent.ticket, intent.name, None, p.sub, now);
      RegisterKeepsSafe(s.ix, s.journal, s.next, row);
      MintingKeepsSafe(AddArtifact(s.ix, s.next, row), s.journal, s.next + 1, s.next + 2);
    } else {
      assert s.ix.(artifacts := s.ix.artifacts) == s.ix;
    }
  }

  lemma CommitStep(s: State, p: Principal, u: Id, mat: Material, now: nat, limits: Limits, fault: Fault)
    requires SafeState(s) && Commit(s, p, u, mat, now, limits, fault).reply != Err(IoFailure)
    ensures SafeState(Commit(s, p, u, mat, now, limits, fault).after)
  {
    hide Safe, Commit, CommitTxn, Clashes, CommitIndex;
    var t := Commit(s, p, u, mat, now, limits, fault).after;
    if t != s {
      CommitIsTxn(s, p, u, mat, now, limits, fault);
      CommitEffect(s, u, mat, now, fault);
      FailedCommitLine(s, u, mat, now, fault);
      var row := NewRow(s.ix, s.uploads[u], mat, now);
      MintingKeepsSafe(s.ix, s.journal, s.next, s.next + 1);
      CompensationKeepsSafe(s.ix, s.journal, s.next);
      if CommitTxn(s, u, mat, now, fault).reply.Ok? {
        SessionAdmits(s, u, mat, now);
        CommitKeepsSafe(s.ix, s.journal, s.next, row, s.uploads[u].name);
        CommitKeepsNames(s.ix, s.next, row);
      }
    }
  }

  lemma DeleteStep(s: State, p: Principal, a: Id, now: nat)
    requires SafeState(s)
    ensures SafeState(Delete(s, p, a, now).after)
  {
    hide Safe;
    if a in s.ix.artifacts {
      var v, row := s.next, MarkerRow(s.ix, a, s.next, p.sub, now);
      NothingAborted(s);
      MintingKeepsSafe(s.ix, s.journal, s.next, s.next + 1);
      PointerKeepsSafe(s.ix, s.journal, v + 1, a, None, DeleteMarker(v, a));
      LastMoveAppend(s.journal, DeleteMarker(v, a), a);
      MarkerKeepsSafe(SetPointer(s.ix, a, None), s.journal + [DeleteMarker(v, a)], v + 1, v, row);
    }
  }

  lemma RestoreStep(s: State, a: Id, v: Id)
    requires SafeState(s)
    ensures SafeState(Restore(s, a, v).after)
  {
    hide Safe;
    if Restore(s, a, v).reply.Ok? {
      NothingAborted(s);
      PointerKeepsSafe(s.ix, s.journal, s.next, a, Some(v), PointerMove(a, Some(v)));
    }
  }

  lemma CollectStep(s: State, order: seq<Sha>)
    requires SafeState(s) && Byteless(s.ix, MarkedChains(s.ix))
    requires Lists(order, Unreferenced(PurgeChains(s.ix, MarkedChains(s.ix))))
    ensures SafeState(Collect(s, order))
  {
    hide Safe;
    assert order != [] ==> order[0] in Elements(order);
    PurgeKeepsSafe(s.ix, s.journal, s.next, MarkedChains(s.ix));
    var ix := PurgeChains(s.ix, MarkedChains(s.ix));
    assert order == [] && PurgeLines(order) == [] && s.journal + [] == s.journal;
    assert ix.(blobs := ix.blobs - {}) == ix;
  }

  lemma RebootStep(s: State)
    requires SafeState(s)
    ensures Reboot(s) == s
  {
    SafeMeans(s.ix, s.journal, s.next);
    ReplayOverLive(s.ix, s.journal);
  }

  // ----- a crash between the durable line and the lost transaction ----------------------------------------------

  /** The state a boot finds when the operation's first journal line survived and its transaction did not. */
  function Torn(s: State, inner: State): State {
    s.(journal := inner.journal[..Min(|s.journal| + 1, |inner.journal|)], next := inner.next)
  }

  lemma QuietCrash(s: State, inner: State)
    requires SafeState(s) && inner.journal == s.journal && s.next <= inner.next
    ensures SafeState(Interrupted(s, inner))
  {
    hide Safe;
    MintingKeepsSafe(s.ix, s.journal, s.next, inner.next);
    assert Torn(s, inner) == s.(next := inner.next);
    RebootStep(s.(next := inner.next));
  }

  lemma LinedCrash(s: State, inner: State, e: Event, rest: seq<Event>, ix: Index)
    requires inner.journal == s.journal + [e] + rest && Rebuild(s.ix, s.journal + [e]) == Some(ix)
    ensures Interrupted(s, inner) == s.(ix := ix, journal := s.journal + [e], next := inner.next)
  {
    assert inner.journal[..|s.journal| + 1] == s.journal + [e];
  }

  lemma CommitLineReboots(ix: Index, lines: seq<Event>, v: Id, row: VersionRow, name: string)
    requires Safe(ix, lines, v) && Admitted(ix, v, row, name)
    ensures Rebuild(ix, lines + [LineOf(v, row, name)]) == Some(CommitIndex(ix, v, row.Journaled()))
    ensures Safe(CommitIndex(ix, v, row.Journaled()), lines + [LineOf(v, row, name)], v + 1)
  {
    CommitReplayed(ix, lines, v, row, name);
    CommitKeepsSafe(ix, lines, v, row.Journaled(), name);
  }

  lemma CompensationReboots(ix: Index, lines: seq<Event>, v: Id)
    requires Safe(ix, lines, v)
    ensures Rebuild(ix, lines + [Aborted(v)]) == Some(ix) && Safe(ix, lines + [Aborted(v)], v + 1)
  {
    CompensationKeepsSafe(ix, lines, v);
    ReplayOverLive(ix, lines + [Aborted(v)]);
  }

  lemma PointerReboots(ix: Index, lines: seq<Event>, next: Id, a: Id, to: Option<Id>, e: Event)
    requires Safe(ix, lines, next) && Points(e, a, to) && LineHolds(e, ix) && LineMinted(e, next)
    ensures Rebuild(ix, lines + [e]) == Some(SetPointer(ix, a, to)) && Safe(SetPointer(ix, a, to), lines + [e], next)
  {
    PointerReplayed(ix, lines, a, to, e);
    PointerKeepsSafe(ix, lines, next, a, to, e);
  }

  /** The first line a commit journals is its version, or the compensation of a constraint failure. */
  lemma CommitFirstLine(s: State, u: Id, mat: Material, now: nat, fault: Fault)
    requires u in s.uploads && CommitTxn(s, u, mat, now, fault).after.journal != s.journal
    ensures var t, v, row := CommitTxn(s, u, mat, now, fault).after, s.next, NewRow(s.ix, s.uploads[u], mat, now);
            if Clashes(s.ix.versions, row) || row.artifact !in s.ix.artifacts then
              t.journal == s.journal + [Aborted(v)] + []
            else
              && !Stale(s.ix.fences, row.ticket, row.fence)
              && (t.journal == s.journal + [LineOf(v, row, s.uploads[u].name)] + []
                  || t.journal == s.journal + [LineOf(v, row, s.uploads[u].name)] + [Aborted(v)])
  {
    hide Clashes, CommitIndex;
    var j1 := s.journal + [Aborted(s.next)];
    assert j1 + [] == j1;
    var j2 := s.journal + [LineOf(s.next, NewRow(s.ix, s.uploads[u], mat, now), s.uploads[u].name)];
    assert j2 + [] == j2;
  }

  lemma CommitIsTxn(s: State, p: Principal, u: Id, mat: Material, now: nat, limits: Limits, fault: Fault)
    requires Commit(s, p, u, mat, now, limits, fault).after != s
    ensures u in s.uploads && Commit(s, p, u, mat, now, limits, fault) == CommitTxn(s, u, mat, now, fault)
    ensures s.uploads[u].status.Pending? && s.uploads[u].createdBy == p.sub
    ensures Commit(s, p, u, mat, now, limits, fault).after.next == s.next + 1
  {
    hide Clashes, CommitIndex;
  }

  lemma SettleEffect(lined: State, u: Id, v: Id, row: VersionRow, now: nat, fault: Fault)
    requires u in lined.uploads && row.sha.Some?
    ensures var out := Settle(lined, u, v, row, now, fault);
            && out.after.next == lined.next && out.after.ledger == lined.ledger
            && if out.reply.Ok? then
                 && out.after.ix == CommitIndex(lined.ix, v, row) && out.after.journal == lined.journal
                 && out.after.uploads ==
                   lined.uploads[u := lined.uploads[u].(status := Committed, result := Some(v), lastActivity := now)]
                 && out.reply.value == ReceiptOf(v, row)
               else out.after.ix == lined.ix && out.after.uploads == lined.uploads
  {
    hide CommitIndex, ReceiptOf;
  }

  /** A commit either leaves the tables alone or inserts one row that passed every guard. */
  lemma CommitEffect(s: State, u: Id, mat: Material, now: nat, fault: Fault)
    requires u in s.uploads
    ensures var t, row := CommitTxn(s, u, mat, now, fault).after, NewRow(s.ix, s.uploads[u], mat, now);
            && t.next == s.next + 1
            && t.ledger == s.ledger
            && if CommitTxn(s, u, mat, now, fault).reply.Ok? then
                 && !Stale(s.ix.fences, row.ticket, row.fence) && !Clashes(s.ix.versions, row)
                 && row.artifact in s.ix.artifacts
                 && t.ix == CommitIndex(s.ix, s.next, row)
                 && t.uploads ==
                   s.uploads[u := s.uploads[u].(status := Committed, result := Some(s.next), lastActivity := now)]
                 && t.journal == s.journal + [LineOf(s.next, row, s.uploads[u].name)]
                 && CommitTxn(s, u, mat, now, fault).reply.value == ReceiptOf(s.next, row)
               else t.ix == s.ix && t.uploads == s.uploads
  {
    hide Clashes, CommitIndex, Settle, ReceiptOf, MaxSeq;
    var v, up, row := s.next, s.uploads[u], NewRow(s.ix, s.uploads[u], mat, now);
    if !Stale(s.ix.fences, row.ticket, row.fence) && !Clashes(s.ix.versions, row) && row.artifact in s.ix.artifacts {
      SettleEffect(s.(next := v + 1, journal := s.journal + [LineOf(v, row, up.name)]), u, v, row, now, fault);
    }
  }

  lemma FailedCommitLine(s: State, u: Id, mat: Material, now: nat, fault: Fault)
    requires u in s.uploads
    ensures var out := CommitTxn(s, u, mat, now, fault);
            out.reply.Err? && out.reply != Err(IoFailure) ==>
              out.after.journal == s.journal || out.after.journal == s.journal + [Aborted(s.next)]
  {
    hide Clashes, CommitIndex;
  }

  /** What a failed commit leaves: nothing, a lone compensation, or a line and its compensation. */
  lemma FailedCommitLines(s: State, u: Id, mat: Material, now: nat, fault: Fault)
    requires u in s.uploads && CommitTxn(s, u, mat, now, fault).reply.Err?
    ensures var t, row := CommitTxn(s, u, mat, now, fault).after, NewRow(s.ix, s.uploads[u], mat, now);
            || t.journal == s.journal
            || t.journal == s.journal + [Aborted(s.next)]
            || (t.journal == s.journal + [LineOf(s.next, row, s.uploads[u].name), Aborted(s.next)]
                && !Clashes(s.ix.versions, row) && row.artifact in s.ix.artifacts
                && !Stale(s.ix.fences, s.uploads[u].ticket, s.uploads[u].fence))
  {
    hide Clashes, CommitIndex;
    var row := NewRow(s.ix, s.uploads[u], mat, now);
    assert s.journal + [LineOf(s.next, row, s.uploads[u].name)] + [Aborted(s.next)] ==
           s.journal + [LineOf(s.next, row, s.uploads[u].name), Aborted(s.next)];
  }

  lemma CommitCrash(s: State, p: Principal, u: Id, mat: Material, now: nat, limits: Limits, fault: Fault)
    requires SafeState(s)
    ensures SafeState(Interrupted(s, Commit(s, p, u, mat, now, limits, fault).after))
  {
    hide Safe, Interrupted, CommitIndex, Commit, CommitTxn;
    var t := Commit(s, p, u, mat, now, limits, fault).after;
    if t.journal == s.journal {
      if t != s {
        CommitIsTxn(s, p, u, mat, now, limits, fault);
      }
      QuietCrash(s, t);
    } else {
      CommitIsTxn(s, p, u, mat, now, limits, fault);
      CommitFirstLine(s, u, mat, now, fault);
      var v, up, row := s.next, s.uploads[u], NewRow(s.ix, s.uploads[u], mat, now);
      if Clashes(s.ix.versions, row) || row.artifact !in s.ix.artifacts {
        CompensationReboots(s.ix, s.journal, v);
        LinedCrash(s, t, Aborted(v), [], s.ix);
      } else {
        SessionAdmits(s, u, mat, now);
        CommitLineReboots(s.ix, s.journal, v, row, up.name);
        var line := LineOf(v, row, up.name);
        var rest := if t.journal == s.journal + [line] + [] then [] else [Aborted(v)];
        LinedCrash(s, t, line, rest, CommitIndex(s.ix, v, row.Journaled()));
        CommitKeepsNames(s.ix, v, row.Journaled());
      }
    }
  }

  lemma CommitKeepsNames(ix: Index, v: Id, row: VersionRow)
    requires row.sha.Some?
    ensures CommitIndex(ix, v, row).artifacts.Keys == ix.artifacts.Keys
    ensures forall a | a in ix.artifacts ::
              && CommitIndex(ix, v, row).artifacts[a].ticket == ix.artifacts[a].ticket
              && CommitIndex(ix, v, row).artifacts[a].name == ix.artifacts[a].name
  {
  }

  lemma DeleteCrash(s: State, p: Principal, a: Id, now: nat)
    requires SafeState(s)
    ensures SafeState(Interrupted(s, Delete(s, p, a, now).after))
  {
    hide Safe, Interrupted, Clashes, MaxSeq;
    var t := Delete(s, p, a, now).after;
    if t.journal == s.journal {
      QuietCrash(s, t);
    } else {
      var v := s.next;
      NothingAborted(s);
      MintingKeepsSafe(s.ix, s.journal, s.next, s.next + 1);
      PointerReboots(s.ix, s.journal, v + 1, a, None, DeleteMarker(v, a));
      LinedCrash(s, t, DeleteMarker(v, a), [], SetPointer(s.ix, a, None));
    }
  }

  lemma RestoreCrash(s: State, a: Id, v: Id)
    requires SafeState(s)
    ensures SafeState(Interrupted(s, Restore(s, a, v).after))
  {
    hide Safe, Interrupted;
    var t := Restore(s, a, v).after;
    if t.journal == s.journal {
      QuietCrash(s, t);
    } else {
      NothingAborted(s);
      PointerReboots(s.ix, s.journal, s.next, a, Some(v), PointerMove(a, Some(v)));
      LinedCrash(s, t, PointerMove(a, Some(v)), [], SetPointer(s.ix, a, Some(v)));
    }
  }

  // ----- whole runs -----------------------------------------------------------------------------------------------

  lemma StepKeepsSafe(s: State, op: Op, limits: Limits)
    requires SafeState(s) && SafeOp(s, op, limits)
    ensures SafeState(Step(s, op, limits))
  {
    hide Safe, Commit, Delete, Restore, Register, Collect, Interrupted, Reboot;
    match op {
      case DoRegister(p, intent, found, session, now) =>
        if Looked(s, p, intent, found, session) {
          RegisterStep(s, p, intent, found, session, now, limits);
        }
      case DoCommit(p, u, mat, now, fault) => CommitStep(s, p, u, mat, now, limits, fault);
      case DoDelete(p, a, now) => DeleteStep(s, p, a, now);
      case DoRestore(a, v) => RestoreStep(s, a, v);
      case DoCollect(order) =>
        if Lists(order, Unreferenced(PurgeChains(s.ix, MarkedChains(s.ix)))) {
          CollectStep(s, order);
        }
      case DoReboot => RebootStep(s);
      case DoCrash(inner, moved) =>
        match inner {
          case DoCommit(p, u, mat, now, fault) => CommitCrash(s, p, u, mat, now, limits, fault);
          case DoDelete(p, a, now) => DeleteCrash(s, p, a, now);
          case DoRestore(a, v) => RestoreCrash(s, a, v);
          case _ =>
        }
        CrashedSafe(s, op, limits);
      case _ =>
    }
  }

  /** Whether the file was moved is not seen by the invariant. */
  lemma CrashedSafe(s: State, op: Op, limits: Limits)
    requires op.DoCrash? && (Interruptible(op.inner) ==> SafeState(Interrupted(s, Step(s, op.inner, limits))))
    requires SafeState(s)
    ensures SafeState(Step(s, op, limits))
  {
    hide Safe, Interrupted;
  }

  lemma {:induction false} SafeRuns(ops: seq<Op>, limits: Limits)
    requires SafeRun(ops, limits)
    ensures SafeState(Run(ops, limits))
  {
    hide Step;
    if ops == [] {
      assert ByteRows(EMPTY.versions) == EMPTY.versions;
    } else {
      hide SafeState, SafeOp;
      SafeRuns(Front(ops), limits);
      StepKeepsSafe(Run(Front(ops), limits), Last(ops), limits);
    }
  }

  lemma MirrorAgrees(f: Index, ix: Index)
    requires Mirrors(f, ix) && RefsCounted(ix)
    ensures Agrees(Recount(f), ix)
  {
    forall s | s in ix.blobs
      ensures RefCount(f.versions, s) == ix.blobs[s].refcount
    {
      RefCountByteRows(ix.versions, s);
    }
    assert Recount(f).blobs == ix.blobs;
    forall a | a in ix.artifacts && HasBytes(ix.versions, a)
      ensures SameArtifact(Recount(f), ix, a)
    {
      assert SameArtifact(f, ix, a);
    }
  }

  /** The journal alone rebuilds the live index, up to what a rebuild is compared on. */
  ghost predicate Rebuildable(s: State) {
    Rebuild(EMPTY, s.journal).Some? && Agrees(Rebuild(EMPTY, s.journal).value, s.ix)
  }

  /**
   * After every safe run, replaying the journal from nothing gives the live byte-holding version
   * rows, pointers, blob rows with refcounts, and fencing high-waters.
   */
  lemma RebuildRefinesLive(ops: seq<Op>, limits: Limits, s: State)
    requires SafeRun(ops, limits) && s == Run(ops, limits)
    ensures Rebuildable(s)
  {
    SafeRuns(ops, limits);
    MirrorAgrees(ReplayLines(EMPTY, s.journal).value, s.ix);
  }

  /**
   * The same, table by table: a rebuilt row is the live one without the hint, and there is one exactly for each row
   * with bytes; blobs and fences are the live ones, and so are ticket, name and pointer of each artifact with bytes.
   */
  lemma RebuildGives(ops: seq<Op>, limits: Limits, s: State, r: Index)
    requires SafeRun(ops, limits) && s == Run(ops, limits) && Rebuild(EMPTY, s.journal) == Some(r)
    ensures forall v :: v in r.versions <==> v in s.ix.versions && s.ix.versions[v].sha != None
    ensures forall v | v in r.versions :: r.versions[v] == s.ix.versions[v].(hint := None)
    ensures r.blobs == s.ix.blobs && r.fences == s.ix.fences
    ensures forall a :: a in r.artifacts <==>
              a in s.ix.artifacts && exists v | v in r.versions :: r.versions[v].artifact == a
    ensures forall a | a in r.artifacts ::
              && r.artifacts[a].ticket == s.ix.artifacts[a].ticket && r.artifacts[a].name == s.ix.artifacts[a].name
              && r.artifacts[a].current == s.ix.artifacts[a].current
  {
    hide Run;
    RebuildRefinesLive(ops, limits, s);
    hide Rebuild;
    forall a | a in s.ix.artifacts
      ensures HasBytes(s.ix.versions, a) <==> exists v | v in r.versions :: r.versions[v].artifact == a
    {
      if v :| v in s.ix.versions && s.ix.versions[v].artifact == a && !s.ix.versions[v].IsMarker() {
        assert v in r.versions && r.versions[v].artifact == a;
      }
    }
  }

  ghost predicate RebootFixed(s: State) {
    Rebuild(s.ix, s.journal) == Some(s.ix) && Reboot(s) == s
  }

  /** Booting over the live index of any safe run changes nothing at all. */
  lemma RebootIsNoOp(ops: seq<Op>, limits: Limits, s: State)
    requires SafeRun(ops, limits) && s == Run(ops, limits)
    ensures RebootFixed(s)
  {
    SafeRuns(ops, limits);
    SafeMeans(s.ix, s.journal, s.next);
    ReplayOverLive(s.ix, s.journal);
  }

  // ----- a rebuilt index is itself a fixed point of its journal -----------------------------------------------------

  lemma MirrorConsistent(r: Index, ix: Index, f: Index)
    requires Mirrors(f, ix) && r == Recount(f) && Consistent(ix)
    ensures Consistent(r)
  {
    hide RefCount, Mirrors, RowsLinked, RowsUnique, NamesUnique, PointersValid;
    MirrorLinked(f, ix);
    MirrorUnique(f, ix);
    MirrorPointers(f, ix);
    RecountKeeps(f);
  }

  lemma RecountKeeps(f: Index)
    requires RowsLinked(f) && PointersValid(f)
    ensures RowsLinked(Recount(f)) && PointersValid(Recount(f)) && RefsCounted(Recount(f))
  {
    hide RefCount;
    forall a | a in f.artifacts
      ensures PointerValid(Recount(f), a)
    {
      assert PointerValid(f, a);
    }
  }

  lemma MirrorUnique(f: Index, ix: Index)
    requires Mirrors(f, ix) && RowsUnique(ix.versions) && NamesUnique(ix.artifacts)
    ensures RowsUnique(f.versions) && NamesUnique(f.artifacts)
  {
    assert forall v | v in f.versions :: v in ix.versions && f.versions[v] == ix.versions[v].Journaled();
    forall a | a in f.artifacts
      ensures SameArtifact(f, ix, a)
    {
      MirroredArtifact(f, ix, a);
    }
  }

  lemma MirrorPointers(f: Index, ix: Index)
    requires Mirrors(f, ix) && PointersValid(ix)
    ensures PointersValid(f)
  {
    forall a | a in f.artifacts
      ensures PointerValid(f, a)
    {
      MirroredArtifact(f, ix, a);
      assert PointerValid(ix, a);
    }
  }

  lemma MirrorLinked(f: Index, ix: Index)
    requires Mirrors(f, ix) && RowsLinked(ix)
    ensures RowsLinked(f)
  {
    forall v | v in f.versions
      ensures f.versions[v].artifact in f.artifacts
    {
      assert HasBytes(ix.versions, ix.versions[v].artifact);
      assert SameArtifact(f, ix, ix.versions[v].artifact);
    }
  }

  lemma MirrorLines(r: Index, ix: Index, f: Index, lines: seq<Event>)
    requires Mirrors(f, ix) && r == Recount(f) && RowsLinked(ix) && LinesHold(lines, ix)
    ensures LinesHold(lines, r)
  {
    forall i | 0 <= i < |lines|
      ensures LineHolds(lines[i], r)
    {
      var e := lines[i];
      assert LineHolds(e, ix);
      if e.VersionCommitted? {
        assert e.row.sha == ix.versions[e.version].sha;
        assert HasBytes(ix.versions, e.row.artifact);
        assert SameArtifact(f, ix, e.row.artifact);
      }
    }
  }

  lemma MirrorTips(r: Index, ix: Index, f: Index, lines: seq<Event>)
    requires Mirrors(f, ix) && r == Recount(f) && TipsHold(lines, ix)
    ensures TipsHold(lines, r)
  {
    forall a | a in r.artifacts
      ensures TipHolds(lines, r, a)
    {
      MirroredArtifact(f, ix, a);
      assert TipHolds(lines, ix, a);
    }
  }

  /** Rebuilding twice is rebuilding once. */
  lemma RebuildIdempotent(ops: seq<Op>, limits: Limits, s: State, r: Index)
    requires SafeRun(ops, limits) && s == Run(ops, limits) && Rebuild(EMPTY, s.journal) == Some(r)
    ensures Rebuild(r, s.journal) == Some(r)
  {
    SafeRuns(ops, limits);
    SafeMeans(s.ix, s.journal, s.next);
    var f := ReplayLines(EMPTY, s.journal).value;
    MirrorConsistent(r, s.ix, f);
    MirrorLines(r, s.ix, f, s.journal);
    MirrorTips(r, s.ix, f, s.journal);
    ReplayOverLive(r, s.journal);
  }
}
