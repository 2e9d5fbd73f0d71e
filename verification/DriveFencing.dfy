/**
 * Fencing over whole runs: the tokens of a ticket never go back in the journal, the high-water is their maximum, a
 * stale commit is inert; and what a crash inside a commit leaves (apps/drive/src/storage/store.ts).
 */
module DriveFencing {
  import opened Prelude
  import opened DriveIndex
  import opened DriveMachine
  import opened DriveReplay
  import opened DriveSafety
  import opened DriveRuns

  // ----- tokens --------------------------------------------------------------------------------------------

  predicate Carries(e: Event, t: Ticket) {
    e.VersionCommitted? && e.row.ticket == t && e.row.fence.Some?
  }

  /** Along the journal, the tokens committed on one ticket never decrease. */
  ghost predicate TokensSorted(lines: seq<Event>) {
    forall i, k, t: Ticket | 0 <= i < k < |lines| && Carries(lines[i], t) && Carries(lines[k], t) ::
      lines[i].row.fence.value <= lines[k].row.fence.value
  }

  /** A ticket's high-water is the largest token the journal carries for it, and exists only if one does. */
  ghost predicate HighWaterIsMax(fences: map<Ticket, nat>, lines: seq<Event>) {
    && (forall t | t in fences :: exists i | 0 <= i < |lines| ::
        Carries(lines[i], t) && lines[i].row.fence.value == fences[t])
    && (forall i, t: Ticket | 0 <= i < |lines| && Carries(lines[i], t) ::
        t in fences && lines[i].row.fence.value <= fences[t])
  }

  ghost predicate Fenced(s: State) {
    TokensSorted(s.journal) && HighWaterIsMax(s.ix.fences, s.journal)
  }

  /** Besides committed lines nothing touches the high-waters, and those raise them past the guard. */
  ghost predicate FenceStep(s: State, t: State) {
    || (t.journal == s.journal && t.ix.fences == s.ix.fences)
    || (|t.journal| == |s.journal| + 1
        && t.journal[..|s.journal|] == s.journal
        && var e := Last(t.journal);
           if e.VersionCommitted? then
             !Stale(s.ix.fences, e.row.ticket, e.row.fence)
               && t.ix.fences == RaiseFence(s.ix.fences, e.row.ticket, e.row.fence)
           else t.ix.fences == s.ix.fences)
  }

  lemma RaisedIsMax(fences: map<Ticket, nat>, lines: seq<Event>, e: Event)
    requires HighWaterIsMax(fences, lines) && e.VersionCommitted? && !Stale(fences, e.row.ticket, e.row.fence)
    ensures HighWaterIsMax(RaiseFence(fences, e.row.ticket, e.row.fence), lines + [e])
  {
    var after, raised := lines + [e], RaiseFence(fences, e.row.ticket, e.row.fence);
    assert after[|lines|] == e;
    forall t | t in raised
      ensures exists i | 0 <= i < |after| :: Carries(after[i], t) && after[i].row.fence.value == raised[t]
    {
      if t in fences && fences[t] == raised[t] {
        var i :| 0 <= i < |lines| && Carries(lines[i], t) && lines[i].row.fence.value == fences[t];
        assert after[i] == lines[i];
      }
    }
  }

  lemma OtherLineKeepsMax(fences: map<Ticket, nat>, lines: seq<Event>, e: Event)
    requires HighWaterIsMax(fences, lines) && !e.VersionCommitted?
    ensures HighWaterIsMax(fences, lines + [e])
  {
    var after := lines + [e];
    forall t | t in fences
      ensures exists i | 0 <= i < |after| :: Carries(after[i], t) && after[i].row.fence.value == fences[t]
    {
      var i :| 0 <= i < |lines| && Carries(lines[i], t) && lines[i].row.fence.value == fences[t];
      assert after[i] == lines[i];
    }
  }

  lemma FenceStepKeeps(s: State, t: State)
    requires Fenced(s) && FenceStep(s, t)
    ensures Fenced(t)
  {
    hide HighWaterIsMax;
    if t.journal != s.journal {
      var e := Last(t.journal);
      assert t.journal == s.journal + [e];
      if e.VersionCommitted? {
        RaisedIsMax(s.ix.fences, s.journal, e);
        SortedAppend(s.ix.fences, s.journal, e);
      } else {
        OtherLineKeepsMax(s.ix.fences, s.journal, e);
      }
    }
  }

  lemma SortedAppend(fences: map<Ticket, nat>, lines: seq<Event>, e: Event)
    requires TokensSorted(lines) && HighWaterIsMax(fences, lines)
    requires e.VersionCommitted? && !Stale(fences, e.row.ticket, e.row.fence)
    ensures TokensSorted(lines + [e])
  {
  }

  lemma CommitFences(s: State, p: Principal, u: Id, mat: Material, now: nat, limits: Limits, fault: Fault)
    requires Commit(s, p, u, mat, now, limits, fault).reply != Err(IoFailure)
    ensures FenceStep(s, Commit(s, p, u, mat, now, limits, fault).after)
  {
    hide Clashes, Commit, CommitTxn;
    if Commit(s, p, u, mat, now, limits, fault).after != s {
      CommitIsTxn(s, p, u, mat, now, limits, fault);
      CommitEffect(s, u, mat, now, fault);
      FailedCommitLine(s, u, mat, now, fault);
    }
  }

  /** What a crash inside a commit leaves: nothing, the compensation line alone, or the version with its line. */
  ghost predicate CommitCrashed(s: State, after: State, u: Id, mat: Material, now: nat) {
    || (after.ix == s.ix && after.journal == s.journal)
    || (after.ix == s.ix && after.journal == s.journal + [Aborted(s.next)])
    || (u in s.uploads &&
        var row := NewRow(s.ix, s.uploads[u], mat, now);
        && !Stale(s.ix.fences, row.ticket, row.fence)
        && s.next !in s.ix.versions
        && after.ix == CommitIndex(s.ix, s.next, row.Journaled())
        && after.journal == s.journal + [LineOf(s.next, row, s.uploads[u].name)])
  }

  lemma NextRowUnused(s: State)
    requires SafeState(s)
    ensures s.next !in s.ix.versions
  {
    hide Safe;
    NothingAborted(s);
  }

  /** The file has moved from staging to its address, which it only does behind the version's line. */
  ghost predicate FileMoved(s: State, after: State, u: Id, sha: Sha) {
    && u in s.staging && sha !in s.disk && s.next in after.ix.versions
    && after.disk == s.disk[sha := s.staging[u]] && after.staging == s.staging - {u}
  }

  /** A commit moves the file, if at all, behind a line for its version. */
  lemma CommitMoves(s: State, u: Id, mat: Material, now: nat, fault: Fault)
    requires u in s.uploads
    ensures var t, row := CommitTxn(s, u, mat, now, fault).after, NewRow(s.ix, s.uploads[u], mat, now);
            t.disk != s.disk ==>
              && u in s.staging && mat.sha !in s.disk
              && t.disk == s.disk[mat.sha := s.staging[u]] && t.staging == s.staging - {u}
              && !Stale(s.ix.fences, row.ticket, row.fence) && !Clashes(s.ix.versions, row)
                && row.artifact in s.ix.artifacts
              && t.journal != s.journal
  {
    hide Clashes, CommitIndex, MaxSeq;
    assert (s.staging - {u}) - {u} == s.staging - {u};
    assert |s.journal + [LineOf(s.next, NewRow(s.ix, s.uploads[u], mat, now), s.uploads[u].name)]| > |s.journal|;
  }

  lemma CommitCrashOutcome(s: State, p: Principal, u: Id, mat: Material, now: nat, limits: Limits, fault: Fault,
                           moved: bool)
    requires SafeState(s)
    ensures var after := Crashed(s, Commit(s, p, u, mat, now, limits, fault).after, moved);
            && CommitCrashed(s, after, u, mat, now) && after.uploads == s.uploads
            && ((after.disk == s.disk && after.staging == s.staging) || FileMoved(s, after, u, mat.sha))
  {
    hide Safe, Interrupted, Commit, CommitTxn, Clashes, CommitIndex;
    var t := Commit(s, p, u, mat, now, limits, fault).after;
    InterruptedCommit(s, p, u, mat, now, limits, fault);
    if t.disk != s.disk {
      CommitIsTxn(s, p, u, mat, now, limits, fault);
      CommitMoves(s, u, mat, now, fault);
      CommitFirstLine(s, u, mat, now, fault);
      SessionAdmits(s, u, mat, now);
      var v, up, row := s.next, s.uploads[u], NewRow(s.ix, s.uploads[u], mat, now);
      CommitLineReboots(s.ix, s.journal, v, row, up.name);
      var line := LineOf(v, row, up.name);
      LinedCrash(s, t, line, if t.journal == s.journal + [line] + [] then [] else [Aborted(v)],
                 CommitIndex(s.ix, v, row.Journaled()));
      CommitAddsRow(s.ix, v, row.Journaled());
    }
  }

  lemma CommitAddsRow(ix: Index, v: Id, row: VersionRow)
    requires row.sha.Some?
    ensures v in CommitIndex(ix, v, row).versions
  {
  }

  lemma InterruptedCommit(s: State, p: Principal, u: Id, mat: Material, now: nat, limits: Limits, fault: Fault)
    requires SafeState(s)
    ensures var after := Interrupted(s, Commit(s, p, u, mat, now, limits, fault).after);
            && CommitCrashed(s, after, u, mat, now)
            && after.uploads == s.uploads && after.disk == s.disk && after.staging == s.staging
  {
    hide Safe, Interrupted, Commit, CommitTxn, Clashes, CommitIndex;
    NextRowUnused(s);
    var t := Commit(s, p, u, mat, now, limits, fault).after;
    if t.journal == s.journal {
      if t != s {
        CommitIsTxn(s, p, u, mat, now, limits, fault);
      }
      QuietCrashFixed(s, t);
    } else {
      CommitIsTxn(s, p, u, mat, now, limits, fault);
      CommitFirstLine(s, u, mat, now, fault);
      var v, up, row := s.next, s.uploads[u], NewRow(s.ix, s.uploads[u], mat, now);
      if Clashes(s.ix.versions, row) || row.artifact !in s.ix.artifacts {
        CompensationReboots(s.ix, s.journal, v);
        LinedCrash(s, t, Aborted(v), [], s.ix);
      } else {
        SessionAdmits(s, u, mat, now);
        CommitLineReboots(s.ix, s.journal, v, row, up.name);
        var line := LineOf(v, row, up.name);
        LinedCrash(s, t, line, if t.journal == s.journal + [line] + [] then [] else [Aborted(v)],
                   CommitIndex(s.ix, v, row.Journaled()));
      }
    }
  }

  /** A row that carries the session's operation id shuts the session for good: UNIQUE (created_by, op_id). */
  lemma OperationTaken(s: State, u: Id, w: Id, mat: Material, now: nat, fault: Fault)
    requires u in s.uploads && w in s.ix.versions
    requires s.ix.versions[w].createdBy == s.uploads[u].createdBy && s.ix.versions[w].op == ClientOp(s.uploads[u].op)
    ensures CommitTxn(s, u, mat, now, fault).reply ==
            Err(if Stale(s.ix.fences, s.uploads[u].ticket, s.uploads[u].fence) then StaleFencing else Constraint)
  {
    hide MaxSeq, CommitIndex;
    assert Clashes(s.ix.versions, NewRow(s.ix, s.uploads[u], mat, now));
  }

  lemma SameChances(s: State, t: State, u: Id, mat: Material, now: nat, fault: Fault)
    requires u in s.uploads && t.uploads == s.uploads && t.ix == s.ix && t.disk == s.disk && t.staging == s.staging
    ensures CommitTxn(t, u, mat, now, fault).reply.Ok? <==> CommitTxn(s, u, mat, now, fault).reply.Ok?
  {
    hide Clashes, CommitIndex, MaxSeq;
  }

  /**
   * After a crash inside a commit the session is still pending.  If the version survived by its line, a retry of the
   * commit is refused, whatever it carries: the row already holds the operation id.  If it did not, a retry succeeds
   * exactly when it would have before.
   */
  lemma RetryAfterCrash(s: State, p: Principal, u: Id, mat: Material, now: nat, limits: Limits, fault: Fault,
                        moved: bool, again: Material, later: nat, fault': Fault)
    requires SafeState(s) && u in s.uploads
    ensures var after := Crashed(s, Commit(s, p, u, mat, now, limits, fault).after, moved);
            && after.uploads == s.uploads
            && (if s.next in after.ix.versions then
                  CommitTxn(after, u, again, later, fault').reply == Err(Constraint)
                else
                  (CommitTxn(after, u, again, later, fault').reply.Ok? <==>
                   CommitTxn(s, u, again, later, fault').reply.Ok?))
  {
    hide Safe, SafeState, Crashed, Commit, CommitTxn, Clashes, MaxSeq;
    NextRowUnused(s);
    CommitCrashOutcome(s, p, u, mat, now, limits, fault, moved);
    var after := Crashed(s, Commit(s, p, u, mat, now, limits, fault).after, moved);
    if s.next in after.ix.versions {
      OperationTaken(after, u, s.next, again, later, fault');
    } else {
      SameChances(s, after, u, again, later, fault');
    }
  }

  /** A crash keeps at most the first line, and the boot raises the fence that line carries. */
  lemma CommitCrashFences(s: State, p: Principal, u: Id, mat: Material, now: nat, limits: Limits, fault: Fault)
    requires SafeState(s)
    ensures FenceStep(s, Interrupted(s, Commit(s, p, u, mat, now, limits, fault).after))
  {
    hide Safe, SafeState, Interrupted, Commit;
    InterruptedCommit(s, p, u, mat, now, limits, fault);
  }

  lemma QuietCrashFixed(s: State, inner: State)
    requires SafeState(s) && inner.journal == s.journal && s.next <= inner.next
    ensures Interrupted(s, inner) == s.(next := inner.next)
  {
    hide Safe;
    MintingKeepsSafe(s.ix, s.journal, s.next, inner.next);
    assert Torn(s, inner) == s.(next := inner.next);
    RebootStep(s.(next := inner.next));
  }

  lemma PointerCrashFixed(s: State, inner: State, a: Id, to: Option<Id>, e: Event)
    requires SafeState(s) && inner.journal == s.journal + [e] && Points(e, a, to)
    ensures Interrupted(s, inner) == s.(ix := SetPointer(s.ix, a, to), journal := s.journal + [e], next := inner.next)
  {
    SafeMeans(s.ix, s.journal, s.next);
    PointerReplayed(s.ix, s.journal, a, to, e);
    assert s.journal + [e] + [] == s.journal + [e];
    LinedCrash(s, inner, e, [], SetPointer(s.ix, a, to));
  }

  lemma DeleteFences(s: State, p: Principal, a: Id, now: nat)
    ensures FenceStep(s, Delete(s, p, a, now).after)
    ensures SafeState(s) ==> FenceStep(s, Interrupted(s, Delete(s, p, a, now).after))
  {
    hide Safe, Interrupted, Clashes;
    var t := Delete(s, p, a, now).after;
    if SafeState(s) {
      if t.journal == s.journal {
        QuietCrashFixed(s, t);
      } else {
        PointerCrashFixed(s, t, a, None, DeleteMarker(s.next, a));
      }
    }
  }

  lemma RestoreFences(s: State, a: Id, v: Id)
    ensures FenceStep(s, Restore(s, a, v).after)
    ensures SafeState(s) ==> FenceStep(s, Interrupted(s, Restore(s, a, v).after))
  {
    hide Safe, Interrupted;
    var t := Restore(s, a, v).after;
    if SafeState(s) {
      if t.journal == s.journal {
        QuietCrashFixed(s, t);
      } else {
        PointerCrashFixed(s, t, a, Some(v), PointerMove(a, Some(v)));
      }
    }
  }

  lemma CollectFences(s: State, order: seq<Sha>, limits: Limits)
    requires SafeState(s) && SafeOp(s, DoCollect(order), limits)
    ensures FenceStep(s, Step(s, DoCollect(order), limits))
  {
    hide Safe, Collect;
    if Lists(order, Unreferenced(PurgeChains(s.ix, MarkedChains(s.ix)))) {
      SafeCollectFixed(s, order);
    }
  }

  lemma RebootFences(s: State)
    requires SafeState(s)
    ensures FenceStep(s, Reboot(s))
  {
    hide Safe, Reboot;
    RebootStep(s);
  }

  lemma SameFences(s: State)
    ensures FenceStep(s, s)
  {
  }

  /** Everything else leaves journal and fences alone. */
  lemma QuietFences(s: State, op: Op, limits: Limits)
    requires !op.DoCommit? && !op.DoDelete? && !op.DoRestore? && !op.DoCollect? && !op.DoReboot? && !op.DoCrash?
    ensures FenceStep(s, Step(s, op, limits))
  {
    hide Commit, Delete, Restore, Collect, Reboot, Interrupted;
  }

  lemma CrashedFences(s: State, op: Op, limits: Limits)
    requires op.DoCrash?
    requires if Interruptible(op.inner) then FenceStep(s, Interrupted(s, Step(s, op.inner, limits)))
             else FenceStep(s, s)
    ensures FenceStep(s, Step(s, op, limits))
  {
    hide Interrupted;
  }

  lemma StepFences(s: State, op: Op, limits: Limits)
    requires SafeState(s) && SafeOp(s, op, limits)
    ensures FenceStep(s, Step(s, op, limits))
  {
    hide SafeState, Safe, FenceStep, Commit, Delete, Restore, Register, Abort, Expire, Interrupted, Collect, Reboot,
      Clashes;
    match op {
      case DoCommit(p, u, mat, now, fault) => CommitFences(s, p, u, mat, now, limits, fault);
      case DoDelete(p, a, now) => DeleteFences(s, p, a, now);
      case DoRestore(a, v) => RestoreFences(s, a, v);
      case DoCollect(order) => CollectFences(s, order, limits);
      case DoReboot => RebootFences(s);
      case DoCrash(inner, moved) =>
        match inner {
          case DoCommit(p, u, mat, now, fault) => CommitCrashFences(s, p, u, mat, now, limits, fault);
          case DoDelete(p, a, now) => DeleteFences(s, p, a, now);
          case DoRestore(a, v) => RestoreFences(s, a, v);
          case _ => SameFences(s);
        }
        CrashedFences(s, op, limits);
      case _ => QuietFences(s, op, limits);
    }
  }

  /** A collection that purges no bytes removes marker-only artifacts and nothing else. */
  lemma SafeCollectFixed(s: State, order: seq<Sha>)
    requires SafeState(s) && Byteless(s.ix, MarkedChains(s.ix))
    requires Lists(order, Unreferenced(PurgeChains(s.ix, MarkedChains(s.ix))))
    ensures Collect(s, order) == s.(ix := PurgeChains(s.ix, MarkedChains(s.ix)))
    ensures ByteRows(PurgeChains(s.ix, MarkedChains(s.ix)).versions) == ByteRows(s.ix.versions)
  {
    hide Safe;
    assert order != [] ==> order[0] in Elements(order);
    PurgeKeepsSafe(s.ix, s.journal, s.next, MarkedChains(s.ix));
    BytelessSurvive(s.ix, MarkedChains(s.ix));
    var ix := PurgeChains(s.ix, MarkedChains(s.ix));
    assert order == [] && PurgeLines(order) == [] && s.journal + [] == s.journal;
    assert ix.(blobs := ix.blobs - {}) == ix;
    assert s.disk - {} == s.disk;
  }

  lemma {:induction false} FencedRuns(ops: seq<Op>, limits: Limits, s: State)
    requires SafeRun(ops, limits) && s == Run(ops, limits)
    ensures Fenced(s)
  {
    if ops != [] {
      hide SafeState, SafeOp, Step, FenceStep, Fenced;
      var before := Run(Front(ops), limits);
      SafeRuns(Front(ops), limits);
      FencedRuns(Front(ops), limits, before);
      StepFences(before, Last(ops), limits);
      FenceStepKeeps(before, s);
    }
  }

  /** A commit is refused as stale exactly below the high-water, and then no table and no journal changes. */
  lemma StaleCommitInert(s: State, u: Id, mat: Material, now: nat, fault: Fault)
    requires u in s.uploads
    ensures CommitTxn(s, u, mat, now, fault).reply == Err(StaleFencing) <==>
            s.uploads[u].fence.Some? && s.uploads[u].ticket in s.ix.fences
            && s.uploads[u].fence.value < s.ix.fences[s.uploads[u].ticket]
    ensures CommitTxn(s, u, mat, now, fault).reply == Err(StaleFencing) ==>
            CommitTxn(s, u, mat, now, fault).after == s.(next := s.next + 1)
  {
    hide Clashes, CommitIndex;
  }

  lemma PendingIsTxn(s: State, op: Op, limits: Limits)
    requires op.DoCommit? && op.u in s.uploads && s.uploads[op.u].status.Pending?
    requires Commit(s, op.p, op.u, op.mat, op.now, limits, op.fault).reply.Ok?
    ensures s.uploads[op.u].createdBy == op.p.sub
    ensures Commit(s, op.p, op.u, op.mat, op.now, limits, op.fault) == CommitTxn(s, op.u, op.mat, op.now, op.fault)
  {
  }

  // ----- what a replay does to the high-waters -------------------------------------------------------------------

  ghost predicate FencesRise(a: map<Ticket, nat>, b: map<Ticket, nat>) {
    forall t | t in a :: t in b && a[t] <= b[t]
  }

  /** All tokens, rolled back or not, are within the high-waters. */
  ghost predicate AllBelow(fences: map<Ticket, nat>, lines: seq<Event>) {
    forall i, t: Ticket | 0 <= i < |lines| && Carries(lines[i], t) ::
           t in fences && lines[i].row.fence.value <= fences[t]
  }

  ghost predicate Carried(lines: seq<Event>, t: Ticket, token: nat) {
    exists i | 0 <= i < |lines| :: Carries(lines[i], t) && lines[i].row.fence.value == token
  }

  /** The larger of the table's high-water and the tokens the lines carry. */
  ghost predicate ReplayedFences(replayed: map<Ticket, nat>, fences: map<Ticket, nat>, lines: seq<Event>) {
    && FencesRise(fences, replayed) && AllBelow(replayed, lines)
    && (forall t | t in replayed :: (t in fences && replayed[t] == fences[t]) || Carried(lines, t, replayed[t]))
  }

  lemma NextFences(f: Index, e: Event)
    requires ApplyEvent(f, e).Some?
    ensures ApplyEvent(f, e).value.fences ==
            if e.VersionCommitted? then RaiseFence(f.fences, e.row.ticket, e.row.fence) else f.fences
  {
    hide Clashes, NameTaken, CurrentSeq, RefCount, RaiseFence;
  }

  lemma BelowAppend(a: map<Ticket, nat>, b: map<Ticket, nat>, lines: seq<Event>, e: Event)
    requires AllBelow(a, lines) && FencesRise(a, b) && AllBelow(b, [e])
    ensures AllBelow(b, lines + [e])
  {
    assert [e][0] == e;
  }

  lemma RaisedBelow(before: map<Ticket, nat>, after: map<Ticket, nat>, lines: seq<Event>, e: Event)
    requires after == if e.VersionCommitted? then RaiseFence(before, e.row.ticket, e.row.fence) else before
    requires AllBelow(before, lines)
    ensures AllBelow(after, lines + [e]) && FencesRise(before, after)
  {
    assert AllBelow(after, [e]);
    BelowAppend(before, after, lines, e);
  }

  lemma CarriedAppend(lines: seq<Event>, e: Event, t: Ticket, token: nat)
    ensures Carried(lines + [e], t, token) <==>
            Carried(lines, t, token) || (Carries(e, t) && e.row.fence.value == token)
  {
    var after := lines + [e];
    assert after[|lines|] == e;
    if Carried(lines, t, token) {
      var i :| 0 <= i < |lines| && Carries(lines[i], t) && lines[i].row.fence.value == token;
      assert after[i] == lines[i];
    }
  }

  lemma NextReplayedFences(f: Index, ix: Index, lines: seq<Event>, e: Event)
    requires ReplayedFences(f.fences, ix.fences, lines) && ApplyEvent(f, e).Some?
    ensures ReplayedFences(ApplyEvent(f, e).value.fences, ix.fences, lines + [e])
  {
    NextFences(f, e);
    var g := ApplyEvent(f, e).value;
    hide ApplyEvent, Carried, AllBelow;
    RaisedBelow(f.fences, g.fences, lines, e);
    forall t | t in g.fences
      ensures (t in ix.fences && g.fences[t] == ix.fences[t]) || Carried(lines + [e], t, g.fences[t])
    {
      CarriedAppend(lines, e, t, g.fences[t]);
    }
  }

  lemma {:induction false} ReplayFences(ix: Index, lines: seq<Event>)
    requires ReplayLines(ix, lines).Some?
    ensures ReplayedFences(ReplayLines(ix, lines).value.fences, ix.fences, lines)
  {
    if lines != [] {
      hide ApplyEvent, ReplayedFences;
      ReplayFences(ix, Front(lines));
      NextReplayedFences(ReplayLines(ix, Front(lines)).value, ix, Front(lines), Last(lines));
      assert Front(lines) + [Last(lines)] == lines;
    }
  }
}
