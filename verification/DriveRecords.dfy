/**
 * A committed session is absorbing over every run whatever, crashes, boots, I/O faults and collections included
 * (apps/drive/src/storage/store.ts, commit).
 */
module DriveRecords {
  import opened Prelude
  import opened DriveIndex
  import opened DriveMachine
  import opened DriveRuns
  import opened DriveLive
  import opened DriveFacts
  import opened DriveFencing
  import opened DriveAlways
  import opened DriveSessions

  // ----- what a committed session leaves for good -----------------------------------------------------------------

  ghost predicate SessionHeld(uploads: map<Id, Upload>, u: Id, sub: Sub, v: Id) {
    u in uploads && uploads[u].createdBy == sub && uploads[u].status.Committed? && uploads[u].result == Some(v)
  }

  /** While the version's row is in the table it says what the receipt says. */
  ghost predicate RowHeld(versions: map<Id, VersionRow>, r: Receipt) {
    r.version in versions ==> ReceiptOf(r.version, versions[r.version]) == r
  }

  /** No line takes the version back, and the lines that commit it say what the receipt says. */
  ghost predicate LinesHeld(lines: seq<Event>, r: Receipt) {
    forall i | 0 <= i < |lines| && About(lines[i], r.version) ::
      lines[i].VersionCommitted? && ReceiptOf(r.version, lines[i].row) == r
  }

  ghost predicate Held(s: State, u: Id, sub: Sub, r: Receipt) {
    SessionHeld(s.uploads, u, sub, r.version) && RowHeld(s.ix.versions, r) && LinesHeld(s.journal, r)
      && r.version < s.next
  }

  lemma HeldReplays(s: State, p: Principal, u: Id, mat: Material, now: nat, limits: Limits, fault: Fault, r: Receipt)
    requires Held(s, u, p.sub, r)
    ensures Commit(s, p, u, mat, now, limits, fault) ==
            Outcome(s, if r.version in s.ix.versions then Ok(r) else Err(Internal))
  {
  }

  // ----- replays keep it --------------------------------------------------------------------------------------------

  lemma ApplyHolds(f: Index, e: Event, r: Receipt)
    requires RowHeld(f.versions, r) && LinesHeld([e], r) && ApplyEvent(f, e).Some?
    ensures RowHeld(ApplyEvent(f, e).value.versions, r)
    ensures r.version in f.versions ==> r.version in ApplyEvent(f, e).value.versions
  {
    hide Clashes, NameTaken, CurrentSeq, RaiseFence, RefCount;
    assert [e][0] == e;
  }

  lemma {:induction false} ReplayHolds(ix: Index, lines: seq<Event>, r: Receipt)
    requires RowHeld(ix.versions, r) && LinesHeld(lines, r) && ReplayLines(ix, lines).Some?
    ensures RowHeld(ReplayLines(ix, lines).value.versions, r)
    ensures r.version in ix.versions ==> r.version in ReplayLines(ix, lines).value.versions
  {
    if lines != [] {
      hide ApplyEvent, RowHeld;
      ReplayHolds(ix, Front(lines), r);
      ApplyHolds(ReplayLines(ix, Front(lines)).value, Last(lines), r);
    }
  }

  lemma BootHolds(s: State, r: Receipt)
    requires RowHeld(s.ix.versions, r) && LinesHeld(s.journal, r)
    ensures RowHeld(Reboot(s).ix.versions, r)
    ensures r.version in s.ix.versions ==> r.version in Reboot(s).ix.versions
  {
    hide ReplayLines, RowHeld, LinesHeld;
    if ReplayLines(s.ix, s.journal).Some? {
      ReplayHolds(s.ix, s.journal, r);
    }
  }

  // ----- every step keeps it -------------------------------------------------------------------------------------

  lemma LinesStayHeld(s: State, t: State, r: Receipt)
    requires Grows(s, t) && LinesHeld(s.journal, r) && r.version < s.next
    ensures LinesHeld(t.journal, r) && r.version < t.next
  {
    forall i | 0 <= i < |t.journal| && About(t.journal[i], r.version)
      ensures t.journal[i].VersionCommitted? && ReceiptOf(r.version, t.journal[i].row) == r
    {
      assert i < |s.journal| && t.journal[i] == s.journal[i];
    }
  }

  lemma RowsAppendHeld(s: State, t: State, r: Receipt)
    requires RowsAppendOnly(s, t) && RowHeld(s.ix.versions, r) && r.version < s.next
    ensures RowHeld(t.ix.versions, r)
  {
  }

  /** A committed session stays committed, with its owner and result. */
  ghost predicate CommittedStay(a: map<Id, Upload>, b: map<Id, Upload>) {
    forall u | u in a && a[u].status.Committed? ::
      u in b && b[u].status.Committed? && b[u].createdBy == a[u].createdBy && b[u].result == a[u].result
  }

  lemma CommitSessionsStay(s: State, p: Principal, u: Id, mat: Material, now: nat, limits: Limits, fault: Fault)
    ensures CommittedStay(s.uploads, Commit(s, p, u, mat, now, limits, fault).after.uploads)
  {
    hide Clashes, Commit, CommitTxn;
    if Commit(s, p, u, mat, now, limits, fault).after != s {
      CommitIsTxn(s, p, u, mat, now, limits, fault);
      CommitEffect(s, u, mat, now, fault);
    }
  }

  lemma SessionOpsStay(s: State, op: Op, limits: Limits)
    requires forall u | u in s.uploads :: u < s.next
    requires BootFree(op) && !op.DoCommit? && !op.DoDelete? && !op.DoRestore? && !op.DoCollect?
    ensures CommittedStay(s.uploads, Step(s, op, limits).uploads)
  {
    hide Commit, Delete, Restore, Collect, Reboot, Interrupted, WellFormed, NormalizeFence, Looked;
  }

  lemma StepSessionsStay(s: State, op: Op, limits: Limits)
    requires forall u | u in s.uploads :: u < s.next
    ensures CommittedStay(s.uploads, Step(s, op, limits).uploads)
  {
    hide CommittedStay;
    match op {
      case DoCommit(p, u, mat, now, fault) =>
        hide Commit;
        CommitSessionsStay(s, p, u, mat, now, limits, fault);
      case DoCrash(inner, moved) =>
        hide Crashed;
        CrashSessions(s, Step(s, inner, limits), moved);
        SameCommitted(s.uploads);
      case _ =>
        hide Step;
        if op.DoDelete? || op.DoRestore? || op.DoCollect? || op.DoReboot? {
          TablesSettle(s, op, limits);
          SameCommitted(s.uploads);
        } else {
          SessionOpsStay(s, op, limits);
        }
    }
  }

  lemma SameCommitted(uploads: map<Id, Upload>)
    ensures CommittedStay(uploads, uploads)
  {
  }

  lemma CommitKeepsRows(s: State, p: Principal, u: Id, mat: Material, now: nat, limits: Limits, fault: Fault)
    ensures s.ix.versions.Keys <= Commit(s, p, u, mat, now, limits, fault).after.ix.versions.Keys
  {
    hide Clashes, Commit, CommitTxn;
    if Commit(s, p, u, mat, now, limits, fault).after != s {
      CommitIsTxn(s, p, u, mat, now, limits, fault);
      CommitEffect(s, u, mat, now, fault);
    }
  }

  /** Only a collection or a boot drops version rows. */
  lemma StepKeepsRows(s: State, op: Op, limits: Limits)
    requires BootFree(op) && !op.DoCollect?
    ensures forall v | v in s.ix.versions :: v in Step(s, op, limits).ix.versions
  {
    hide Commit, Clashes, MaxSeq, Rebuild, PurgeChains, Interrupted;
    if op.DoCommit? {
      CommitKeepsRows(s, op.p, op.u, op.mat, op.now, limits, op.fault);
    }
  }

  /** The row stays as it was, and stays at all unless a collection purges it. */
  lemma StepHoldsRow(s: State, op: Op, limits: Limits, r: Receipt)
    requires RowHeld(s.ix.versions, r) && LinesHeld(s.journal, r) && r.version < s.next
    ensures RowHeld(Step(s, op, limits).ix.versions, r)
    ensures !op.DoCollect? && r.version in s.ix.versions ==> r.version in Step(s, op, limits).ix.versions
  {
    hide RowHeld, LinesHeld, Commit, Reboot, RowsAppendOnly, Grows;
    match op {
      case DoReboot => BootHolds(s, r);
      case DoCrash(inner, moved) =>
        if Interruptible(inner) {
          var t := Step(s, inner, limits);
          StepGrows(s, inner, limits);
          CrashHolds(s, t, r);
        }
      case _ =>
        StepAppends(s, op, limits);
        RowsAppendHeld(s, Step(s, op, limits), r);
        if !op.DoCollect? {
          StepKeepsRows(s, op, limits);
        }
    }
  }

  lemma CrashHolds(s: State, inner: State, r: Receipt)
    requires RowHeld(s.ix.versions, r) && LinesHeld(s.journal, r) && r.version < s.next && Grows(s, inner)
    ensures RowHeld(Interrupted(s, inner).ix.versions, r)
    ensures r.version in s.ix.versions ==> r.version in Interrupted(s, inner).ix.versions
  {
    hide RowHeld, Reboot;
    LinesStayHeld(s, inner, r);
    BootHolds(s.(journal := inner.journal[..Min(|s.journal| + 1, |inner.journal|)], next := inner.next), r);
  }

  lemma StepHolds(s: State, op: Op, limits: Limits, u: Id, sub: Sub, r: Receipt)
    requires Held(s, u, sub, r) && forall w | w in s.uploads :: w < s.next
    ensures Held(Step(s, op, limits), u, sub, r)
    ensures !op.DoCollect? && r.version in s.ix.versions ==> r.version in Step(s, op, limits).ix.versions
  {
    hide Step, RowHeld, LinesHeld, Grows;
    StepGrows(s, op, limits);
    LinesStayHeld(s, Step(s, op, limits), r);
    StepHoldsRow(s, op, limits, r);
    StepSessionsStay(s, op, limits);
    StillMinted(s, Step(s, op, limits));
  }

  lemma StillMinted(s: State, t: State)
    requires Grows(s, t)
    ensures s.next <= t.next
  {
  }

  // ----- whole runs ----------------------------------------------------------------------------------------------

  lemma {:induction false} RunHolds(pre: seq<Op>, post: seq<Op>, limits: Limits, u: Id, sub: Sub, r: Receipt)
    requires Held(Run(pre, limits), u, sub, r)
    ensures Held(Run(pre + post, limits), u, sub, r)
    ensures GcFree(post) && r.version in Run(pre, limits).ix.versions ==>
            r.version in Run(pre + post, limits).ix.versions
  {
    if post == [] {
      assert pre + post == pre;
    } else {
      hide Step, Held, WithinLimits, SessionsUnique;
      var before := pre + Front(post);
      assert Front(pre + post) == before && Last(pre + post) == Last(post);
      RunHolds(pre, Front(post), limits, u, sub, r);
      LimitsHold(before, limits, Run(before, limits));
      StepHolds(Run(before, limits), Last(post), limits, u, sub, r);
    }
  }

  /** The commit itself leaves row, line and session saying what its receipt says. */
  lemma FirstHeld(s: State, op: Op, limits: Limits, r: Receipt)
    requires JournalMinted(s) && op.DoCommit? && op.u in s.uploads && s.uploads[op.u].status.Pending?
    requires Commit(s, op.p, op.u, op.mat, op.now, limits, op.fault).reply == Ok(r)
    ensures Held(Step(s, op, limits), op.u, op.p.sub, r) && r.version in Step(s, op, limits).ix.versions
  {
    hide Commit, CommitTxn, Clashes, MaxSeq;
    PendingIsTxn(s, op, limits);
    CommitEffect(s, op.u, op.mat, op.now, op.fault);
  }

  /**
   * A committed session is absorbing.  Whatever happened since the commit was answered with a receipt, crashes, boots,
   * I/O faults and collections included, a retry by the same principal, with any material, changes nothing and is
   * answered with that receipt for as long as the version has not been purged, and as an internal error afterwards.
   * Only a collection takes the version away.
   */
  lemma CommittedAbsorbing(pre: seq<Op>, first: Op, post: seq<Op>, limits: Limits, s: State, t: State, r: Receipt,
                           mat: Material, now: nat, fault: Fault)
    requires s == Run(pre, limits) && t == Run(pre + [first] + post, limits)
    requires first.DoCommit? && first.u in s.uploads && s.uploads[first.u].status.Pending?
    requires Commit(s, first.p, first.u, first.mat, first.now, limits, first.fault).reply == Ok(r)
    ensures Commit(t, first.p, first.u, mat, now, limits, fault) ==
            Outcome(t, if r.version in t.ix.versions then Ok(r) else Err(Internal))
    ensures GcFree(post) ==> r.version in t.ix.versions
  {
    hide Run, Step, Commit, Held, Facts, JournalMinted, GcFree;
    FactsRuns(pre, limits);
    FactsMinted(s);
    FirstHeld(s, first, limits, r);
    RunStep(pre, first, limits);
    RunHolds(pre + [first], post, limits, first.u, first.p.sub, r);
    HeldReplays(t, first.p, first.u, mat, now, limits, fault, r);
  }
}
