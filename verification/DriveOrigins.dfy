/**
 * Where every session and every version row comes from, over every run whatever: a session remembers the registration
 * that opened it, and a row, also one a boot brought back, the registration of its session and the commit that made it
 * (apps/drive/src/storage/store.ts, register and commit; maintenance.ts, rebuildIndex).
 */
module DriveOrigins {
  import opened Prelude
  import opened DriveIndex
  import opened DriveMachine
  import opened DriveRuns
  import opened DriveLive
  import opened DriveFacts
  import opened DriveAlways
  import opened DriveSessions
  import opened DriveAnswers

  // ----- sessions ------------------------------------------------------------------------------------------------

  /** Everything a session was registered with. */
  predicate SameIntent(a: Upload, b: Upload) {
    && a.createdBy == b.createdBy && a.op == b.op && a.ticket == b.ticket && a.name == b.name && a.note == b.note
    && a.fence == b.fence && a.hint == b.hint && a.expected == b.expected && a.artifact == b.artifact
  }

  ghost predicate KeepsIntents(s: State, t: State) {
    forall u | u in s.uploads :: u in t.uploads && SameIntent(t.uploads[u], s.uploads[u])
  }

  lemma CommitIntents(s: State, p: Principal, u: Id, mat: Material, now: nat, limits: Limits, fault: Fault)
    ensures KeepsIntents(s, Commit(s, p, u, mat, now, limits, fault).after)
    ensures Commit(s, p, u, mat, now, limits, fault).after.uploads.Keys == s.uploads.Keys
  {
    hide Clashes, Commit, CommitTxn;
    if Commit(s, p, u, mat, now, limits, fault).after != s {
      CommitIsTxn(s, p, u, mat, now, limits, fault);
      CommitEffect(s, u, mat, now, fault);
    }
  }

  /** Everything but registering opens no session and keeps what all were registered with. */
  lemma StepIntents(s: State, op: Op, limits: Limits)
    requires !op.DoRegister?
    ensures KeepsIntents(s, Step(s, op, limits)) && Step(s, op, limits).uploads.Keys == s.uploads.Keys
  {
    if op.DoCommit? {
      hide Commit, KeepsIntents;
      CommitIntents(s, op.p, op.u, op.mat, op.now, limits, op.fault);
    } else if op.DoDelete? || op.DoRestore? || op.DoCollect? || op.DoReboot? {
      hide Step;
      TablesSettle(s, op, limits);
    } else if op.DoCrash? {
      hide Crashed, Commit, Delete, Restore;
      if Interruptible(op.inner) {
        CrashSessions(s, Step(s, op.inner, limits), op.moved);
      }
    } else {
      hide Step;
      SessionIntents(s, op, limits);
    }
  }

  lemma SessionIntents(s: State, op: Op, limits: Limits)
    requires op.DoStage? || op.DoCharge? || op.DoTouch? || op.DoAbort? || op.DoExpire? || op.DoSweep?
    ensures KeepsIntents(s, Step(s, op, limits)) && Step(s, op, limits).uploads.Keys == s.uploads.Keys
  {
    hide Register, Commit, Delete, Restore, Collect, Reboot, Crashed, Release, Balance, Overdue, DeadUploads;
  }

  /** A registration leaves all sessions alone and opens at most the one it answers with. */
  lemma RegisterIntents(s: State, op: Op, limits: Limits)
    requires op.DoRegister? && SessionsMinted(s)
    ensures KeepsIntents(s, Step(s, op, limits))
    ensures forall u | u in Step(s, op, limits).uploads && u !in s.uploads ::
              && Looked(s, op.p, op.intent, op.found, op.session)
              && Registers(s, op, limits, Step(s, op, limits).uploads[u].artifact, u)
              && Told(op, Step(s, op, limits).uploads[u])
  {
    if Looked(s, op.p, op.intent, op.found, op.session) {
      RegisterAnswers(s, op.p, op.intent, op.found, op.session, op.now, limits);
      hide Looked, Register, GoodIntent, NoEcho, HasOperation, PendingCount, Resolves, Echoed;
    }
  }

  /** The registration answers with this artifact and this session. */
  ghost predicate Registers(s: State, op: Op, limits: Limits, a: Id, u: Id) {
    && op.DoRegister? && Looked(s, op.p, op.intent, op.found, op.session)
    && Register(s, op.p, op.intent, op.found, op.session, op.now, limits).reply == Ok(Registration(a, u))
  }

  /** The session is as this registration asked for it. */
  ghost predicate Told(op: Op, up: Upload) {
    && op.DoRegister? && GoodIntent(op.intent)
    && up.createdBy == op.p.sub && up.op == op.intent.op && up.ticket == op.intent.ticket && up.name == op.intent.name
    && up.note == op.intent.note && up.hint == op.intent.hint && up.expected == op.intent.expected
    && Echoed(op.p, op.intent.echo, up.fence)
  }

  /** Operation `i` opened the session, which is still as it asked. */
  ghost predicate OpenedBy(ops: seq<Op>, limits: Limits, i: nat, u: Id, up: Upload)
    requires i < |ops|
  {
    && u !in Run(ops[..i], limits).uploads
    && Registers(Run(ops[..i], limits), ops[i], limits, up.artifact, u)
    && Told(ops[i], up)
  }

  lemma StillOpenedBy(ops: seq<Op>, limits: Limits, i: nat, u: Id, was: Upload, up: Upload)
    requires ops != [] && i < |ops| - 1 && OpenedBy(Front(ops), limits, i, u, was) && SameIntent(up, was)
    ensures OpenedBy(ops, limits, i, u, up)
  {
    assert Front(ops)[..i] == ops[..i] && Front(ops)[i] == ops[i];
    hide Run, Registers, Echoed, GoodIntent;
  }

  /** Every session of every run was opened by a registration of that run and is as that one asked for. */
  lemma {:induction false} SessionOrigin(ops: seq<Op>, limits: Limits, u: Id)
    requires u in Run(ops, limits).uploads
    ensures exists i :: 0 <= i < |ops| && OpenedBy(ops, limits, i, u, Run(ops, limits).uploads[u])
  {
    if ops == [] {
    } else {
      hide Step, Registers, Told, SessionsMinted, WithinLimits, SessionsUnique, SameIntent;
      var before, op := Run(Front(ops), limits), Last(ops);
      assert Front(ops) == ops[..|ops| - 1];
      LimitsHold(Front(ops), limits, before);
      if op.DoRegister? {
        RegisterIntents(before, op, limits);
      } else {
        StepIntents(before, op, limits);
        assert u in before.uploads.Keys;
      }
      if u in before.uploads {
        SessionOrigin(Front(ops), limits, u);
        var i :| 0 <= i < |Front(ops)| && OpenedBy(Front(ops), limits, i, u, before.uploads[u]);
        StillOpenedBy(ops, limits, i, u, before.uploads[u], Run(ops, limits).uploads[u]);
      } else {
        assert OpenedBy(ops, limits, |ops| - 1, u, Run(ops, limits).uploads[u]);
      }
    }
  }

  lemma {:induction false} IntentsStay(pre: seq<Op>, post: seq<Op>, limits: Limits)
    ensures KeepsIntents(Run(pre, limits), Run(pre + post, limits))
  {
    if post == [] {
      assert pre + post == pre;
    } else {
      hide Step, SessionsMinted, WithinLimits, SessionsUnique, Registers, Told;
      var before := pre + Front(post);
      assert Front(pre + post) == before && Last(pre + post) == Last(post);
      IntentsStay(pre, Front(post), limits);
      LimitsHold(before, limits, Run(before, limits));
      if Last(post).DoRegister? {
        RegisterIntents(Run(before, limits), Last(post), limits);
      } else {
        StepIntents(Run(before, limits), Last(post), limits);
      }
    }
  }

  // ----- committed lines -----------------------------------------------------------------------------------------

  /** The operation itself, or the one a crash interrupts. */
  function Tried(op: Op): Op { if op.DoCrash? then op.inner else op }

  /** Every column of the row but its number and place, in the words of the two requests that made it. */
  ghost predicate RowTold(reg: Op, com: Op, row: VersionRow, limits: Limits) {
    && reg.DoRegister? && com.DoCommit? && GoodIntent(reg.intent) && com.p.sub == reg.p.sub
    && row.ticket == reg.intent.ticket && row.note == reg.intent.note && row.createdBy == reg.p.sub
    && row.op == ClientOp(reg.intent.op) && Echoed(reg.p, reg.intent.echo, row.fence)
    && row.sha == Some(com.mat.sha) && row.mime == com.mat.mime && row.size == com.mat.size
    && row.name == com.mat.originalName && row.createdAt == com.now
    && (reg.intent.expected == None || reg.intent.expected.value == "" || reg.intent.expected.value == com.mat.sha)
    && (Executable(com.mat.mime) ==> limits.allowExecutables)
  }

  /** Two operations of the run, one behind the other, made the row. */
  ghost predicate MadeBy(ops: seq<Op>, limits: Limits, row: VersionRow) {
    exists i, k | 0 <= i < k < |ops| :: RowTold(ops[i], Tried(ops[k]), row, limits)
  }

  lemma StillMadeBy(ops: seq<Op>, limits: Limits, row: VersionRow)
    requires ops != [] && MadeBy(Front(ops), limits, row)
    ensures MadeBy(ops, limits, row)
  {
    var i, k :| 0 <= i < k < |Front(ops)| && RowTold(Front(ops)[i], Tried(Front(ops)[k]), row, limits);
    assert ops[i] == Front(ops)[i] && ops[k] == Front(ops)[k];
  }

  /** The line a commit may have added is the row of its session and its material, past the guards. */
  ghost predicate LineMade(s: State, c: Op, e: Event, limits: Limits) {
    e.VersionCommitted? ==>
      && c.DoCommit? && c.u in s.uploads && s.uploads[c.u].createdBy == c.p.sub
      && e.row == NewRow(s.ix, s.uploads[c.u], c.mat, c.now).Journaled()
      && (Executable(c.mat.mime) ==> limits.allowExecutables) && !OtherDigest(s.uploads[c.u], c.mat.sha)
  }

  lemma CommitLinesMade(s: State, c: Op, limits: Limits)
    requires c.DoCommit?
    ensures var t := Commit(s, c.p, c.u, c.mat, c.now, limits, c.fault).after;
            s.journal <= t.journal && forall i | |s.journal| <= i < |t.journal| :: LineMade(s, c, t.journal[i], limits)
  {
    hide Clashes, Commit, CommitTxn, MaxSeq, NewRow;
    if Commit(s, c.p, c.u, c.mat, c.now, limits, c.fault).after != s {
      CommitGuards(s, c, limits);
      CommitIsTxn(s, c.p, c.u, c.mat, c.now, limits, c.fault);
      CommitEffect(s, c.u, c.mat, c.now, c.fault);
      if CommitTxn(s, c.u, c.mat, c.now, c.fault).reply.Err? {
        FailedCommitLines(s, c.u, c.mat, c.now, c.fault);
      }
    }
  }

  lemma CommitGuards(s: State, c: Op, limits: Limits)
    requires c.DoCommit? && Commit(s, c.p, c.u, c.mat, c.now, limits, c.fault).after != s
    ensures c.u in s.uploads && s.uploads[c.u].createdBy == c.p.sub
    ensures (Executable(c.mat.mime) ==> limits.allowExecutables) && !OtherDigest(s.uploads[c.u], c.mat.sha)
  {
    CommitAnswers(s, c.p, c.u, c.mat, c.now, limits, c.fault);
    hide Commit, BelowHighWater, OperationRow, CannotPlace, Commits;
  }

  lemma StepLinesMade(s: State, op: Op, limits: Limits)
    ensures var t := Step(s, op, limits);
            s.journal <= t.journal && forall i | |s.journal| <= i < |t.journal| ::
              LineMade(s, Tried(op), t.journal[i], limits)
    decreases op
  {
    StepGrows(s, op, limits);
    hide Commit, Delete, Restore, Collect, Register, LineMade, Crashed, Grows;
    if op.DoCommit? {
      CommitLinesMade(s, op, limits);
    } else if op.DoCrash? {
      if Interruptible(op.inner) {
        hide Step;
        StepLinesMade(s, op.inner, limits);
        CrashLines(s, op, limits);
      }
    } else {
      hide Step;
      NoCommitLines(s, op, limits);
      forall i | |s.journal| <= i < |Step(s, op, limits).journal|
        ensures LineMade(s, Tried(op), Step(s, op, limits).journal[i], limits)
      {
        NothingMade(s, Tried(op), Step(s, op, limits).journal[i], limits);
      }
    }
  }

  lemma NothingMade(s: State, c: Op, e: Event, limits: Limits)
    requires !e.VersionCommitted?
    ensures LineMade(s, c, e, limits)
  {
  }

  lemma CrashLines(s: State, op: Op, limits: Limits)
    requires op.DoCrash? && Interruptible(op.inner)
    ensures var t := Step(s, op.inner, limits);
            s.journal <= t.journal && Step(s, op, limits).journal == s.journal + Survivors(s, t)
  {
    StepGrows(s, op.inner, limits);
    CrashIs(s, op.inner, op.moved, limits);
    hide Step, Crashed;
    var t := Step(s, op.inner, limits);
    CrashIsBoot(s, t, op.moved);
    TornLines(s, t);
  }

  lemma NoCommitLines(s: State, op: Op, limits: Limits)
    requires !op.DoCommit? && !op.DoCrash?
    ensures forall i | |s.journal| <= i < |Step(s, op, limits).journal| ::
            !Step(s, op, limits).journal[i].VersionCommitted?
    ensures s.journal <= Step(s, op, limits).journal
  {
    match op {
      case DoRegister(_, _, _, _, _) => RegisterJournal(s, op, limits);
      case DoDelete(_, _, _) => hide Clashes, MaxSeq;
      case DoRestore(_, _) =>
      case DoCollect(_) => hide PurgeChains, Unreferenced;
      case DoReboot => hide Rebuild;
      case _ =>
        hide Step;
        SessionOpsQuiet(s, op, limits);
    }
  }

  lemma RegisterJournal(s: State, op: Op, limits: Limits)
    requires op.DoRegister?
    ensures Step(s, op, limits).journal == s.journal
  {
    hide Looked, WellFormed, NormalizeFence, PendingOf;
  }

  /** Such a line's row is told by the registration of its session and this commit. */
  lemma LineTold(ops: seq<Op>, limits: Limits, e: Event)
    requires ops != [] && e.VersionCommitted? && LineMade(Run(Front(ops), limits), Tried(Last(ops)), e, limits)
    ensures MadeBy(ops, limits, e.row)
  {
    var s, c := Run(Front(ops), limits), Tried(Last(ops));
    SessionOrigin(Front(ops), limits, c.u);
    hide Run, Registers, MaxSeq;
    var i :| 0 <= i < |Front(ops)| && OpenedBy(Front(ops), limits, i, c.u, s.uploads[c.u]);
    assert Told(ops[i], s.uploads[c.u]);
    assert RowTold(ops[i], Tried(ops[|ops| - 1]), e.row, limits);
  }

  lemma {:induction false} LinesMadeBy(ops: seq<Op>, limits: Limits)
    ensures forall j | 0 <= j < |Run(ops, limits).journal| && Run(ops, limits).journal[j].VersionCommitted? ::
              MadeBy(ops, limits, Run(ops, limits).journal[j].row)
  {
    if ops != [] {
      hide Step, MadeBy, LineMade;
      var s, t := Run(Front(ops), limits), Run(ops, limits);
      LinesMadeBy(Front(ops), limits);
      StepLinesMade(s, Last(ops), limits);
      forall j | 0 <= j < |t.journal| && t.journal[j].VersionCommitted?
        ensures MadeBy(ops, limits, t.journal[j].row)
      {
        if j < |s.journal| {
          assert t.journal[j] == s.journal[j];
          StillMadeBy(ops, limits, s.journal[j].row);
        } else {
          LineTold(ops, limits, t.journal[j]);
        }
      }
    }
  }

  // ----- rows ----------------------------------------------------------------------------------------------------

  ghost predicate Lined(lines: seq<Event>, v: Id) {
    exists j | 0 <= j < |lines| :: IsLineOf(lines[j], v)
  }

  ghost predicate BytesLined(s: State) {
    forall v | v in s.ix.versions && s.ix.versions[v].sha.Some? :: Lined(s.journal, v)
  }

  lemma LinedLater(lines: seq<Event>, after: seq<Event>, v: Id)
    requires Lined(lines, v) && lines <= after
    ensures Lined(after, v)
  {
    var j :| 0 <= j < |lines| && IsLineOf(lines[j], v);
    assert after[j] == lines[j];
  }

  /** Rows of before, or with their line. */
  lemma NewLined(s: State, t: State)
    requires BytesLined(s) && s.journal <= t.journal
    requires forall v | v in t.ix.versions && t.ix.versions[v].sha.Some? ::
               Lined(t.journal, v) || (v in s.ix.versions && s.ix.versions[v].sha.Some?)
    ensures BytesLined(t)
  {
    forall v | v in t.ix.versions && t.ix.versions[v].sha.Some?
      ensures Lined(t.journal, v)
    {
      if v in s.ix.versions && s.ix.versions[v].sha.Some? {
        LinedLater(s.journal, t.journal, v);
      }
    }
  }

  lemma CommitLined(s: State, p: Principal, u: Id, mat: Material, now: nat, limits: Limits, fault: Fault)
    requires BytesLined(s)
    ensures BytesLined(Commit(s, p, u, mat, now, limits, fault).after)
  {
    hide Clashes, Commit, CommitTxn, MaxSeq, AddRef, RaiseFence;
    var t := Commit(s, p, u, mat, now, limits, fault).after;
    if t != s {
      CommitIsTxn(s, p, u, mat, now, limits, fault);
      CommitEffect(s, u, mat, now, fault);
      if CommitTxn(s, u, mat, now, fault).reply.Err? {
        FailedCommitLines(s, u, mat, now, fault);
      } else {
        assert IsLineOf(t.journal[|s.journal|], s.next);
      }
      NewLined(s, t);
    }
  }

  lemma PlainLined(s: State, op: Op, limits: Limits)
    requires BytesLined(s) && BootFree(op) && !op.DoCommit?
    ensures BytesLined(Step(s, op, limits))
  {
    StepGrows(s, op, limits);
    PlainRows(s, op, limits);
    hide Step;
    NewLined(s, Step(s, op, limits));
  }

  /** No byte-holding row is new. */
  ghost predicate NoNewBytes(s: State, t: State) {
    forall v | v in t.ix.versions && t.ix.versions[v].sha.Some? :: v in s.ix.versions && s.ix.versions[v].sha.Some?
  }

  lemma DeleteRows(s: State, p: Principal, a: Id, now: nat)
    ensures NoNewBytes(s, Delete(s, p, a, now).after)
  {
    hide Clashes, MaxSeq;
  }

  lemma CollectRows(s: State, order: seq<Sha>)
    ensures NoNewBytes(s, Collect(s, order))
  {
    hide RefCount, MarkedChains;
  }

  lemma PlainRows(s: State, op: Op, limits: Limits)
    requires BootFree(op) && !op.DoCommit?
    ensures NoNewBytes(s, Step(s, op, limits))
  {
    hide Delete, Collect;
    match op {
      case DoRegister(_, _, _, _, _) =>
        hide Step;
        RegisterVersions(s, op, limits);
      case DoDelete(p, a, now) => DeleteRows(s, p, a, now);
      case DoRestore(_, _) =>
      case DoCollect(order) => CollectRows(s, order);
      case _ =>
        hide Step;
        SessionOpsQuiet(s, op, limits);
    }
  }

  lemma RegisterVersions(s: State, op: Op, limits: Limits)
    requires op.DoRegister?
    ensures Step(s, op, limits).ix.versions == s.ix.versions
  {
    hide Looked, WellFormed, NormalizeFence, PendingOf;
  }

  lemma BootLined(s: State)
    requires BytesLined(s)
    ensures BytesLined(Reboot(s))
  {
    hide ReplayLines;
    if ReplayLines(s.ix, s.journal).Some? {
      ReplaySourced(s.ix, s.journal);
      var f := ReplayLines(s.ix, s.journal).value;
      forall v | v in f.versions && f.versions[v].sha.Some?
        ensures Lined(s.journal, v)
      {
        assert RowSourced(f, s.ix, s.journal, v);
      }
    }
  }

  lemma CrashLined(s: State, op: Op, limits: Limits)
    requires BytesLined(s) && op.DoCrash? && Interruptible(op.inner)
    ensures BytesLined(Step(s, op, limits))
  {
    StepGrows(s, op.inner, limits);
    CrashIs(s, op.inner, op.moved, limits);
    hide Step, Crashed, Torn, Reboot;
    var t := Step(s, op.inner, limits);
    CrashIsBoot(s, t, op.moved);
    TornLines(s, t);
    NewLined(s, Torn(s, t));
    BootLined(Torn(s, t));
  }

  lemma {:induction false} BytesLinedRuns(ops: seq<Op>, limits: Limits)
    ensures BytesLined(Run(ops, limits))
  {
    if ops != [] {
      var s, op := Run(Front(ops), limits), Last(ops);
      hide BytesLined, Commit, Reboot, Delete, Restore, Collect, Register, Crashed;
      BytesLinedRuns(Front(ops), limits);
      if op.DoCommit? {
        CommitLined(s, op.p, op.u, op.mat, op.now, limits, op.fault);
      } else if op.DoReboot? {
        BootLined(s);
      } else if op.DoCrash? {
        if Interruptible(op.inner) {
          hide Step;
          CrashLined(s, op, limits);
        }
      } else {
        hide Step;
        PlainLined(s, op, limits);
      }
    }
  }

  /**
   * Every byte-holding row of every run, brought back by a boot or not, was made by two requests of that run: a commit,
   * interrupted or not, of a session the same subject had registered before.  Its columns are theirs, its token is the
   * integer an agent echoed, its digest is the one announced, and it is no executable unless those are allowed.
   */
  lemma RowOrigin(ops: seq<Op>, limits: Limits, s: State, v: Id)
    requires s == Run(ops, limits) && v in s.ix.versions && s.ix.versions[v].sha != None
    ensures MadeBy(ops, limits, s.ix.versions[v].Journaled())
  {
    BytesLinedRuns(ops, limits);
    LinesMadeBy(ops, limits);
    FactsRuns(ops, limits);
    hide Run, MadeBy, Sound, LinesWhole, NamesTold, PointersTold;
    assert Lined(s.journal, v);
    var j :| 0 <= j < |s.journal| && IsLineOf(s.journal[j], v);
    assert s.ix.versions[v].Journaled() == s.journal[j].row;
  }

  /**
   * An agent is fenced by what it echoed.  Whatever happened since it opened a session, a commit of that session that
   * gets as far as the fence is refused as stale exactly if the ticket's high-water is above the echo, and a version it
   * does commit carries the echo and leaves the high-water no lower.
   */
  lemma EchoFences(pre: seq<Op>, reg: Op, post: seq<Op>, limits: Limits, s: State, u: Id, com: Op)
    requires reg.DoRegister? && reg.p.kind == Agent && s == Run(pre + [reg] + post, limits)
    requires u !in Run(pre, limits).uploads && u in Run(pre + [reg], limits).uploads
    requires com.DoCommit? && com.u == u
    ensures reg.intent.echo.Integer? && reg.intent.echo.n >= 0 && u in s.uploads
    ensures var out, ticket := Commit(s, com.p, u, com.mat, com.now, limits, com.fault), reg.intent.ticket;
            && (s.uploads[u].status == Pending && com.p.sub == reg.p.sub
                && (Executable(com.mat.mime) ==> limits.allowExecutables) && !OtherDigest(s.uploads[u], com.mat.sha) ==>
                  (out.reply == Err(StaleFencing) <==>
                   ticket in s.ix.fences && s.ix.fences[ticket] > reg.intent.echo.n))
            && (s.uploads[u].status == Pending && out.reply.Ok? ==>
                  && s.next in out.after.ix.versions
                    && out.after.ix.versions[s.next].fence == Some(reg.intent.echo.n as nat)
                  && ticket in out.after.ix.fences && out.after.ix.fences[ticket] >= reg.intent.echo.n)
  {
    hide Run, Commit;
    RegisteredEcho(pre, reg, limits, u);
    IntentsStay(pre + [reg], post, limits);
    CommitAnswers(s, com.p, u, com.mat, com.now, limits, com.fault);
    hide OperationRow, CannotPlace, OtherDigest, Executable;
    if s.uploads[u].status == Pending && Commit(s, com.p, u, com.mat, com.now, limits, com.fault).reply.Ok? {
      CommitRaises(s, com, limits);
    }
  }

  lemma RegisteredEcho(pre: seq<Op>, reg: Op, limits: Limits, u: Id)
    requires reg.DoRegister? && u !in Run(pre, limits).uploads && u in Run(pre + [reg], limits).uploads
    ensures Told(reg, Run(pre + [reg], limits).uploads[u])
  {
    RunStep(pre, reg, limits);
    LimitsHold(pre, limits, Run(pre, limits));
    hide Run, Step, Told, Registers, WithinLimits, SessionsUnique;
    RegisterIntents(Run(pre, limits), reg, limits);
  }

  lemma CommitRaises(s: State, com: Op, limits: Limits)
    requires com.DoCommit? && com.u in s.uploads && s.uploads[com.u].status.Pending?
    requires Commit(s, com.p, com.u, com.mat, com.now, limits, com.fault).reply.Ok?
    ensures var t, up := Commit(s, com.p, com.u, com.mat, com.now, limits, com.fault).after, s.uploads[com.u];
            up.fence.Some? ==> up.ticket in t.ix.fences && t.ix.fences[up.ticket] >= up.fence.value
  {
    hide Clashes, MaxSeq, AddRef, Commits;
    CommitAnswers(s, com.p, com.u, com.mat, com.now, limits, com.fault);
    hide CommitTxn;
    CommitEffect(s, com.u, com.mat, com.now, com.fault);
  }
}
