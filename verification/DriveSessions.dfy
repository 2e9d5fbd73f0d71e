/**
 * What upload sessions and the quota ledger keep over every run whatever: crashes, boots, faults and collections
 * included (apps/drive/src/storage/store.ts, register and the quota operations).
 */
module DriveSessions {
  import opened Prelude
  import opened DriveIndex
  import opened DriveMachine
  import opened DriveRuns
  import opened DriveLive
  import opened DriveFacts

  ghost predicate SessionsMinted(s: State) {
    forall u | u in s.uploads :: u < s.next
  }

  /** No principal holds more pending sessions than the cap, and no account is past the daily quota. */
  ghost predicate WithinLimits(s: State, limits: Limits) {
    && (forall sub: Sub :: |PendingOf(s.uploads, sub)| <= limits.maxPending)
    && (forall k: Account :: Balance(s.ledger, k) <= limits.dailyQuota)
  }

  /** Sessions stay, under the same owner, operation and artifact; the pending ones among them only get fewer. */
  ghost predicate SessionsStay(a: map<Id, Upload>, b: map<Id, Upload>) {
    && (forall u | u in a ::
          && u in b && b[u].createdBy == a[u].createdBy && b[u].op == a[u].op && b[u].artifact == a[u].artifact
          && (b[u].status.Pending? ==> a[u].status.Pending?))
  }

  /** Nothing was added, and the ledger did not grow. */
  ghost predicate Settles(s: State, t: State) {
    && SessionsStay(s.uploads, t.uploads) && t.uploads.Keys == s.uploads.Keys
    && s.next <= t.next
    && forall k: Account :: Balance(t.ledger, k) <= Balance(s.ledger, k)
  }

  lemma SubsetSmaller<T>(a: set<T>, b: set<T>)
    requires a <= b
    ensures |a| <= |b|
  {
    if a != {} {
      var x :| x in a;
      SubsetSmaller(a - {x}, b - {x});
    }
  }

  lemma SettlesWithin(s: State, t: State, limits: Limits)
    requires Settles(s, t) && WithinLimits(s, limits) && SessionsUnique(s.uploads) && SessionsMinted(s)
    ensures WithinLimits(t, limits) && SessionsUnique(t.uploads) && SessionsMinted(t)
  {
    forall sub: Sub
      ensures |PendingOf(t.uploads, sub)| <= limits.maxPending
    {
      SubsetSmaller(PendingOf(t.uploads, sub), PendingOf(s.uploads, sub));
    }
    assert forall u | u in t.uploads :: u in s.uploads.Keys;
    assert forall k: Account :: Balance(t.ledger, k) <= Balance(s.ledger, k) <= limits.dailyQuota;
  }

  lemma DeleteSettles(s: State, p: Principal, a: Id, now: nat)
    ensures var t := Delete(s, p, a, now).after; t.uploads == s.uploads && t.ledger == s.ledger && s.next <= t.next
  {
    hide Clashes, MaxSeq, MarkerRow, SetPointer;
  }

  lemma TablesSettle(s: State, op: Op, limits: Limits)
    requires op.DoDelete? || op.DoRestore? || op.DoCollect? || op.DoReboot?
    ensures Step(s, op, limits).uploads == s.uploads && Step(s, op, limits).ledger == s.ledger
    ensures s.next <= Step(s, op, limits).next
  {
    hide Delete, Commit, Register, Abort, Expire, Interrupted, PurgeChains, Rebuild, Touch, Balance, Overdue;
    if op.DoDelete? {
      DeleteSettles(s, op.p, op.a, op.now);
    }
  }

  lemma ReleaseShrinks(ledger: map<Account, nat>, k: Account, delta: nat)
    ensures forall j: Account :: Balance(Release(ledger, k, delta), j) <= Balance(ledger, j)
  {
  }

  lemma AbortSettles(s: State, p: Principal, u: Id, now: nat, today: nat)
    ensures Settles(s, Abort(s, p, u, now, today).after)
  {
    hide Balance, Release;
    if u in s.uploads {
      ReleaseShrinks(s.ledger, Account(p.sub, today), s.uploads[u].staged);
    }
  }

  lemma ExpireSettles(s: State, u: Id, today: nat)
    requires u in s.uploads
    ensures Settles(s, Expire(s, u, today))
  {
    hide Balance, Release;
    ReleaseShrinks(s.ledger, Account(s.uploads[u].createdBy, today), s.uploads[u].staged);
  }

  lemma SessionSettles(s: State, op: Op, limits: Limits)
    requires op.DoStage? || op.DoTouch? || op.DoAbort? || op.DoExpire? || op.DoSweep?
    ensures Settles(s, Step(s, op, limits))
  {
    hide Commit, Register, Delete, Restore, Collect, Reboot, Interrupted, Abort, Expire, Overdue;
    match op {
      case DoAbort(p, u, now, today) => AbortSettles(s, p, u, now, today);
      case DoExpire(u, now, today) =>
        if u in s.uploads {
          ExpireSettles(s, u, today);
        }
      case _ =>
    }
  }

  /** Everything but registering, charging, committing and crashing settles. */
  lemma PlainSettles(s: State, op: Op, limits: Limits)
    requires !op.DoRegister? && !op.DoCharge? && !op.DoCommit? && !op.DoCrash?
    ensures Settles(s, Step(s, op, limits))
  {
    if op.DoDelete? || op.DoRestore? || op.DoCollect? || op.DoReboot? {
      hide Step;
      TablesSettle(s, op, limits);
    } else {
      hide Step, Settles;
      SessionSettles(s, op, limits);
    }
  }

  lemma CommitSettles(s: State, p: Principal, u: Id, mat: Material, now: nat, limits: Limits, fault: Fault)
    ensures Settles(s, Commit(s, p, u, mat, now, limits, fault).after)
  {
    hide Clashes, Commit, CommitTxn;
    if Commit(s, p, u, mat, now, limits, fault).after != s {
      CommitIsTxn(s, p, u, mat, now, limits, fault);
      CommitEffect(s, u, mat, now, fault);
    }
  }

  lemma OneMorePending(uploads: map<Id, Upload>, u: Id, up: Upload, sub: Sub)
    requires u !in uploads && up.status.Pending?
    ensures |PendingOf(uploads[u := up], sub)| == |PendingOf(uploads, sub)| + (if sub == up.createdBy then 1 else 0)
  {
    assert PendingOf(uploads[u := up], sub) == PendingOf(uploads, sub) + (if sub == up.createdBy then {u} else {});
  }

  lemma OneMoreUnique(uploads: map<Id, Upload>, u: Id, up: Upload)
    requires SessionsUnique(uploads) && u !in uploads && !HasSession(uploads, up.createdBy, up.op)
    ensures SessionsUnique(uploads[u := up])
  {
    forall w | w in uploads
      ensures !(uploads[w].createdBy == up.createdBy && uploads[w].op == up.op)
    {
      assert !SessionOf(uploads, w, up.createdBy, up.op);
    }
  }

  lemma OpenedWithin(s: State, t: State, u: Id, up: Upload, limits: Limits)
    requires WithinLimits(s, limits) && SessionsUnique(s.uploads) && SessionsMinted(s)
    requires s.next <= u < t.next && t.uploads == s.uploads[u := up] && t.ledger == s.ledger
    requires up.status.Pending? && |PendingOf(s.uploads, up.createdBy)| < limits.maxPending
    requires !HasSession(s.uploads, up.createdBy, up.op)
    ensures WithinLimits(t, limits) && SessionsUnique(t.uploads) && SessionsMinted(t)
            && SessionsStay(s.uploads, t.uploads)
  {
    hide PendingOf, SessionsUnique, HasSession, Balance;
    assert u !in s.uploads;
    OneMoreUnique(s.uploads, u, up);
    forall sub: Sub
      ensures |PendingOf(t.uploads, sub)| <= limits.maxPending
    {
      OneMorePending(s.uploads, u, up, sub);
    }
  }

  lemma RegisterWithin(s: State, p: Principal, intent: Intent, found: Option<Id>, session: Option<Id>, now: nat,
                       limits: Limits)
    requires WithinLimits(s, limits) && SessionsUnique(s.uploads) && SessionsMinted(s)
             && Looked(s, p, intent, found, session)
    ensures var t := Register(s, p, intent, found, session, now, limits).after;
            && WithinLimits(t, limits) && SessionsUnique(t.uploads) && SessionsMinted(t)
            && SessionsStay(s.uploads, t.uploads) && s.next <= t.next
  {
    hide WellFormed, NormalizeFence, NameTaken, PendingOf, WithinLimits, SessionsUnique, HasSession;
    var t := Register(s, p, intent, found, session, now, limits).after;
    if t != s {
      var u := if found.Some? then s.next else s.next + 1;
      OpenedWithin(s, t, u, t.uploads[u], limits);
    }
  }

  lemma ChargeWithin(s: State, k: Account, delta: nat, limits: Limits)
    requires WithinLimits(s, limits)
    ensures WithinLimits(Step(s, DoCharge(k, delta), limits), limits)
  {
    var t := Step(s, DoCharge(k, delta), limits);
    assert t.uploads == s.uploads;
    assert forall j: Account :: j != k ==> Balance(t.ledger, j) == Balance(s.ledger, j) <= limits.dailyQuota;
  }

  lemma CrashSettles(s: State, inner: Op, moved: bool, limits: Limits)
    requires Interruptible(inner)
    ensures Settles(s, Step(s, DoCrash(inner, moved), limits))
  {
    StepGrows(s, DoCrash(inner, moved), limits);
    CrashSessions(s, Step(s, inner, limits), moved);
    hide Crashed, Commit, Delete, Restore;
  }

  ghost predicate Kept(s: State, t: State, limits: Limits) {
    && WithinLimits(t, limits) && SessionsUnique(t.uploads) && SessionsMinted(t) && SessionsStay(s.uploads, t.uploads)
  }

  lemma StepKeepsSessions(s: State, op: Op, limits: Limits)
    requires WithinLimits(s, limits) && SessionsUnique(s.uploads) && SessionsMinted(s)
    ensures Kept(s, Step(s, op, limits), limits)
  {
    hide Commit, Register, Looked, WithinLimits, SessionsUnique, SessionsMinted, Interrupted, Delete, Restore, Collect,
      Reboot;
    match op {
      case DoRegister(p, intent, found, session, now) =>
        if Looked(s, p, intent, found, session) {
          RegisterWithin(s, p, intent, found, session, now, limits);
        }
      case DoCharge(k, delta) =>
        ChargeWithin(s, k, delta, limits);
        SameSessions(s, Step(s, op, limits));
      case DoCommit(p, u, mat, now, fault) =>
        CommitSettles(s, p, u, mat, now, limits, fault);
        SettlesWithin(s, Step(s, op, limits), limits);
      case DoCrash(inner, moved) =>
        if Interruptible(inner) {
          CrashSettles(s, inner, moved, limits);
          SettlesWithin(s, Step(s, op, limits), limits);
        }
      case _ =>
        PlainSettles(s, op, limits);
        SettlesWithin(s, Step(s, op, limits), limits);
    }
  }

  lemma SameSessions(s: State, t: State)
    requires t.uploads == s.uploads && t.next == s.next
    ensures SessionsUnique(s.uploads) ==> SessionsUnique(t.uploads)
    ensures SessionsMinted(s) ==> SessionsMinted(t)
  {
  }

  /** Over every run: the pending cap and the daily quota hold, and owner and operation id name one session. */
  lemma LimitsAlways(ops: seq<Op>, limits: Limits, s: State, sub: Sub)
    requires s == Run(ops, limits)
    ensures |set u | u in s.uploads && s.uploads[u].createdBy == sub
            && s.uploads[u].status == Pending| <= limits.maxPending
    ensures forall k | k in s.ledger :: s.ledger[k] <= limits.dailyQuota
    ensures forall u, w | u in s.uploads && w in s.uploads && u != w ::
              s.uploads[u].createdBy != s.uploads[w].createdBy || s.uploads[u].op != s.uploads[w].op
  {
    LimitsHold(ops, limits, s);
    assert PendingOf(s.uploads, sub) ==
           set u | u in s.uploads && s.uploads[u].createdBy == sub && s.uploads[u].status == Pending;
    forall k | k in s.ledger
      ensures s.ledger[k] <= limits.dailyQuota
    {
      assert Balance(s.ledger, k) <= limits.dailyQuota;
    }
  }

  lemma {:induction false} LimitsHold(ops: seq<Op>, limits: Limits, s: State)
    requires s == Run(ops, limits)
    ensures WithinLimits(s, limits) && SessionsUnique(s.uploads) && SessionsMinted(s)
  {
    if ops == [] {
      assert forall sub: Sub :: PendingOf(INIT.uploads, sub) == {};
    } else {
      hide Step, WithinLimits, SessionsUnique, SessionsMinted;
      LimitsHold(Front(ops), limits, Run(Front(ops), limits));
      StepKeepsSessions(Run(Front(ops), limits), Last(ops), limits);
    }
  }

  lemma StayTransitive(a: map<Id, Upload>, b: map<Id, Upload>, c: map<Id, Upload>)
    requires SessionsStay(a, b) && SessionsStay(b, c)
    ensures SessionsStay(a, c)
  {
  }

  lemma {:induction false} RunKeepsSessions(pre: seq<Op>, post: seq<Op>, limits: Limits)
    ensures SessionsStay(Run(pre, limits).uploads, Run(pre + post, limits).uploads)
  {
    if post == [] {
      assert pre + post == pre;
    } else {
      hide Step, WithinLimits, SessionsUnique, SessionsMinted, SessionsStay;
      var before := pre + Front(post);
      assert Front(pre + post) == before && Last(pre + post) == Last(post);
      RunKeepsSessions(pre, Front(post), limits);
      LimitsHold(before, limits, Run(before, limits));
      StepKeepsSessions(Run(before, limits), Last(post), limits);
      StayTransitive(Run(pre, limits).uploads, Run(before, limits).uploads, Run(pre + post, limits).uploads);
    }
  }

  /**
   * Registration is idempotent for good.  Whatever happened since a registration succeeded, repeating it under the
   * same subject and operation id, with any other intent that is accepted at all, answers with the same session and
   * artifact and changes nothing.
   */
  lemma RegisterIdempotent(pre: seq<Op>, first: Op, post: seq<Op>, limits: Limits, s: State, t: State,
                           reg: Registration, again: Op)
    requires s == Run(pre, limits) && t == Run(pre + [first] + post, limits)
    requires first.DoRegister? && Looked(s, first.p, first.intent, first.found, first.session)
    requires Register(s, first.p, first.intent, first.found, first.session, first.now, limits).reply == Ok(reg)
    requires again.DoRegister? && Looked(t, again.p, again.intent, again.found, again.session)
    requires again.p.sub == first.p.sub && again.intent.op == first.intent.op
    requires WellFormed(again.intent) && NormalizeFence(again.p.kind, again.intent.echo).Ok?
    ensures Register(t, again.p, again.intent, again.found, again.session, again.now, limits) == Outcome(t, Ok(reg))
  {
    hide Run, WithinLimits, WellFormed, NormalizeFence, PendingOf;
    var mid := pre + [first];
    assert Front(mid) == pre && Last(mid) == first;
    RunStep(pre, first, limits);
    RegisteredSession(s, first.p, first.intent, first.found, first.session, first.now, limits, reg);
    RunKeepsSessions(mid, post, limits);
    LimitsHold(mid + post, limits, t);
    assert SessionOf(t.uploads, reg.upload, again.p.sub, again.intent.op);
  }

  lemma RunStep(pre: seq<Op>, op: Op, limits: Limits)
    ensures Run(pre + [op], limits) == Step(Run(pre, limits), op, limits)
  {
    assert Front(pre + [op]) == pre;
  }

  lemma RegisteredSession(s: State, p: Principal, intent: Intent, found: Option<Id>, session: Option<Id>, now: nat,
                          limits: Limits, reg: Registration)
    requires Looked(s, p, intent, found, session)
    requires Register(s, p, intent, found, session, now, limits).reply == Ok(reg)
    ensures var t := Register(s, p, intent, found, session, now, limits).after;
            SessionOf(t.uploads, reg.upload, p.sub, intent.op) && t.uploads[reg.upload].artifact == reg.artifact
  {
    hide WellFormed, NormalizeFence, PendingOf, NameTaken;
  }
}
