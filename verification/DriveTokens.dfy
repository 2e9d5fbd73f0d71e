/**
 * Fencing over every run the process survives, I/O faults, collections, boots and crashes included: tokens that were
 * not rolled back never go back in the journal, and the high-water is exactly the largest token that shows
 * (apps/drive/src/storage/store.ts, enforceFencing; maintenance.ts, rebuildIndex).
 */
module DriveTokens {
  import opened Prelude
  import opened DriveIndex
  import opened DriveMachine
  import opened DriveSafety
  import opened DriveRuns
  import opened DriveLive
  import opened DriveFencing
  import opened DriveFacts
  import opened DriveAlways
  import opened DriveFaults
  import opened DriveBoots
  import opened DriveHealing

  /** Along the journal, the tokens of one ticket that were not rolled back never decrease. */
  ghost predicate AliveSorted(lines: seq<Event>) {
    forall i, k, t: Ticket | 0 <= i < k < |lines| && Alive(lines, lines[i]) && Alive(lines, lines[k])
                             && Carries(lines[i], t) && Carries(lines[k], t) ::
      lines[i].row.fence.value <= lines[k].row.fence.value
  }

  /** No token that was not rolled back is above its ticket's high-water. */
  ghost predicate TokensBelow(fences: map<Ticket, nat>, lines: seq<Event>) {
    forall i, t: Ticket | 0 <= i < |lines| && Alive(lines, lines[i]) && Carries(lines[i], t) ::
      t in fences && lines[i].row.fence.value <= fences[t]
  }

  ghost predicate NoneAlive(all: seq<Event>, more: seq<Event>) {
    forall e | e in more :: !Alive(all, e)
  }

  /** Adds no line that stays and leaves the fences alone, or adds one that passed the guard and raises its fence. */
  ghost predicate FenceMove(s: State, t: State) {
    && s.journal <= t.journal
    && var more := t.journal[|s.journal|..];
       || (NoneAlive(t.journal, more) && t.ix.fences == s.ix.fences)
       || (&& |more| == 1 && more[0].VersionCommitted?
           && !Stale(s.ix.fences, more[0].row.ticket, more[0].row.fence)
           && t.ix.fences == RaiseFence(s.ix.fences, more[0].row.ticket, more[0].row.fence))
  }

  // ----- what one step keeps ------------------------------------------------------------------------------------

  lemma SortedWithDead(lines: seq<Event>, more: seq<Event>)
    requires AliveSorted(lines) && Spares(lines, more) && NoneAlive(lines + more, more)
    ensures AliveSorted(lines + more)
  {
    SparedAlive(lines, more);
    assert forall i | |lines| <= i < |lines + more| :: (lines + more)[i] in more;
  }

  lemma SortedWithNext(fences: map<Ticket, nat>, lines: seq<Event>, e: Event)
    requires AliveSorted(lines) && TokensBelow(fences, lines) && Spares(lines, [e])
    requires e.VersionCommitted? && !Stale(fences, e.row.ticket, e.row.fence)
    ensures AliveSorted(lines + [e])
  {
    SparedAlive(lines, [e]);
  }

  lemma MoveSorts(s: State, t: State)
    requires JournalMinted(s) && Grows(s, t) && FenceMove(s, t)
    requires AliveSorted(s.journal) && TokensBelow(s.ix.fences, s.journal)
    ensures AliveSorted(t.journal) && TokensBelow(t.ix.fences, t.journal)
  {
    hide AliveSorted, JournalMinted, Grows;
    GrownSpares(s, t);
    var more := t.journal[|s.journal|..];
    SparedAlive(s.journal, more);
    if NoneAlive(t.journal, more) {
      SortedWithDead(s.journal, more);
    } else {
      assert more == [more[0]];
      SortedWithNext(s.ix.fences, s.journal, more[0]);
    }
    BelowAfter(s, t, more);
  }

  lemma BelowAfter(s: State, t: State, more: seq<Event>)
    requires FenceMove(s, t) && more == t.journal[|s.journal|..] && Spares(s.journal, more)
    requires TokensBelow(s.ix.fences, s.journal)
    ensures TokensBelow(t.ix.fences, t.journal)
  {
    assert s.journal + more == t.journal;
    SparedAlive(s.journal, more);
    forall i, k: Ticket | 0 <= i < |t.journal| && Alive(t.journal, t.journal[i]) && Carries(t.journal[i], k)
      ensures k in t.ix.fences && t.journal[i].row.fence.value <= t.ix.fences[k]
    {
      if i < |s.journal| {
        assert t.journal[i] == s.journal[i];
      } else {
        assert t.journal[i] == more[i - |s.journal|] && t.journal[i] in more;
      }
    }
  }

  lemma MoveTracks(s: State, t: State, marks: set<nat>)
    requires JournalMinted(s) && Grows(s, t) && FenceMove(s, t) && LiveFences(s.ix.fences, s.journal, marks)
    requires MarksWithin(marks, s.journal)
    ensures LiveFences(t.ix.fences, t.journal, marks)
  {
    GrownSpares(s, t);
    hide JournalMinted, Grows, LiveFences, Spares, Alive, MarksWithin;
    var more := t.journal[|s.journal|..];
    if NoneAlive(t.journal, more) && t.ix.fences == s.ix.fences {
      FencesUnmoved(s.ix.fences, s.journal, more, marks);
    } else {
      assert more == [more[0]];
      NextIsAlive(s, t, more[0]);
      FencesRaised(s.ix.fences, s.journal, more[0], marks);
    }
  }

  // ----- every step of a live process moves the fences so ------------------------------------------------------------

  lemma CommitMoves(s: State, p: Principal, u: Id, mat: Material, now: nat, limits: Limits, fault: Fault)
    ensures FenceMove(s, Commit(s, p, u, mat, now, limits, fault).after)
  {
    hide Clashes, Commit, CommitTxn, MaxSeq;
    var t := Commit(s, p, u, mat, now, limits, fault).after;
    if t != s {
      CommitIsTxn(s, p, u, mat, now, limits, fault);
      CommitEffect(s, u, mat, now, fault);
      if CommitTxn(s, u, mat, now, fault).reply.Err? {
        FailedCommitLines(s, u, mat, now, fault);
        var line := LineOf(s.next, NewRow(s.ix, s.uploads[u], mat, now), s.uploads[u].name);
        FailedIsDead(s, t, line);
      }
    }
  }

  lemma FailedIsDead(s: State, t: State, line: Event)
    requires line.VersionCommitted? && line.version == s.next && t.ix.fences == s.ix.fences
    requires t.journal == s.journal || t.journal == s.journal + [Aborted(s.next)]
             || t.journal == s.journal + [line, Aborted(s.next)]
    ensures FenceMove(s, t)
  {
    var more := t.journal[|s.journal|..];
    assert more == [] || more == [Aborted(s.next)] || more == [line, Aborted(s.next)];
    if more == [line, Aborted(s.next)] {
      assert t.journal[|s.journal| + 1] == Aborted(s.next);
    }
  }

  lemma PointerMoves(s: State, op: Op, limits: Limits)
    requires op.DoDelete? || op.DoRestore?
    ensures FenceMove(s, Step(s, op, limits))
  {
    hide Commit, Clashes, MaxSeq, Rebuild, Interrupted, HasVersion, RefCount, Register, Collect, Abort, Expire, Looked;
  }

  lemma PlainMoves(s: State, op: Op, limits: Limits)
    requires BootFree(op) && !op.DoCommit? && !op.DoDelete? && !op.DoRestore?
    ensures FenceMove(s, Step(s, op, limits))
  {
    hide Commit, Delete, Restore, Clashes, MaxSeq, Rebuild, Interrupted, HasVersion, RefCount, Looked;
  }

  lemma StepMoves(s: State, op: Op, limits: Limits)
    requires BootFree(op)
    ensures FenceMove(s, Step(s, op, limits))
  {
    hide FenceMove, Commit;
    match op {
      case DoCommit(p, u, mat, now, fault) => CommitMoves(s, p, u, mat, now, limits, fault);
      case DoDelete(_, _, _) => PointerMoves(s, op, limits);
      case DoRestore(_, _) => PointerMoves(s, op, limits);
      case _ => PlainMoves(s, op, limits);
    }
  }

  // ----- boots and crashes ---------------------------------------------------------------------------------------

  /** Every crash is followed by a boot that comes up; a plain boot that throws changes nothing. */
  ghost predicate Survives(ops: seq<Op>, limits: Limits) {
    ops == [] || (Survives(Front(ops), limits) && CrashSurvived(Run(Front(ops), limits), Last(ops), limits))
  }

  ghost predicate CrashSurvived(s: State, op: Op, limits: Limits) {
    op.DoCrash? && Interruptible(op.inner) ==> Rebuild(s.ix, Step(s, op, limits).journal).Some?
  }

  /** A replay that sees every committed line leaves exactly the largest token of all. */
  lemma ReplayTracks(replayed: map<Ticket, nat>, fences: map<Ticket, nat>, lines: seq<Event>, more: seq<Event>,
                     marks: set<nat>, later: set<nat>)
    requires LiveFences(fences, lines, marks) && ReplayedFences(replayed, fences, lines + more)
    requires forall i | 0 <= i < |lines + more| && (lines + more)[i].VersionCommitted? :: Shown(lines + more, later, i)
    ensures LiveFences(replayed, lines + more, later)
  {
    hide Shown;
    var after := lines + more;
    assert forall i | 0 <= i < |lines| :: after[i] == lines[i];
    forall t | t in replayed
      ensures exists i | 0 <= i < |after| ::
              Shown(after, later, i) && Carries(after[i], t) && after[i].row.fence.value == replayed[t]
    {
      if t in fences && replayed[t] == fences[t] {
        var k :| 0 <= k < |lines| && Shown(lines, marks, k) && Carries(lines[k], t)
          && lines[k].row.fence.value == fences[t];
        assert Carries(after[k], t);
      }
      var i :| 0 <= i < |after| && Carries(after[i], t) && after[i].row.fence.value == replayed[t];
      assert Shown(after, later, i);
    }
  }

  /** The first line an operation adds, when it commits a version, carries a token that passed the guard. */
  lemma FirstLineGuarded(s: State, inner: Op, limits: Limits)
    requires Interruptible(inner)
    ensures var lines := Step(s, inner, limits).journal;
            |lines| > |s.journal| && lines[|s.journal|].VersionCommitted? ==>
              !Stale(s.ix.fences, lines[|s.journal|].row.ticket, lines[|s.journal|].row.fence)
  {
    hide Commit, CommitTxn, Clashes, MaxSeq;
    if inner.DoCommit? {
      var t := Commit(s, inner.p, inner.u, inner.mat, inner.now, limits, inner.fault).after;
      if t != s {
        CommitIsTxn(s, inner.p, inner.u, inner.mat, inner.now, limits, inner.fault);
        CommitEffect(s, inner.u, inner.mat, inner.now, inner.fault);
        if CommitTxn(s, inner.u, inner.mat, inner.now, inner.fault).reply.Err? {
          FailedCommitLines(s, inner.u, inner.mat, inner.now, inner.fault);
        }
      }
    }
  }

  lemma CrashSorts(s: State, t: State, e: Event)
    requires JournalMinted(s) && Grows(s, t) && t.journal == s.journal + [e]
    requires e.VersionCommitted? ==> !Stale(s.ix.fences, e.row.ticket, e.row.fence)
    requires AliveSorted(s.journal) && TokensBelow(s.ix.fences, s.journal)
    ensures AliveSorted(t.journal)
  {
    hide AliveSorted, TokensBelow, JournalMinted, Grows, Stale;
    GrownSpares(s, t);
    assert t.journal[|s.journal|..] == [e];
    if e.VersionCommitted? {
      SortedWithNext(s.ix.fences, s.journal, e);
    } else {
      SortedWithDead(s.journal, [e]);
    }
  }

  /**
   * Behind a crash whose boot comes up every committed line shows: the boot replayed the old ones, and the new one
   * stands.
   */
  lemma CrashShows(s: State, t: State, more: seq<Event>, marks: set<nat>)
    requires JournalMinted(s) && Grows(s, t) && t.journal == s.journal + more && |more| <= 1
    ensures forall i | 0 <= i < |t.journal| && t.journal[i].VersionCommitted? ::
            Shown(t.journal, marks + {|s.journal|}, i)
  {
    assert |s.journal| in marks + {|s.journal|};
    forall i | 0 <= i < |t.journal| && t.journal[i].VersionCommitted?
      ensures Shown(t.journal, marks + {|s.journal|}, i)
    {
      if i < |s.journal| {
        assert Seen(marks + {|s.journal|}, i);
      } else {
        assert more == [more[0]] && t.journal[i] == more[0];
        NextIsAlive(s, t, more[0]);
      }
    }
  }

  /** What a run keeps: sorted tokens under exact high-waters. */
  ghost predicate Tracked(s: State, marks: set<nat>) {
    AliveSorted(s.journal) && LiveFences(s.ix.fences, s.journal, marks) && MarksWithin(marks, s.journal)
  }

  lemma CrashTracked(s: State, inner: Op, moved: bool, limits: Limits, marks: set<nat>)
    requires Tracked(s, marks) && JournalMinted(s) && Interruptible(inner)
    requires Rebuild(s.ix, Step(s, DoCrash(inner, moved), limits).journal).Some?
    ensures Tracked(Step(s, DoCrash(inner, moved), limits), marks + {|s.journal|})
  {
    hide JournalMinted, AliveSorted, LiveFences, Step, Stale;
    StepGrows(s, DoCrash(inner, moved), limits);
    FirstLineGuarded(s, inner, limits);
    var t, c := Step(s, inner, limits), Step(s, DoCrash(inner, moved), limits);
    var more := Survivors(s, t);
    CrashBooted(s, inner, moved, limits);
    CrashShows(s, c, more, marks);
    ReplayFences(s.ix, c.journal);
    ReplayTracks(c.ix.fences, s.ix.fences, s.journal, more, marks, marks + {|s.journal|});
    LiveAreBelow(s.ix.fences, s.journal, marks);
    if more == [] {
      assert c.journal == s.journal;
    } else {
      CrashSorts(s, c, more[0]);
    }
  }

  lemma LiveAreBelow(fences: map<Ticket, nat>, lines: seq<Event>, marks: set<nat>)
    requires LiveFences(fences, lines, marks)
    ensures TokensBelow(fences, lines)
  {
    forall i, t: Ticket | 0 <= i < |lines| && Alive(lines, lines[i]) && Carries(lines[i], t)
      ensures t in fences && lines[i].row.fence.value <= fences[t]
    {
      assert Shown(lines, marks, i);
    }
  }

  lemma BootTracked(s: State, marks: set<nat>)
    requires Tracked(s, marks) && Rebuild(s.ix, s.journal).Some?
    ensures Tracked(Reboot(s), marks + {|s.journal|})
  {
    hide ReplayLines, AliveSorted;
    ReplayFences(s.ix, s.journal);
    BootFences(ReplayLines(s.ix, s.journal).value.fences, s.ix.fences, s.journal, marks);
  }

  lemma MoveTracked(s: State, op: Op, limits: Limits, marks: set<nat>)
    requires Tracked(s, marks) && JournalMinted(s) && BootFree(op)
    ensures Tracked(Step(s, op, limits), marks)
  {
    hide Step, AliveSorted, LiveFences, FenceMove, JournalMinted;
    StepGrows(s, op, limits);
    StepMoves(s, op, limits);
    LiveAreBelow(s.ix.fences, s.journal, marks);
    MoveSorts(s, Step(s, op, limits));
    MoveTracks(s, Step(s, op, limits), marks);
  }

  lemma StepTracked(s: State, op: Op, limits: Limits, marks: set<nat>)
    requires Tracked(s, marks) && JournalMinted(s) && CrashSurvived(s, op, limits)
    ensures Tracked(Step(s, op, limits), MarksAfter(s, op, marks))
  {
    hide Tracked, JournalMinted, Rebuild;
    if BootFree(op) {
      hide Step;
      MoveTracked(s, op, limits, marks);
    } else if op.DoReboot? {
      if Rebuild(s.ix, s.journal).Some? {
        BootTracked(s, marks);
      }
    } else if Interruptible(op.inner) {
      hide Step;
      CrashTracked(s, op.inner, op.moved, limits, marks);
    }
  }

  /**
   * Over every run the process survives, whatever is collected, whichever commits fail, and whatever boots and crashes:
   * a ticket's tokens that were not rolled back never go back in the journal, and its high-water is the largest token
   * among the lines that show, which are those not rolled back and those a boot has replayed.
   */
  lemma {:induction false} TokensTracked(ops: seq<Op>, limits: Limits, s: State, marks: set<nat>)
    requires Survives(ops, limits) && s == Run(ops, limits) && marks == Marks(ops, limits)
    ensures AliveSorted(s.journal) && LiveFences(s.ix.fences, s.journal, marks)
    ensures MarksWithin(marks, s.journal)
  {
    if ops != [] {
      hide Step, AliveSorted, LiveFences, Facts, MarksAfter, CrashSurvived;
      var before := Run(Front(ops), limits);
      TokensTracked(Front(ops), limits, before, Marks(Front(ops), limits));
      FactsRuns(Front(ops), limits);
      FactsMinted(before);
      StepTracked(before, Last(ops), limits, Marks(Front(ops), limits));
    }
  }

  /**
   * While no committed line is rolled back, all of a ticket's tokens are sorted and the high-water is their maximum.
   */
  lemma FencedUnlessRolledBack(ops: seq<Op>, limits: Limits, s: State)
    requires Survives(ops, limits) && s == Run(ops, limits)
    requires forall i | 0 <= i < |s.journal| :: !Dead(s.journal, s.journal[i])
    ensures Fenced(s)
  {
    TokensTracked(ops, limits, s, Marks(ops, limits));
    assert forall i | 0 <= i < |s.journal| && s.journal[i].VersionCommitted? ::
        Alive(s.journal, s.journal[i]) && Shown(s.journal, Marks(ops, limits), i);
  }

  /** Every run in which nothing was collected is survived. */
  lemma {:induction false} UncollectedSurvives(ops: seq<Op>, limits: Limits)
    requires GcFree(ops)
    ensures Survives(ops, limits)
  {
    if ops != [] {
      assert GcFree(Front(ops));
      UncollectedSurvives(Front(ops), limits);
      UncollectedRuns(Front(ops), limits);
      hide Ordered, Step, Rebuild;
      if Last(ops).DoCrash? && Interruptible(Last(ops).inner) {
        CrashOrdered(Run(Front(ops), limits), Last(ops).inner, Last(ops).moved, limits, Marks(Front(ops), limits));
      }
    }
  }
}
