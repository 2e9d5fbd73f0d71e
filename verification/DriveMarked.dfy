/**
 * What a delete marker decides, over every run whatever, crashes, boots, I/O faults and collections included: as long
 * as an artifact's pointer is not cleared by one, no collection takes the artifact or any of its versions
 * (apps/drive/src/storage/store.ts, delete; gc.ts, gcPhase2; maintenance.ts, rebuildIndex).
 */
module DriveMarked {
  import opened Prelude
  import opened DriveIndex
  import opened DriveMachine
  import opened DriveReplay
  import opened DriveSafety
  import opened DriveRuns
  import opened DriveLive
  import opened DriveFacts
  import opened DriveAlways

  // ----- every run: compensations come behind their lines, and what they name is gone ----------------------------

  /** The lines that commit a version come before the one that takes it back, and pointer moves lead somewhere. */
  ghost predicate Tidy(lines: seq<Event>) {
    && (forall i, k, v: Id | 0 <= i < |lines| && 0 <= k < |lines| && lines[i] == Aborted(v) && IsLineOf(lines[k], v) ::
        k < i)
    && (forall i | 0 <= i < |lines| && lines[i].PointerMove? :: lines[i].to.Some?)
  }

  ghost predicate TakenBack(ix: Index, lines: seq<Event>) {
    forall i, v: Id | 0 <= i < |lines| && lines[i] == Aborted(v) :: v !in ix.versions
  }

  ghost predicate Kept(s: State) {
    Tidy(s.journal) && TakenBack(s.ix, s.journal)
  }

  /** Lines an operation may add: at most a commit and then its compensation, and moves that lead somewhere. */
  ghost predicate AddsTidy(s: State, more: seq<Event>) {
    && (forall i, v: Id | 0 <= i < |more| && About(more[i], v) :: s.next <= v)
    && (forall i, k | 0 <= i < k < |more| && more[k].VersionCommitted? :: !more[i].Aborted?)
    && (forall i | 0 <= i < |more| && more[i].PointerMove? :: more[i].to.Some?)
  }

  lemma TidyAppends(s: State, more: seq<Event>)
    requires Tidy(s.journal) && JournalMinted(s) && AddsTidy(s, more)
    ensures Tidy(s.journal + more)
  {
    var all := s.journal + more;
    forall i, k, v: Id | 0 <= i < |all| && 0 <= k < |all| && all[i] == Aborted(v) && IsLineOf(all[k], v)
      ensures k < i
    {
      assert About(all[i], v) && About(all[k], v);
      assert i < |s.journal| ==> About(s.journal[i], v);
      assert k < |s.journal| ==> About(s.journal[k], v);
      assert i >= |s.journal| ==> About(more[i - |s.journal|], v);
      assert k >= |s.journal| ==> About(more[k - |s.journal|], v);
    }
  }

  /** Tables that lost rows or gained fresh ones, behind lines about fresh ids only. */
  lemma TakenBackStays(s: State, t: State, more: seq<Event>)
    requires TakenBack(s.ix, s.journal) && JournalMinted(s) && t.journal == s.journal + more
    requires forall v | v in t.ix.versions :: v in s.ix.versions || v >= s.next
    requires forall i, v: Id | 0 <= i < |more| && more[i] == Aborted(v) :: v !in t.ix.versions
    ensures TakenBack(t.ix, t.journal)
  {
    forall i, v: Id | 0 <= i < |t.journal| && t.journal[i] == Aborted(v)
      ensures v !in t.ix.versions
    {
      if i < |s.journal| {
        assert About(s.journal[i], v);
      } else {
        assert more[i - |s.journal|] == Aborted(v);
      }
    }
  }

  /** The delete marker of an operation, if it journals one, is for the artifact it deletes. */
  ghost predicate MarksOnly(more: seq<Event>, op: Op) {
    forall i | 0 <= i < |more| && more[i].DeleteMarker? :: op.DoDelete? && more[i].artifact == op.a
  }

  ghost predicate LinesFit(s: State, t: State, op: Op) {
    s.journal <= t.journal && AddsTidy(s, t.journal[|s.journal|..]) && MarksOnly(t.journal[|s.journal|..], op)
  }

  lemma CommitLinesFit(s: State, p: Principal, u: Id, mat: Material, now: nat, limits: Limits, fault: Fault)
    requires RowsMinted(s) && Kept(s)
    ensures var t := Commit(s, p, u, mat, now, limits, fault).after;
            LinesFit(s, t, DoCommit(p, u, mat, now, fault)) && Kept(t)
  {
    hide Commit, CommitTxn, Clashes, MaxSeq;
    var t := Commit(s, p, u, mat, now, limits, fault).after;
    assert s.journal + [] == s.journal;
    if t == s {
      assert t.journal[|s.journal|..] == [];
    } else {
      CommitIsTxn(s, p, u, mat, now, limits, fault);
      CommitEffect(s, u, mat, now, fault);
      if CommitTxn(s, u, mat, now, fault).reply.Err? {
        FailedCommitLines(s, u, mat, now, fault);
      }
      var line := LineOf(s.next, NewRow(s.ix, s.uploads[u], mat, now), s.uploads[u].name);
      var more := t.journal[|s.journal|..];
      assert more == [] || more == [Aborted(s.next)] || more == [line] || more == [line, Aborted(s.next)];
      assert t.journal == s.journal + more;
      CommittedFresh(s, t, u, mat, now, fault);
      TidyAppends(s, more);
      TakenBackStays(s, t, more);
    }
  }

  lemma CommittedFresh(s: State, t: State, u: Id, mat: Material, now: nat, fault: Fault)
    requires u in s.uploads && t == CommitTxn(s, u, mat, now, fault).after && RowsMinted(s)
    ensures forall v | v in t.ix.versions :: v in s.ix.versions || v == s.next
    ensures s.next in t.ix.versions ==>
            t.journal == s.journal + [LineOf(s.next, NewRow(s.ix, s.uploads[u], mat, now), s.uploads[u].name)]
  {
    hide CommitTxn, Clashes, MaxSeq, AddRef, RaiseFence;
    CommitEffect(s, u, mat, now, fault);
  }

  /** At most one line, that no version depends on. */
  lemma OneLineFits(s: State, t: State, op: Op, more: seq<Event>)
    requires RowsMinted(s) && Kept(s) && t.journal == s.journal + more && |more| <= 1
    requires more != [] ==>
               (more[0].DeleteMarker? && op.DoDelete? && more[0].artifact == op.a)
                 || (more[0].PointerMove? && more[0].to.Some?)
    requires forall v | v in t.ix.versions :: v in s.ix.versions || v >= s.next
    ensures LinesFit(s, t, op) && Kept(t)
  {
    assert t.journal[|s.journal|..] == more;
    TidyAppends(s, more);
    TakenBackStays(s, t, more);
  }

  lemma DeleteLinesFit(s: State, p: Principal, a: Id, now: nat)
    requires RowsMinted(s) && Kept(s)
    ensures LinesFit(s, Delete(s, p, a, now).after, DoDelete(p, a, now)) && Kept(Delete(s, p, a, now).after)
  {
    hide Clashes, MaxSeq, RowsMinted, Kept, LinesFit;
    var t := Delete(s, p, a, now).after;
    assert s.journal + [] == s.journal;
    OneLineFits(s, t, DoDelete(p, a, now), if t.journal == s.journal then [] else [DeleteMarker(s.next, a)]);
  }

  lemma RestoreLinesFit(s: State, a: Id, v: Id)
    requires RowsMinted(s) && Kept(s)
    ensures LinesFit(s, Restore(s, a, v).after, DoRestore(a, v)) && Kept(Restore(s, a, v).after)
  {
    hide RowsMinted, Kept, LinesFit;
    var t := Restore(s, a, v).after;
    assert s.journal + [] == s.journal;
    OneLineFits(s, t, DoRestore(a, v), if Restore(s, a, v).reply.Ok? then [PointerMove(a, Some(v))] else []);
  }

  lemma CollectLinesFit(s: State, order: seq<Sha>, op: Op)
    requires RowsMinted(s) && Kept(s)
    ensures LinesFit(s, Collect(s, order), op) && Kept(Collect(s, order))
  {
    hide MarkedChains, RefCount;
    var t := Collect(s, order);
    assert t.journal[|s.journal|..] == PurgeLines(order);
    TidyAppends(s, PurgeLines(order));
    TakenBackStays(s, t, PurgeLines(order));
  }

  lemma QuietLinesFit(s: State, t: State, op: Op)
    requires Kept(s) && t.journal == s.journal && t.ix.versions == s.ix.versions
    ensures LinesFit(s, t, op) && Kept(t)
  {
    assert t.journal[|s.journal|..] == [];
  }

  lemma RegisterRows(s: State, op: Op, limits: Limits)
    requires op.DoRegister?
    ensures Step(s, op, limits).journal == s.journal && Step(s, op, limits).ix.versions == s.ix.versions
    ensures forall a | a in s.ix.artifacts && a < s.next ::
              a in Step(s, op, limits).ix.artifacts && Step(s, op, limits).ix.artifacts[a] == s.ix.artifacts[a]
  {
    hide Looked, WellFormed, NormalizeFence, PendingOf;
  }

  lemma StepLinesFit(s: State, op: Op, limits: Limits)
    requires RowsMinted(s) && Kept(s) && BootFree(op)
    ensures LinesFit(s, Step(s, op, limits), op) && Kept(Step(s, op, limits))
  {
    hide Commit, Collect, Delete, Restore, Kept, LinesFit, RowsMinted;
    match op {
      case DoCommit(p, u, mat, now, fault) => CommitLinesFit(s, p, u, mat, now, limits, fault);
      case DoDelete(p, a, now) => DeleteLinesFit(s, p, a, now);
      case DoRestore(a, v) => RestoreLinesFit(s, a, v);
      case DoCollect(order) =>
        CollectLinesFit(s, order, op);
        QuietLinesFit(s, s, op);
      case DoRegister(_, _, _, _, _) =>
        hide Step;
        RegisterRows(s, op, limits);
        QuietLinesFit(s, Step(s, op, limits), op);
      case _ =>
        hide Step;
        SessionOpsQuiet(s, op, limits);
        QuietLinesFit(s, Step(s, op, limits), op);
    }
  }

  /** A replay ends without the versions its lines take back, and with all others it started with. */
  lemma {:induction false} ReplayTakesBack(ix: Index, lines: seq<Event>, k: nat)
    requires Tidy(lines) && TakenBack(ix, lines) && k <= |lines| && ReplayLines(ix, lines[..k]).Some?
    ensures TakenBack(ReplayLines(ix, lines[..k]).value, lines[..k])
    ensures forall v | v in ix.versions ::
              v in ReplayLines(ix, lines[..k]).value.versions
                && ReplayLines(ix, lines[..k]).value.versions[v] == ix.versions[v]
  {
    if k > 0 {
      hide ApplyEvent;
      assert lines[..k] == lines[..k - 1] + [lines[k - 1]];
      ReplayAppend(ix, lines[..k - 1], lines[k - 1]);
      ReplayTakesBack(ix, lines, k - 1);
      NextRows(ReplayLines(ix, lines[..k - 1]).value, lines[k - 1]);
      NextTakesBack(ReplayLines(ix, lines[..k - 1]).value, ReplayLines(ix, lines[..k]).value, lines, k - 1);
    } else {
      assert lines[..k] == [];
    }
  }

  lemma NextTakesBack(f: Index, g: Index, lines: seq<Event>, k: nat)
    requires Tidy(lines) && k < |lines| && TakenBack(f, lines[..k])
    requires forall v | v in g.versions :: (v in f.versions || IsLineOf(lines[k], v)) && lines[k] != Aborted(v)
    ensures TakenBack(g, lines[..k + 1])
  {
    forall i | 0 <= i < k + 1 && lines[i].Aborted?
      ensures lines[i].version !in g.versions
    {
      if i < k {
        assert lines[..k][i] == Aborted(lines[i].version);
      }
    }
    assert forall i | 0 <= i < k + 1 :: lines[..k + 1][i] == lines[i];
  }

  lemma BootKept(s: State)
    requires Kept(s)
    ensures Kept(Reboot(s))
    ensures forall v | v in s.ix.versions :: v in Reboot(s).ix.versions && Reboot(s).ix.versions[v] == s.ix.versions[v]
  {
    hide ReplayLines, Tidy;
    assert s.journal[..|s.journal|] == s.journal;
    if ReplayLines(s.ix, s.journal).Some? {
      ReplayTakesBack(s.ix, s.journal, |s.journal|);
    }
  }

  // ----- every run: a set pointer was moved last by something other than a delete marker -------------------------

  ghost predicate NotMarked(lines: seq<Event>, a: Id) {
    LastMove(lines, a).Some? ==> !LastMove(lines, a).value.DeleteMarker?
  }

  ghost predicate SetsUnmarked(s: State) {
    forall a | a in s.ix.artifacts && s.ix.artifacts[a].current.Some? :: NotMarked(s.journal, a)
  }

  /** Lines behind which an artifact is no more marked than it was. */
  lemma {:induction false} MarkedLater(lines: seq<Event>, more: seq<Event>, a: Id)
    requires NotMarked(lines, a) && forall i | 0 <= i < |more| && more[i].DeleteMarker? :: more[i].artifact != a
    ensures NotMarked(lines + more, a)
  {
    if more == [] {
      assert lines + more == lines;
    } else {
      assert lines + more == (lines + Front(more)) + [Last(more)];
      LastMoveAppend(lines + Front(more), Last(more), a);
      MarkedLater(lines, Front(more), a);
    }
  }

  /** Lines that move a pointer last, and not by a marker, leave it unmarked whatever came before. */
  lemma MovedUnmarked(lines: seq<Event>, e: Event, a: Id)
    requires Moves(e, a) && !e.DeleteMarker?
    ensures NotMarked(lines + [e], a)
  {
    LastMoveAppend(lines, e, a);
  }

  /** One replayed line: a set pointer stays set unless a marker clears it, and a line that is none leaves it set. */
  lemma NextSet(f: Index, e: Event, a: Id)
    requires ApplyEvent(f, e).Some? && a in f.artifacts && (e.PointerMove? ==> e.to.Some?)
    ensures var g := ApplyEvent(f, e).value;
            && a in g.artifacts
            && (Moves(e, a) && !e.DeleteMarker? ==> g.artifacts[a].current.Some?)
            && (Moves(e, a) && e.DeleteMarker? ==> g.artifacts[a].current.None?)
            && (!Moves(e, a) ==> g.artifacts[a].current == f.artifacts[a].current)
  {
    hide Clashes, NameTaken, RefCount, RaiseFence;
  }

  /**
   * Behind a replay a pointer is set exactly if the last line to move it is no marker, or if it was set and none did.
   */
  lemma {:induction false} ReplaySet(ix: Index, lines: seq<Event>, a: Id)
    requires Tidy(lines) && ReplayLines(ix, lines).Some? && a in ix.artifacts
    ensures var f := ReplayLines(ix, lines).value;
            && a in f.artifacts
            && (f.artifacts[a].current.Some? <==>
                if LastMove(lines, a).Some? then !LastMove(lines, a).value.DeleteMarker?
                  else ix.artifacts[a].current.Some?)
  {
    if lines != [] {
      hide ApplyEvent;
      FrontTidy(lines);
      ReplaySet(ix, Front(lines), a);
      NextSet(ReplayLines(ix, Front(lines)).value, Last(lines), a);
    }
  }

  lemma FrontTidy(lines: seq<Event>)
    requires Tidy(lines) && lines != []
    ensures Tidy(Front(lines)) && (Last(lines).PointerMove? ==> Last(lines).to.Some?)
  {
    assert forall i | 0 <= i < |lines| - 1 :: Front(lines)[i] == lines[i];
  }

  // ----- one artifact from one state to a later one --------------------------------------------------------------

  /** The operation deletes the artifact, or is a crash of one that does. */
  predicate Marks(op: Op, a: Id) {
    match op
    case DoDelete(_, b, _) => b == a
    case DoCrash(inner, _) => inner.DoDelete? && inner.a == a
    case _ => false
  }

  /** The artifact is there, its pointer set by the last line that moved it, and all these versions are. */
  ghost predicate Alive(s: State, a: Id, rows: map<Id, VersionRow>) {
    && a in s.ix.artifacts && s.ix.artifacts[a].current.Some? && NotMarked(s.journal, a)
    && forall v | v in rows ::
      v in s.ix.versions && s.ix.versions[v].Journaled() == rows[v].Journaled() && rows[v].artifact == a
  }

  lemma RowsOf(s: State, a: Id, rows: map<Id, VersionRow>)
    requires Alive(s, a, rows)
    ensures forall v | v in rows :: v in s.ix.versions && s.ix.versions[v].artifact == a
  {
    forall v | v in rows
      ensures s.ix.versions[v].artifact == a
    {
      assert s.ix.versions[v].Journaled().artifact == a;
    }
  }

  /** The tables keep the artifact's row but for its pointer, which stays set, and all rows of its chain. */
  ghost predicate Spares(s: State, t: State, a: Id) {
    && a in t.ix.artifacts && t.ix.artifacts[a].current.Some?
    && forall v | v in s.ix.versions && s.ix.versions[v].artifact == a ::
         v in t.ix.versions && t.ix.versions[v] == s.ix.versions[v]
  }

  lemma CommitSpares(s: State, p: Principal, u: Id, mat: Material, now: nat, limits: Limits, fault: Fault, a: Id)
    requires RowsMinted(s) && a in s.ix.artifacts && s.ix.artifacts[a].current.Some?
    ensures Spares(s, Commit(s, p, u, mat, now, limits, fault).after, a)
  {
    hide Commit, CommitTxn, Clashes, MaxSeq, AddRef, RaiseFence;
    if Commit(s, p, u, mat, now, limits, fault).after != s {
      CommitIsTxn(s, p, u, mat, now, limits, fault);
      CommitEffect(s, u, mat, now, fault);
    }
  }

  lemma DeleteSpares(s: State, p: Principal, b: Id, now: nat, a: Id)
    requires RowsMinted(s) && a in s.ix.artifacts && s.ix.artifacts[a].current.Some? && b != a
    ensures Spares(s, Delete(s, p, b, now).after, a)
  {
    hide Clashes, MaxSeq, JournalMinted;
    var t := Delete(s, p, b, now).after;
    if t.ix != s.ix {
      assert t.ix.versions == s.ix.versions[s.next := MarkerRow(s.ix, b, s.next, p.sub, now)];
      hide MarkerRow;
    }
  }

  lemma CollectSpares(s: State, order: seq<Sha>, a: Id)
    requires a in s.ix.artifacts && s.ix.artifacts[a].current.Some?
    ensures Spares(s, Collect(s, order), a)
  {
    hide RefCount;
  }

  lemma StepSpares(s: State, op: Op, limits: Limits, a: Id)
    requires RowsMinted(s) && a in s.ix.artifacts && a < s.next && s.ix.artifacts[a].current.Some?
    requires BootFree(op) && !Marks(op, a)
    ensures Spares(s, Step(s, op, limits), a)
  {
    hide Commit, Collect, Delete, RowsMinted;
    match op {
      case DoCommit(p, u, mat, now, fault) => CommitSpares(s, p, u, mat, now, limits, fault, a);
      case DoDelete(p, b, now) => DeleteSpares(s, p, b, now, a);
      case DoRestore(_, _) =>
      case DoCollect(order) => CollectSpares(s, order, a);
      case DoRegister(_, _, _, _, _) =>
        hide Step;
        RegisterRows(s, op, limits);
      case _ =>
        hide Step;
        SessionOpsQuiet(s, op, limits);
    }
  }

  lemma SparedAlive(s: State, t: State, a: Id, rows: map<Id, VersionRow>)
    requires Alive(s, a, rows) && Spares(s, t, a) && NotMarked(t.journal, a)
    ensures Alive(t, a, rows)
  {
    RowsOf(s, a, rows);
  }

  lemma BootAlive(s: State, a: Id, rows: map<Id, VersionRow>)
    requires Kept(s) && Alive(s, a, rows)
    ensures Alive(Reboot(s), a, rows)
  {
    BootKept(s);
    hide ReplayLines, TakenBack, Tidy;
    if ReplayLines(s.ix, s.journal).Some? {
      ReplaySet(s.ix, s.journal, a);
    }
  }

  lemma ArtifactMinted(s: State, a: Id)
    requires Facts(s) && a in s.ix.artifacts
    ensures a < s.next
  {
    assert NamesArtifact(s.ix.artifacts, a, s.ix.artifacts[a].ticket, s.ix.artifacts[a].name);
    assert NamedAs(s, a, s.ix.artifacts[a].ticket, s.ix.artifacts[a].name);
  }

  lemma BootFreeAlive(s: State, op: Op, limits: Limits, a: Id, rows: map<Id, VersionRow>)
    requires Facts(s) && Kept(s) && Alive(s, a, rows) && BootFree(op) && !Marks(op, a)
    ensures Alive(Step(s, op, limits), a, rows)
  {
    StepLinesFit(s, op, limits);
    ArtifactMinted(s, a);
    StepSpares(s, op, limits, a);
    hide Facts, Step, Spares, NotMarked, Kept;
    var t := Step(s, op, limits);
    assert t.journal == s.journal + t.journal[|s.journal|..];
    MarkedLater(s.journal, t.journal[|s.journal|..], a);
    SparedAlive(s, t, a, rows);
  }

  /** The state a boot finds behind a crash: the tables as they were, behind the first line. */
  lemma TornKept(s: State, inner: Op, limits: Limits)
    requires RowsMinted(s) && Kept(s) && Interruptible(inner)
    ensures Kept(Torn(s, Step(s, inner, limits)))
    ensures Torn(s, Step(s, inner, limits)) ==
            s.(journal := s.journal + Survivors(s, Step(s, inner, limits)), next := Step(s, inner, limits).next)
    ensures MarksOnly(Survivors(s, Step(s, inner, limits)), inner)
  {
    hide Step, RowsMinted;
    StepLinesFit(s, inner, limits);
    var t := Step(s, inner, limits);
    TornLines(s, t);
    FirstLineTidy(s, t, inner, Survivors(s, t));
    FirstLineKept(s, Torn(s, t), Survivors(s, t));
  }

  lemma FirstLineTidy(s: State, t: State, inner: Op, more: seq<Event>)
    requires LinesFit(s, t, inner) && more == Survivors(s, t)
    ensures AddsTidy(s, more) && MarksOnly(more, inner)
  {
    assert more != [] ==> more[0] == t.journal[|s.journal|..][0];
  }

  lemma FirstLineKept(s: State, torn: State, more: seq<Event>)
    requires RowsMinted(s) && Kept(s) && AddsTidy(s, more) && torn.journal == s.journal + more && torn.ix == s.ix
    ensures Kept(torn)
  {
    TidyAppends(s, more);
    forall i, v: Id | 0 <= i < |more| && more[i] == Aborted(v)
      ensures v !in s.ix.versions
    {
      assert About(more[i], v);
    }
    TakenBackStays(s, torn, more);
  }

  lemma CrashKept(s: State, inner: Op, moved: bool, limits: Limits)
    requires RowsMinted(s) && Kept(s) && Interruptible(inner)
    ensures Kept(Step(s, DoCrash(inner, moved), limits))
  {
    TornKept(s, inner, limits);
    CrashIs(s, inner, moved, limits);
    hide Step, Kept, Torn, Reboot, Crashed;
    CrashIsBoot(s, Step(s, inner, limits), moved);
    BootKept(Torn(s, Step(s, inner, limits)));
    TablesKept(Reboot(Torn(s, Step(s, inner, limits))), Step(s, DoCrash(inner, moved), limits));
  }

  lemma TablesKept(s: State, t: State)
    requires Kept(s) && t.ix == s.ix && t.journal == s.journal
    ensures Kept(t)
  {
  }

  lemma CrashAlive(s: State, inner: Op, moved: bool, limits: Limits, a: Id, rows: map<Id, VersionRow>)
    requires RowsMinted(s) && Kept(s) && Interruptible(inner) && Alive(s, a, rows) && !Marks(DoCrash(inner, moved), a)
    ensures Alive(Step(s, DoCrash(inner, moved), limits), a, rows)
  {
    TornKept(s, inner, limits);
    CrashIs(s, inner, moved, limits);
    hide Step, Kept, Reboot, Crashed, NotMarked, Torn;
    var t := Step(s, inner, limits);
    CrashIsBoot(s, t, moved);
    MarkedLater(s.journal, Survivors(s, t), a);
    BootAlive(Torn(s, t), a, rows);
  }

  lemma StepKept(s: State, op: Op, limits: Limits)
    requires RowsMinted(s) && Kept(s)
    ensures Kept(Step(s, op, limits))
  {
    hide Kept, RowsMinted;
    if BootFree(op) {
      hide Step;
      StepLinesFit(s, op, limits);
    } else if op.DoReboot? {
      hide Reboot;
      BootKept(s);
    } else if Interruptible(op.inner) {
      hide Step;
      CrashKept(s, op.inner, op.moved, limits);
    }
  }

  lemma {:induction false} KeptRuns(ops: seq<Op>, limits: Limits)
    ensures Kept(Run(ops, limits))
  {
    if ops != [] {
      hide Step, Facts;
      KeptRuns(Front(ops), limits);
      FactsRuns(Front(ops), limits);
      MintedRows(Run(Front(ops), limits));
      hide Kept, RowsMinted;
      StepKept(Run(Front(ops), limits), Last(ops), limits);
    }
  }

  lemma MintedRows(s: State)
    requires Facts(s)
    ensures RowsMinted(s)
  {
  }

  lemma StepAlive(s: State, op: Op, limits: Limits, a: Id, rows: map<Id, VersionRow>)
    requires Facts(s) && Kept(s) && Alive(s, a, rows) && !Marks(op, a)
    ensures Alive(Step(s, op, limits), a, rows)
  {
    MintedRows(s);
    hide Facts, Kept, Alive, RowsMinted;
    if BootFree(op) {
      hide Step;
      BootFreeAlive(s, op, limits, a, rows);
    } else if op.DoReboot? {
      hide Reboot;
      BootAlive(s, a, rows);
    } else if Interruptible(op.inner) {
      hide Step;
      CrashAlive(s, op.inner, op.moved, limits, a, rows);
    }
  }

  lemma {:induction false} AliveRuns(pre: seq<Op>, post: seq<Op>, limits: Limits, a: Id, rows: map<Id, VersionRow>)
    requires Alive(Run(pre, limits), a, rows) && forall i | 0 <= i < |post| :: !Marks(post[i], a)
    ensures Alive(Run(pre + post, limits), a, rows)
  {
    if post == [] {
      assert pre + post == pre;
    } else {
      hide Step, Facts, Kept, Alive;
      var before := pre + Front(post);
      assert Front(pre + post) == before && Last(pre + post) == Last(post);
      assert !Marks(Last(post), a) && forall i | 0 <= i < |Front(post)| :: Front(post)[i] == post[i];
      AliveRuns(pre, Front(post), limits, a, rows);
      FactsRuns(before, limits);
      KeptRuns(before, limits);
      StepAlive(Run(before, limits), Last(post), limits, a, rows);
    }
  }

  // ----- when a set pointer is unmarked --------------------------------------------------------------------------

  /** Behind a replay a pointer whose last move was a marker is clear. */
  lemma {:induction false} ReplayUnmarked(ix: Index, lines: seq<Event>, a: Id)
    requires Tidy(lines) && ReplayLines(ix, lines).Some?
    requires a in ReplayLines(ix, lines).value.artifacts && ReplayLines(ix, lines).value.artifacts[a].current.Some?
    ensures NotMarked(lines, a)
  {
    if lines != [] {
      var f, e := ReplayLines(ix, Front(lines)).value, Last(lines);
      FrontTidy(lines);
      NextUnmarked(f, e, a);
      hide ApplyEvent;
      if !Moves(e, a) {
        ReplayUnmarked(ix, Front(lines), a);
      }
    }
  }

  lemma NextUnmarked(f: Index, e: Event, a: Id)
    requires ApplyEvent(f, e).Some? && a in ApplyEvent(f, e).value.artifacts
    ensures var g := ApplyEvent(f, e).value;
            && (Moves(e, a) && e.DeleteMarker? ==> g.artifacts[a].current.None?)
            && (!Moves(e, a) ==> a in f.artifacts && g.artifacts[a].current == f.artifacts[a].current)
  {
    hide Clashes, NameTaken, RefCount, RaiseFence, CurrentSeq;
  }

  lemma BootUnmarked(s: State)
    requires Kept(s) && Rebuild(s.ix, s.journal).Some?
    ensures SetsUnmarked(Reboot(s))
  {
    hide ReplayLines, TakenBack, Tidy, NotMarked;
    var f := ReplayLines(s.ix, s.journal).value;
    forall a | a in f.artifacts && f.artifacts[a].current.Some?
      ensures NotMarked(s.journal, a)
    {
      ReplayUnmarked(s.ix, s.journal, a);
    }
  }

  /** A pointer is set by the operation's own last line, or was set before. */
  ghost predicate PointersFollow(s: State, t: State) {
    && s.journal <= t.journal
    && forall a | a in t.ix.artifacts && t.ix.artifacts[a].current.Some? ::
         || (a in s.ix.artifacts && s.ix.artifacts[a].current.Some?
             && forall i | |s.journal| <= i < |t.journal| && t.journal[i].DeleteMarker? :: t.journal[i].artifact != a)
         || (|t.journal| > |s.journal| && Moves(Last(t.journal), a) && !Last(t.journal).DeleteMarker?)
  }

  lemma FollowUnmarked(s: State, t: State)
    requires SetsUnmarked(s) && PointersFollow(s, t)
    ensures SetsUnmarked(t)
  {
    var more := t.journal[|s.journal|..];
    assert t.journal == s.journal + more;
    forall a | a in t.ix.artifacts && t.ix.artifacts[a].current.Some?
      ensures NotMarked(t.journal, a)
    {
      if |t.journal| > |s.journal| && Moves(Last(t.journal), a) && !Last(t.journal).DeleteMarker? {
        assert t.journal == Front(t.journal) + [Last(t.journal)];
        MovedUnmarked(Front(t.journal), Last(t.journal), a);
      } else {
        forall i | 0 <= i < |more| && more[i].DeleteMarker?
          ensures more[i].artifact != a
        {
          assert more[i] == t.journal[|s.journal| + i];
        }
        MarkedLater(s.journal, more, a);
      }
    }
  }

  lemma CommitFollows(s: State, p: Principal, u: Id, mat: Material, now: nat, limits: Limits, fault: Fault)
    ensures PointersFollow(s, Commit(s, p, u, mat, now, limits, fault).after)
  {
    hide Commit, CommitTxn, Clashes, MaxSeq, AddRef, RaiseFence;
    if Commit(s, p, u, mat, now, limits, fault).after != s {
      CommitIsTxn(s, p, u, mat, now, limits, fault);
      CommitEffect(s, u, mat, now, fault);
      if CommitTxn(s, u, mat, now, fault).reply.Err? {
        FailedCommitLines(s, u, mat, now, fault);
      }
    }
  }

  lemma DeleteFollows(s: State, p: Principal, a: Id, now: nat)
    ensures PointersFollow(s, Delete(s, p, a, now).after)
  {
    hide Clashes, MaxSeq;
    var t := Delete(s, p, a, now).after;
    if t.ix != s.ix {
      assert t.journal[|s.journal|] == DeleteMarker(s.next, a);
    }
  }

  lemma RestoreFollows(s: State, a: Id, v: Id)
    ensures PointersFollow(s, Restore(s, a, v).after)
  {
  }

  lemma CollectFollows(s: State, order: seq<Sha>)
    ensures PointersFollow(s, Collect(s, order))
  {
    hide RefCount, MarkedChains;
  }

  lemma LinedFollows(s: State, op: Op, limits: Limits)
    requires op.DoDelete? || op.DoRestore? || op.DoCollect?
    ensures PointersFollow(s, Step(s, op, limits))
  {
    hide Delete, Restore, Collect;
    match op {
      case DoDelete(p, a, now) => DeleteFollows(s, p, a, now);
      case DoRestore(a, v) => RestoreFollows(s, a, v);
      case DoCollect(order) => CollectFollows(s, order);
    }
  }

  lemma PlainFollows(s: State, op: Op, limits: Limits)
    requires BootFree(op) && !op.DoCommit? && !op.DoDelete? && !op.DoRestore? && !op.DoCollect?
    ensures PointersFollow(s, Step(s, op, limits))
  {
    if op.DoRegister? {
      hide Looked, WellFormed, NormalizeFence, PendingOf;
    } else {
      hide Step;
      SessionOpsQuiet(s, op, limits);
    }
  }

  /** No crash of a delete marker is left without a boot that comes up: its line would be ahead of the tables. */
  ghost predicate MarkersLand(ops: seq<Op>, limits: Limits) {
    ops == [] ||
      (MarkersLand(Front(ops), limits)
       && (Last(ops).DoCrash? && Interruptible(Last(ops).inner) ==>
           Rebuild(Run(Front(ops), limits).ix, Run(ops, limits).journal).Some?))
  }

  lemma StepUnmarked(s: State, op: Op, limits: Limits)
    requires RowsMinted(s) && Kept(s) && SetsUnmarked(s)
    requires op.DoCrash? && Interruptible(op.inner) ==> Rebuild(s.ix, Step(s, op, limits).journal).Some?
    ensures SetsUnmarked(Step(s, op, limits))
  {
    hide Kept, RowsMinted, SetsUnmarked, PointersFollow, Rebuild;
    if BootFree(op) {
      hide Step;
      if op.DoCommit? {
        CommitFollows(s, op.p, op.u, op.mat, op.now, limits, op.fault);
        CommitIs(s, op, limits);
      } else if op.DoDelete? || op.DoRestore? || op.DoCollect? {
        LinedFollows(s, op, limits);
      } else {
        PlainFollows(s, op, limits);
      }
      FollowUnmarked(s, Step(s, op, limits));
    } else if op.DoReboot? {
      if Rebuild(s.ix, s.journal).Some? {
        BootUnmarked(s);
      }
    } else if Interruptible(op.inner) {
      hide Step;
      CrashUnmarked(s, op.inner, op.moved, limits);
    }
  }

  lemma CommitIs(s: State, op: Op, limits: Limits)
    requires op.DoCommit?
    ensures Step(s, op, limits) == Commit(s, op.p, op.u, op.mat, op.now, limits, op.fault).after
  {
    hide Commit;
  }

  lemma CrashUnmarked(s: State, inner: Op, moved: bool, limits: Limits)
    requires RowsMinted(s) && Kept(s) && Interruptible(inner)
    requires Rebuild(s.ix, Step(s, DoCrash(inner, moved), limits).journal).Some?
    ensures SetsUnmarked(Step(s, DoCrash(inner, moved), limits))
  {
    TornKept(s, inner, limits);
    CrashIs(s, inner, moved, limits);
    hide Step, Kept, Crashed, NotMarked, Rebuild;
    var torn := Torn(s, Step(s, inner, limits));
    CrashIsBoot(s, Step(s, inner, limits), moved);
    BootUnmarked(torn);
  }

  lemma {:induction false} UnmarkedRuns(ops: seq<Op>, limits: Limits)
    requires MarkersLand(ops, limits)
    ensures SetsUnmarked(Run(ops, limits))
  {
    if ops != [] {
      hide Step, Facts, SetsUnmarked, Rebuild, Kept;
      UnmarkedRuns(Front(ops), limits);
      FactsRuns(Front(ops), limits);
      KeptRuns(Front(ops), limits);
      MintedRows(Run(Front(ops), limits));
      StepUnmarked(Run(Front(ops), limits), Last(ops), limits);
    }
  }

  /**
   * An artifact with a current version outlives every collection, with all its versions, until it is delete-marked:
   * whatever commits, restores, faults, crashes, boots and collections come, as long as no operation marks it and no
   * crash of one had left its line ahead of the tables, it is there, its pointer set, and each of its versions is a
   * row.
   */
  lemma PointedOutlives(pre: seq<Op>, post: seq<Op>, limits: Limits, s: State, t: State, a: Id)
    requires MarkersLand(pre, limits) && s == Run(pre, limits) && t == Run(pre + post, limits)
    requires a in s.ix.artifacts && s.ix.artifacts[a].current != None
    requires forall i | 0 <= i < |post| :: !Marks(post[i], a)
    ensures a in t.ix.artifacts && t.ix.artifacts[a].current != None
    ensures forall v | v in s.ix.versions && s.ix.versions[v].artifact == a ::
              v in t.ix.versions && t.ix.versions[v].Journaled() == s.ix.versions[v].Journaled()
  {
    hide Run, NotMarked;
    UnmarkedRuns(pre, limits);
    var rows := map v | v in s.ix.versions && s.ix.versions[v].artifact == a :: s.ix.versions[v];
    AliveRuns(pre, post, limits, a, rows);
    assert forall v | v in s.ix.versions && s.ix.versions[v].artifact == a :: v in rows;
  }
}
