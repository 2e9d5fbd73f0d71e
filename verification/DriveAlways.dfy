/**
 * Invariants of every run whatever, crashes, boots, I/O faults and collections included: tables stay sound, and no two
 * rows or lines ever tell differently of one version, one artifact's name or one pointer
 * (apps/drive/src/storage/store.ts, gc.ts, maintenance.ts).
 */
module DriveAlways {
  import opened Prelude
  import opened DriveIndex
  import opened DriveMachine
  import opened DriveReplay
  import opened DriveSafety
  import opened DriveRuns
  import opened DriveLive
  import opened DriveFacts

  predicate IsLineOf(e: Event, v: Id) { e.VersionCommitted? && e.version == v }

  // ----- what is told ---------------------------------------------------------------------------------------------

  /** The rows that tables and lines have of one version are one row. */
  ghost predicate RowsTold(ix: Index, lines: seq<Event>) {
    && (forall i, v: Id | 0 <= i < |lines| && IsLineOf(lines[i], v) && v in ix.versions ::
          ix.versions[v].Journaled() == lines[i].row)
    && (forall i, k, v: Id | 0 <= i < |lines| && 0 <= k < |lines| && IsLineOf(lines[i], v) && IsLineOf(lines[k], v) ::
          lines[i].row == lines[k].row)
  }

  predicate LineNames(e: Event, a: Id, ticket: Ticket, name: string) {
    e.VersionCommitted? && e.row.artifact == a && e.row.ticket == ticket && e.logicalName == name
  }

  predicate SessionNames(up: Upload, a: Id, ticket: Ticket, name: string) {
    up.artifact == a && up.ticket == ticket && up.name == name
  }

  /** Table, session or line: something gives the artifact this name. */
  ghost predicate NamedAs(s: State, a: Id, ticket: Ticket, name: string) {
    || NamesArtifact(s.ix.artifacts, a, ticket, name)
    || (exists u | u in s.uploads :: SessionNames(s.uploads[u], a, ticket, name))
    || (exists i | 0 <= i < |s.journal| :: LineNames(s.journal[i], a, ticket, name))
  }

  ghost predicate NamesTold(s: State) {
    && (forall a: Id, t, n, t', n' :: NamedAs(s, a, t, n) && NamedAs(s, a, t', n') ==> t == t' && n == n')
    && (forall a: Id, t, n :: NamedAs(s, a, t, n) ==> a < s.next)
  }

  predicate LinePoints(e: Event, a: Id, w: Id) { Moves(e, a) && Target(e) == Some(w) }

  /** A pointer or a line points the artifact at the version. */
  ghost predicate Pointed(s: State, a: Id, w: Id) {
    || (a in s.ix.artifacts && s.ix.artifacts[a].current == Some(w))
    || (exists i | 0 <= i < |s.journal| :: LinePoints(s.journal[i], a, w))
  }

  /** Whatever there is of the version holds bytes of the artifact. */
  ghost predicate Owns(s: State, a: Id, w: Id) {
    && (w in s.ix.versions ==> s.ix.versions[w].artifact == a && !s.ix.versions[w].IsMarker())
    && (forall i | 0 <= i < |s.journal| && IsLineOf(s.journal[i], w) :: s.journal[i].row.artifact == a)
  }

  ghost predicate PointersTold(s: State) {
    forall a: Id, w: Id :: Pointed(s, a, w) ==> Owns(s, a, w) && w < s.next
  }

  ghost predicate RowsMinted(s: State) {
    (forall v | v in s.ix.versions :: v < s.next) && JournalMinted(s)
  }

  ghost predicate Facts(s: State) {
    && Sound(s.ix) && LinesWhole(s.journal) && RowsMinted(s)
    && RowsTold(s.ix, s.journal) && NamesTold(s) && PointersTold(s)
  }

  // ----- what a step may add -------------------------------------------------------------------------------------

  /** A row after the step was there before, or a line has it, or it is a new marker. */
  ghost predicate RowFrom(s: State, t: State, v: Id)
    requires v in t.ix.versions
  {
    || (v in s.ix.versions && t.ix.versions[v].Journaled() == s.ix.versions[v].Journaled())
    || (exists i | 0 <= i < |t.journal| ::
        IsLineOf(t.journal[i], v) && t.journal[i].row == t.ix.versions[v].Journaled())
    || (v >= s.next && t.ix.versions[v].IsMarker() && forall i | 0 <= i < |t.journal| :: !IsLineOf(t.journal[i], v))
  }

  ghost predicate RowsFrom(s: State, t: State) {
    && Grows(s, t)
    && (forall v | v in t.ix.versions :: v < t.next && RowFrom(s, t, v))
    && (forall i, k | |s.journal| <= i < k < |t.journal| ::
        !(t.journal[i].VersionCommitted? && t.journal[k].VersionCommitted?))
  }

  /** Nothing is named that was not, but for one new artifact. */
  ghost predicate NamesFrom(s: State, t: State, ticket: Ticket, name: string) {
    forall a: Id, tk, n :: NamedAs(t, a, tk, n) ==>
           NamedAs(s, a, tk, n) || (s.next <= a < t.next && tk == ticket && n == name)
  }

  /** Nothing is pointed at that was not, but for a version of its own or a new one. */
  ghost predicate PointersFrom(s: State, t: State) {
    forall a: Id, w: Id :: Pointed(t, a, w) ==>
      || Pointed(s, a, w)
      || (w in s.ix.versions && s.ix.versions[w].artifact == a && !s.ix.versions[w].IsMarker())
      || (s.next <= w < t.next && Owns(t, a, w))
  }

  lemma RowsStayTold(s: State, t: State)
    requires RowsTold(s.ix, s.journal) && RowsMinted(s) && RowsFrom(s, t)
    ensures RowsTold(t.ix, t.journal) && RowsMinted(t)
  {
    forall i, k, v: Id | 0 <= i < |t.journal| && 0 <= k < |t.journal| && IsLineOf(t.journal[i], v)
           && IsLineOf(t.journal[k], v)
      ensures t.journal[i].row == t.journal[k].row
    {
      assert About(t.journal[i], v) && About(t.journal[k], v);
      assert i < |s.journal| ==> s.journal[i] == t.journal[i] && v < s.next;
      assert k < |s.journal| ==> s.journal[k] == t.journal[k] && v < s.next;
    }
    forall i, v: Id | 0 <= i < |t.journal| && IsLineOf(t.journal[i], v) && v in t.ix.versions
      ensures t.ix.versions[v].Journaled() == t.journal[i].row
    {
      assert RowFrom(s, t, v) && About(t.journal[i], v);
      if v in s.ix.versions {
        assert i < |s.journal| && s.journal[i] == t.journal[i];
      }
    }
    forall i, v: Id | 0 <= i < |t.journal| && About(t.journal[i], v)
      ensures v < t.next
    {
      assert i < |s.journal| ==> s.journal[i] == t.journal[i];
    }
  }

  lemma NamesStayTold(s: State, t: State, ticket: Ticket, name: string)
    requires NamesTold(s) && s.next <= t.next && NamesFrom(s, t, ticket, name)
    ensures NamesTold(t)
  {
    hide NamedAs;
  }

  /** What is there of an old version was there, or a line told it. */
  lemma OwnsStays(s: State, t: State, a: Id, w: Id)
    requires RowsFrom(s, t) && LinesWhole(s.journal) && Owns(s, a, w) && w < s.next
    ensures Owns(t, a, w)
  {
    forall i | 0 <= i < |t.journal| && IsLineOf(t.journal[i], w)
      ensures i < |s.journal| && t.journal[i] == s.journal[i] && t.journal[i].row.artifact == a
              && t.journal[i].row.sha.Some?
    {
      assert About(t.journal[i], w);
      assert i < |s.journal| && LineWhole(s.journal[i]);
    }
    if w in t.ix.versions {
      assert RowFrom(s, t, w);
      assert t.ix.versions[w].Journaled().artifact == a && t.ix.versions[w].Journaled().sha.Some?;
    }
  }

  lemma PointersStayTold(s: State, t: State)
    requires LinesWhole(s.journal) && RowsTold(s.ix, s.journal) && RowsMinted(s) && PointersTold(s)
    requires RowsFrom(s, t) && PointersFrom(s, t)
    ensures PointersTold(t)
  {
    hide RowsFrom, Pointed;
    forall a: Id, w: Id | Pointed(t, a, w)
      ensures Owns(t, a, w) && w < t.next
    {
      if s.next > w {
        if !Pointed(s, a, w) {
          RowOwns(s, a, w);
        }
        OwnsStays(s, t, a, w);
        GrowsNext(s, t);
      }
    }
  }

  lemma RowOwns(s: State, a: Id, w: Id)
    requires RowsTold(s.ix, s.journal) && w in s.ix.versions
    requires s.ix.versions[w].artifact == a && !s.ix.versions[w].IsMarker()
    ensures Owns(s, a, w)
  {
    forall i | 0 <= i < |s.journal| && IsLineOf(s.journal[i], w)
      ensures s.journal[i].row.artifact == a
    {
      assert s.ix.versions[w].Journaled().artifact == a;
    }
  }

  lemma GrowsNext(s: State, t: State)
    requires RowsFrom(s, t)
    ensures s.next <= t.next
  {
  }

  ghost predicate Steps(s: State, t: State, ticket: Ticket, name: string) {
    RowsFrom(s, t) && NamesFrom(s, t, ticket, name) && PointersFrom(s, t) && Sound(t.ix) && LinesWhole(t.journal)
  }

  lemma FactsStep(s: State, t: State, ticket: Ticket, name: string)
    requires Facts(s) && Steps(s, t, ticket, name)
    ensures Facts(t) && RowsKept(s, t)
  {
    RowsFromKept(s, t);
    hide RowsTold, NamesTold, PointersTold, NamesFrom, PointersFrom, Sound, LinesWhole;
    RowsStayTold(s, t);
    NamesStayTold(s, t, ticket, name);
    PointersStayTold(s, t);
  }

  /** What there is of an old version was in the table, or a line had it. */
  ghost predicate OldRow(s: State, v: Id, row: VersionRow) {
    || (v in s.ix.versions && row.Journaled() == s.ix.versions[v].Journaled())
    || (exists i | 0 <= i < |s.journal| :: IsLineOf(s.journal[i], v) && row.Journaled() == s.journal[i].row)
  }

  ghost predicate RowsKept(s: State, t: State) {
    Grows(s, t) && forall v | v in t.ix.versions && v < s.next :: OldRow(s, v, t.ix.versions[v])
  }

  lemma RowsFromKept(s: State, t: State)
    requires RowsFrom(s, t)
    ensures RowsKept(s, t)
  {
    forall v | v in t.ix.versions && v < s.next
      ensures OldRow(s, v, t.ix.versions[v])
    {
      assert RowFrom(s, t, v);
      if i :| 0 <= i < |t.journal| && IsLineOf(t.journal[i], v) && t.journal[i].row == t.ix.versions[v].Journaled() {
        assert About(t.journal[i], v);
        assert i < |s.journal| && s.journal[i] == t.journal[i];
      }
    }
  }

  lemma KeptTransitive(s: State, m: State, t: State)
    requires RowsKept(s, m) && RowsKept(m, t)
    ensures RowsKept(s, t)
  {
    forall v | v in t.ix.versions && v < s.next
      ensures OldRow(s, v, t.ix.versions[v])
    {
      assert OldRow(m, v, t.ix.versions[v]);
      if i :| 0 <= i < |m.journal| && IsLineOf(m.journal[i], v) && t.ix.versions[v].Journaled() == m.journal[i].row {
        assert About(m.journal[i], v);
        assert i < |s.journal| && s.journal[i] == m.journal[i];
      }
    }
    GrowsTransitive(s, m, t);
  }

  lemma GrowsTransitive(s: State, m: State, t: State)
    requires Grows(s, m) && Grows(m, t)
    ensures Grows(s, t)
  {
    forall i, v: Id | |s.journal| <= i < |t.journal| && About(t.journal[i], v)
      ensures s.next <= v < t.next
    {
      assert i < |m.journal| ==> About(m.journal[i], v);
    }
  }

  // ----- each kind of step ---------------------------------------------------------------------------------------

  /** Index and journal stay, sessions keep what they were registered under. */
  lemma QuietSteps(s: State, t: State)
    requires Facts(s) && t.ix == s.ix && t.journal == s.journal && s.next <= t.next
    requires t.uploads.Keys == s.uploads.Keys
    requires forall u | u in s.uploads ::
             SessionNames(t.uploads[u], s.uploads[u].artifact, s.uploads[u].ticket, s.uploads[u].name)
    ensures Steps(s, t, "", "")
  {
    hide Sound, LinesWhole, RowsTold, NamesTold, PointersTold;
    forall a: Id, tk, n | NamedAs(t, a, tk, n)
      ensures NamedAs(s, a, tk, n)
    {
      if u :| u in t.uploads && SessionNames(t.uploads[u], a, tk, n) {
        assert u in s.uploads && SessionNames(s.uploads[u], a, tk, n);
      }
    }
  }

  lemma SessionOpsQuiet(s: State, op: Op, limits: Limits)
    requires op.DoStage? || op.DoCharge? || op.DoTouch? || op.DoAbort? || op.DoExpire? || op.DoSweep?
    ensures var t := Step(s, op, limits);
            && t.ix == s.ix && t.journal == s.journal && s.next == t.next && t.uploads.Keys == s.uploads.Keys
            && forall u | u in s.uploads ::
                 SessionNames(t.uploads[u], s.uploads[u].artifact, s.uploads[u].ticket, s.uploads[u].name)
  {
    hide Register, Commit, Delete, Restore, Collect, Reboot, Crashed, Release, Balance;
  }

  lemma RegisterSteps(s: State, p: Principal, intent: Intent, found: Option<Id>, session: Option<Id>, now: nat,
                      limits: Limits)
    requires Facts(s) && Looked(s, p, intent, found, session)
    ensures Steps(s, Register(s, p, intent, found, session, now, limits).after, intent.ticket, intent.name)
  {
    hide WellFormed, NormalizeFence, PendingOf, Sound, LinesWhole, RowsTold, NamesTold, PointersTold;
    var t := Register(s, p, intent, found, session, now, limits).after;
    if t != s {
      RegisterNames(s, t, p, intent, found, session, now, limits);
      if found.None? {
        NewIsFresh(s);
        ArtifactSound(s.ix, s.next, ArtifactRow(intent.ticket, intent.name, None, p.sub, now));
      } else {
        assert t.ix == s.ix;
      }
    }
  }

  lemma NewIsFresh(s: State)
    requires NamesTold(s)
    ensures s.next !in s.ix.artifacts
  {
    if s.next in s.ix.artifacts {
      assert NamesArtifact(s.ix.artifacts, s.next, s.ix.artifacts[s.next].ticket, s.ix.artifacts[s.next].name);
      assert NamedAs(s, s.next, s.ix.artifacts[s.next].ticket, s.ix.artifacts[s.next].name);
    }
  }

  lemma RegisterNames(s: State, t: State, p: Principal, intent: Intent, found: Option<Id>, session: Option<Id>,
                      now: nat, limits: Limits)
    requires Looked(s, p, intent, found, session)
    requires t == Register(s, p, intent, found, session, now, limits).after && t != s
    ensures NamesFrom(s, t, intent.ticket, intent.name)
  {
    hide WellFormed, NormalizeFence, PendingOf, NameTaken, HasSession;
    forall a: Id, tk, n | NamedAs(t, a, tk, n)
      ensures NamedAs(s, a, tk, n) || (s.next <= a < t.next && tk == intent.ticket && n == intent.name)
    {
      if u :| u in t.uploads && SessionNames(t.uploads[u], a, tk, n) {
        assert u in s.uploads && t.uploads[u] == s.uploads[u] ==> SessionNames(s.uploads[u], a, tk, n);
      }
    }
  }

  /** A successful commit: one row, its line, its pointer. */
  lemma CommitSteps(s: State, u: Id, mat: Material, now: nat, fault: Fault)
    requires Facts(s) && u in s.uploads && CommitTxn(s, u, mat, now, fault).reply.Ok?
    ensures Steps(s, CommitTxn(s, u, mat, now, fault).after, "", "")
  {
    hide CommitTxn, Clashes, MaxSeq, LinesWhole, RowsTold, NamesTold, PointersTold, Sound;
    CommitEffect(s, u, mat, now, fault);
    var t := CommitTxn(s, u, mat, now, fault).after;
    var row, name := NewRow(s.ix, s.uploads[u], mat, now), s.uploads[u].name;
    FactsAdmit(s, u, mat, now);
    CommitSound(s.ix, s.next, row, name);
    var line := LineOf(s.next, row, name);
    LineAppendsWhole(s.journal, line);
    CommittedRows(s, t, row, name);
    CommittedNames(s, t, u, line);
    CommittedPointers(s, t, row, name);
  }

  lemma LineAppendsWhole(lines: seq<Event>, e: Event)
    requires LinesWhole(lines) && LineWhole(e)
    ensures LinesWhole(lines + [e])
  {
  }

  lemma FactsFit(s: State, u: Id, mat: Material, now: nat)
    requires Facts(s) && u in s.uploads && s.uploads[u].artifact in s.ix.artifacts
    requires !Clashes(s.ix.versions, NewRow(s.ix, s.uploads[u], mat, now))
    ensures Fits(s.ix, s.next, NewRow(s.ix, s.uploads[u], mat, now), s.uploads[u].name)
  {
    hide Sound, LinesWhole, RowsTold, PointersTold, Clashes;
    SessionArtifact(s, u);
  }

  lemma FactsAdmit(s: State, u: Id, mat: Material, now: nat)
    requires Facts(s) && u in s.uploads
    requires !Stale(s.ix.fences, s.uploads[u].ticket, s.uploads[u].fence)
    requires s.uploads[u].artifact in s.ix.artifacts
    requires !Clashes(s.ix.versions, NewRow(s.ix, s.uploads[u], mat, now))
    ensures Admitted(s.ix, s.next, NewRow(s.ix, s.uploads[u], mat, now), s.uploads[u].name)
  {
    hide Facts, Fits, Clashes;
    FactsFit(s, u, mat, now);
  }

  lemma SessionArtifact(s: State, u: Id)
    requires NamesTold(s) && u in s.uploads && s.uploads[u].artifact in s.ix.artifacts
    ensures NamesArtifact(s.ix.artifacts, s.uploads[u].artifact, s.uploads[u].ticket, s.uploads[u].name)
  {
    var up := s.uploads[u];
    var at := s.ix.artifacts[up.artifact];
    assert SessionNames(up, up.artifact, up.ticket, up.name);
    assert NamedAs(s, up.artifact, up.ticket, up.name);
    assert NamesArtifact(s.ix.artifacts, up.artifact, at.ticket, at.name);
    assert NamedAs(s, up.artifact, at.ticket, at.name);
  }

  lemma CommittedRows(s: State, t: State, row: VersionRow, name: string)
    requires RowsMinted(s) && row.sha.Some? && t.next == s.next + 1
    requires t.ix == CommitIndex(s.ix, s.next, row) && t.journal == s.journal + [LineOf(s.next, row, name)]
    ensures RowsFrom(s, t)
  {
    hide AddRef, RaiseFence;
    forall v | v in t.ix.versions
      ensures v < t.next && RowFrom(s, t, v)
    {
      if v == s.next {
        assert IsLineOf(t.journal[|s.journal|], v);
      }
    }
  }

  lemma CommittedNames(s: State, t: State, u: Id, line: Event)
    requires u in s.uploads && line.VersionCommitted? && t.journal == s.journal + [line]
    requires LineNames(line, s.uploads[u].artifact, s.uploads[u].ticket, s.uploads[u].name)
    requires forall a: Id, tk, n :: NamesArtifact(t.ix.artifacts, a, tk, n) ==> NamesArtifact(s.ix.artifacts, a, tk, n)
    requires t.uploads.Keys == s.uploads.Keys
    requires forall w | w in s.uploads ::
             SessionNames(t.uploads[w], s.uploads[w].artifact, s.uploads[w].ticket, s.uploads[w].name)
    ensures NamesFrom(s, t, "", "")
  {
    forall a: Id, tk, n | NamedAs(t, a, tk, n)
      ensures NamedAs(s, a, tk, n)
    {
      if w :| w in t.uploads && SessionNames(t.uploads[w], a, tk, n) {
        assert w in s.uploads && SessionNames(s.uploads[w], a, tk, n);
      } else if i :| 0 <= i < |t.journal| && LineNames(t.journal[i], a, tk, n) {
        assert SessionNames(t.uploads[u], s.uploads[u].artifact, s.uploads[u].ticket, s.uploads[u].name);
        assert i < |s.journal| && LineNames(s.journal[i], a, tk, n);
      }
    }
  }

  lemma CommittedPointers(s: State, t: State, row: VersionRow, name: string)
    requires RowsMinted(s) && row.sha.Some? && t.next == s.next + 1
    requires t.ix == CommitIndex(s.ix, s.next, row) && t.journal == s.journal + [LineOf(s.next, row, name)]
    ensures PointersFrom(s, t)
  {
    hide AddRef, RaiseFence;
    forall a: Id, w: Id | Pointed(t, a, w)
      ensures Pointed(s, a, w) || (s.next <= w < t.next && Owns(t, a, w))
    {
      if w == s.next && a == row.artifact {
        NewOwns(s, t, row, name);
      } else if i :| 0 <= i < |t.journal| && LinePoints(t.journal[i], a, w) {
        assert i < |s.journal| && LinePoints(s.journal[i], a, w);
      }
    }
  }

  lemma NewOwns(s: State, t: State, row: VersionRow, name: string)
    requires RowsMinted(s) && row.sha.Some?
    requires t.journal == s.journal + [LineOf(s.next, row, name)]
    requires s.next in t.ix.versions ==> t.ix.versions[s.next] == row
    ensures Owns(t, row.artifact, s.next)
  {
    forall i | 0 <= i < |t.journal| && IsLineOf(t.journal[i], s.next)
      ensures t.journal[i].row.artifact == row.artifact
    {
      assert i < |s.journal| ==> About(s.journal[i], s.next);
    }
  }

  /** Tables stay; the journal gains a line for the next version, or lines about nothing new. */
  ghost predicate LineFits(s: State, e: Event) {
    && LineWhole(e)
    && match e
       case VersionCommitted(v, row, name) =>
         v == s.next && exists u | u in s.uploads :: SessionNames(s.uploads[u], row.artifact, row.ticket, name)
       case PointerMove(a, to) =>
         to.Some? ==>
           to.value in s.ix.versions && s.ix.versions[to.value].artifact == a && !s.ix.versions[to.value].IsMarker()
       case Aborted(v) => v == s.next
       case _ => true
  }

  /** A line for the next version uses that id up. */
  ghost predicate Mints(s: State, t: State, more: seq<Event>) {
    s.next <= t.next && (s.next < t.next || forall e | e in more :: !e.VersionCommitted? && !e.Aborted?)
  }

  lemma LinedRows(s: State, t: State, more: seq<Event>)
    requires RowsMinted(s) && t.ix.versions == s.ix.versions && t.journal == s.journal + more && Mints(s, t, more)
    requires |more| <= 2 && (|more| >= 1 ==> LineFits(s, more[0])) && (|more| == 2 ==> more[1] == Aborted(s.next))
    ensures RowsFrom(s, t)
  {
    hide SessionNames;
    assert forall i | |s.journal| <= i < |t.journal| :: t.journal[i] == more[i - |s.journal|];
  }

  lemma LinedNames(s: State, t: State, more: seq<Event>)
    requires t.journal == s.journal + more && t.uploads == s.uploads
    requires |more| <= 2 && (|more| >= 1 ==> LineFits(s, more[0])) && (|more| == 2 ==> more[1] == Aborted(s.next))
    requires forall a: Id, tk, n :: NamesArtifact(t.ix.artifacts, a, tk, n) ==> NamesArtifact(s.ix.artifacts, a, tk, n)
    ensures NamesFrom(s, t, "", "")
  {
    forall a: Id, tk, n | NamedAs(t, a, tk, n)
      ensures NamedAs(s, a, tk, n)
    {
      if i :| 0 <= i < |t.journal| && LineNames(t.journal[i], a, tk, n) {
        if i < |s.journal| {
          assert LineNames(s.journal[i], a, tk, n);
        } else {
          assert t.journal[i] == more[i - |s.journal|];
        }
      }
    }
  }

  lemma LinedPointers(s: State, t: State, more: seq<Event>)
    requires RowsMinted(s) && LinesWhole(s.journal) && t.ix.versions == s.ix.versions && t.journal == s.journal + more
    requires Mints(s, t, more) && RowsFrom(s, t)
    requires |more| <= 2 && (|more| >= 1 ==> LineFits(s, more[0])) && (|more| == 2 ==> more[1] == Aborted(s.next))
    requires forall a | a in t.ix.artifacts ::
               && a in s.ix.artifacts
               && (t.ix.artifacts[a].current == s.ix.artifacts[a].current
                   || (|more| >= 1 && Moves(more[0], a) && !more[0].VersionCommitted?
                       && t.ix.artifacts[a].current == Target(more[0])))
    ensures PointersFrom(s, t)
  {
    assert forall i | |s.journal| <= i < |t.journal| :: t.journal[i] == more[i - |s.journal|];
    forall a: Id, w: Id | Pointed(t, a, w)
      ensures || Pointed(s, a, w)
              || (w in s.ix.versions && s.ix.versions[w].artifact == a && !s.ix.versions[w].IsMarker())
              || (s.next <= w < t.next && Owns(t, a, w))
    {
      if i :| 0 <= i < |t.journal| && LinePoints(t.journal[i], a, w) {
        if i < |s.journal| {
          assert LinePoints(s.journal[i], a, w);
        } else if t.journal[i].VersionCommitted? {
          assert i == |s.journal| && w == s.next;
          OnlyLineOwns(s, t, a, i);
        }
      }
    }
  }

  lemma OnlyLineOwns(s: State, t: State, a: Id, i: nat)
    requires RowsMinted(s) && t.ix.versions == s.ix.versions && RowsFrom(s, t)
    requires |s.journal| <= i < |t.journal| && IsLineOf(t.journal[i], s.next) && t.journal[i].row.artifact == a
    ensures Owns(t, a, s.next)
  {
    forall k | 0 <= k < |t.journal| && IsLineOf(t.journal[k], s.next)
      ensures k == i
    {
      if k < |s.journal| {
        assert About(s.journal[k], s.next);
      }
    }
  }

  /** Lines behind unchanged tables. */
  lemma LinedSteps(s: State, t: State, more: seq<Event>)
    requires Facts(s) && t.ix == s.ix && t.uploads == s.uploads && t.journal == s.journal + more && Mints(s, t, more)
    requires |more| <= 2 && (|more| >= 1 ==> LineFits(s, more[0])) && (|more| == 2 ==> more[1] == Aborted(s.next))
    ensures Steps(s, t, "", "")
  {
    LinedRows(s, t, more);
    LinedNames(s, t, more);
    LinedPointers(s, t, more);
    hide Sound, RowsTold, NamesTold, PointersTold, RowsFrom, NamesFrom, PointersFrom;
  }

  lemma FailedSteps(s: State, u: Id, mat: Material, now: nat, fault: Fault)
    requires Facts(s) && u in s.uploads && CommitTxn(s, u, mat, now, fault).reply.Err?
    ensures Steps(s, CommitTxn(s, u, mat, now, fault).after, "", "")
  {
    hide CommitTxn, Clashes, MaxSeq, Facts;
    CommitEffect(s, u, mat, now, fault);
    FailedCommitLines(s, u, mat, now, fault);
    var t, row := CommitTxn(s, u, mat, now, fault).after, NewRow(s.ix, s.uploads[u], mat, now);
    var line := LineOf(s.next, row, s.uploads[u].name);
    assert SessionNames(s.uploads[u], row.artifact, row.ticket, s.uploads[u].name);
    assert LineFits(s, line);
    var more := if t.journal == s.journal then []
      else if t.journal == s.journal + [Aborted(s.next)] then [Aborted(s.next)]
                else [line, Aborted(s.next)];
    assert s.journal + [] == s.journal;
    LinedSteps(s, t, more);
  }

  lemma CommitFacts(s: State, p: Principal, u: Id, mat: Material, now: nat, limits: Limits, fault: Fault)
    requires Facts(s)
    ensures Facts(Commit(s, p, u, mat, now, limits, fault).after)
            && RowsKept(s, Commit(s, p, u, mat, now, limits, fault).after)
  {
    hide Facts, Steps, RowsKept, Commit, CommitTxn;
    SameKept(s);
    if Commit(s, p, u, mat, now, limits, fault).after != s {
      CommitIsTxn(s, p, u, mat, now, limits, fault);
      if CommitTxn(s, u, mat, now, fault).reply.Ok? {
        CommitSteps(s, u, mat, now, fault);
      } else {
        FailedSteps(s, u, mat, now, fault);
      }
      FactsStep(s, CommitTxn(s, u, mat, now, fault).after, "", "");
    }
  }

  lemma DeleteFacts(s: State, p: Principal, a: Id, now: nat)
    requires Facts(s)
    ensures Facts(Delete(s, p, a, now).after) && RowsKept(s, Delete(s, p, a, now).after)
  {
    hide Clashes, MaxSeq, Facts, Steps, RowsKept;
    SameKept(s);
    var t := Delete(s, p, a, now).after;
    if t.journal != s.journal {
      var e, row := DeleteMarker(s.next, a), MarkerRow(s.ix, a, s.next, p.sub, now);
      var mid := s.(ix := AddMarker(s.ix, s.next, row), next := s.next + 1);
      MarkedSteps(s, mid, row);
      FactsStep(s, mid, "", "");
      PointedFacts(mid, t, e);
      KeptTransitive(s, mid, t);
    } else if t != s {
      QuietSteps(s, t);
      FactsStep(s, t, "", "");
    }
  }

  lemma MarkedSteps(s: State, t: State, row: VersionRow)
    requires Facts(s) && row.IsMarker() && row.artifact in s.ix.artifacts && row.seqNo >= 1
             && !Clashes(s.ix.versions, row)
    requires t == s.(ix := AddMarker(s.ix, s.next, row), next := s.next + 1)
    ensures Steps(s, t, "", "")
  {
    MarkerSound(s.ix, s.next, row);
    MarkedRows(s, t, row);
    hide Sound, RowsTold, NamesTold, PointersTold, RowsFrom, Clashes;
  }

  lemma MarkedRows(s: State, t: State, row: VersionRow)
    requires RowsMinted(s) && row.IsMarker() && t == s.(ix := AddMarker(s.ix, s.next, row), next := s.next + 1)
    ensures RowsFrom(s, t)
  {
    forall i | 0 <= i < |s.journal|
      ensures !IsLineOf(s.journal[i], s.next)
    {
      assert IsLineOf(s.journal[i], s.next) ==> About(s.journal[i], s.next);
    }
  }

  /** A line that points an artifact at one of its rows or nowhere, and the pointer it sets. */
  lemma PointedFacts(s: State, t: State, e: Event)
    requires Facts(s) && (e.DeleteMarker? || e.PointerMove?) && LineFits(s, e) && s.next <= t.next
    requires t.ix == SetPointer(s.ix, e.artifact, Target(e)) && t.journal == s.journal + [e] && t.uploads == s.uploads
    ensures Facts(t) && RowsKept(s, t)
  {
    PointerSound(s.ix, e.artifact, Target(e));
    LineAppendsWhole(s.journal, e);
    hide Sound, RowsTold, NamesTold, PointersTold, RowsFrom, NamesFrom, PointersFrom, LinesWhole;
    LinedRows(s, t, [e]);
    LinedNames(s, t, [e]);
    LinedPointers(s, t, [e]);
    FactsStep(s, t, "", "");
  }

  lemma RestoreFacts(s: State, a: Id, v: Id)
    requires Facts(s)
    ensures Facts(Restore(s, a, v).after) && RowsKept(s, Restore(s, a, v).after)
  {
    hide Facts, RowsKept;
    SameKept(s);
    if Restore(s, a, v).reply.Ok? {
      PointedFacts(s, Restore(s, a, v).after, PointerMove(a, Some(v)));
    }
  }

  lemma CollectFacts(s: State, order: seq<Sha>)
    requires Facts(s) && Lists(order, Unreferenced(PurgeChains(s.ix, MarkedChains(s.ix))))
    ensures Facts(Collect(s, order)) && RowsKept(s, Collect(s, order))
  {
    var g := PurgeChains(s.ix, MarkedChains(s.ix));
    PurgeSound(s.ix, MarkedChains(s.ix));
    DropSound(g, Elements(order));
    CollectSteps(s, order);
    FactsStep(s, Collect(s, order), "", "");
  }

  lemma CollectSteps(s: State, order: seq<Sha>)
    requires Facts(s)
    ensures var t := Collect(s, order);
            RowsFrom(s, t) && NamesFrom(s, t, "", "") && PointersFrom(s, t) && LinesWhole(t.journal)
  {
    hide Sound, RowsTold, NamesTold, PointersTold, RefCount, MarkedChains;
    var t := Collect(s, order);
    forall a: Id, tk, n | NamedAs(t, a, tk, n)
      ensures NamedAs(s, a, tk, n)
    {
      if i :| 0 <= i < |t.journal| && LineNames(t.journal[i], a, tk, n) {
        assert i < |s.journal| && LineNames(s.journal[i], a, tk, n);
      }
    }
    forall a: Id, w: Id | Pointed(t, a, w)
      ensures Pointed(s, a, w)
    {
      if i :| 0 <= i < |t.journal| && LinePoints(t.journal[i], a, w) {
        assert i < |s.journal| && LinePoints(s.journal[i], a, w);
      }
    }
  }

  // ----- boots ---------------------------------------------------------------------------------------------------

  ghost predicate RowSourced(f: Index, ix: Index, lines: seq<Event>, w: Id)
    requires w in f.versions
  {
    || (w in ix.versions && f.versions[w] == ix.versions[w])
    || (exists i | 0 <= i < |lines| :: IsLineOf(lines[i], w) && lines[i].row.Journaled() == f.versions[w])
  }

  ghost predicate NameSourced(ix: Index, lines: seq<Event>, a: Id, ticket: Ticket, name: string) {
    || NamesArtifact(ix.artifacts, a, ticket, name)
    || (exists i | 0 <= i < |lines| :: LineNames(lines[i], a, ticket, name))
  }

  ghost predicate PointerSourced(ix: Index, lines: seq<Event>, a: Id, w: Id) {
    || (a in ix.artifacts && ix.artifacts[a].current == Some(w))
    || (exists i | 0 <= i < |lines| :: LinePoints(lines[i], a, w))
  }

  /** Everything a replay ends with was in the tables or comes from a line. */
  ghost predicate Sourced(f: Index, ix: Index, lines: seq<Event>) {
    && (forall w | w in f.versions :: RowSourced(f, ix, lines, w))
    && (forall a: Id, tk, n :: NamesArtifact(f.artifacts, a, tk, n) ==> NameSourced(ix, lines, a, tk, n))
    && (forall a: Id, w: Id | a in f.artifacts && f.artifacts[a].current == Some(w) :: PointerSourced(ix, lines, a, w))
  }

  lemma NextRowSourced(f: Index, ix: Index, lines: seq<Event>, e: Event, w: Id)
    requires Sourced(f, ix, lines) && ApplyEvent(f, e).Some? && w in ApplyEvent(f, e).value.versions
    ensures RowSourced(ApplyEvent(f, e).value, ix, lines + [e], w)
  {
    NextRows(f, e);
    hide ApplyEvent, Clashes;
    var after := lines + [e];
    assert after[|lines|] == e;
    if w in f.versions {
      assert RowSourced(f, ix, lines, w);
      if i :| 0 <= i < |lines| && IsLineOf(lines[i], w) && lines[i].row.Journaled() == f.versions[w] {
        assert after[i] == lines[i];
      }
    }
  }

  lemma NextNameSourced(f: Index, ix: Index, lines: seq<Event>, e: Event, a: Id, tk: Ticket, n: string)
    requires Sourced(f, ix, lines) && ApplyEvent(f, e).Some?
             && NamesArtifact(ApplyEvent(f, e).value.artifacts, a, tk, n)
    ensures NameSourced(ix, lines + [e], a, tk, n)
  {
    NextNames(f, e);
    hide ApplyEvent, NameTaken;
    var after := lines + [e];
    assert after[|lines|] == e;
    if a in f.artifacts {
      assert NamesArtifact(f.artifacts, a, tk, n);
      if i :| 0 <= i < |lines| && LineNames(lines[i], a, tk, n) {
        assert after[i] == lines[i];
      }
    }
  }

  lemma NextPointerSourced(f: Index, ix: Index, lines: seq<Event>, e: Event, a: Id, w: Id)
    requires Sourced(f, ix, lines) && ApplyEvent(f, e).Some?
    requires a in ApplyEvent(f, e).value.artifacts && ApplyEvent(f, e).value.artifacts[a].current == Some(w)
    ensures PointerSourced(ix, lines + [e], a, w)
  {
    NextPointer(f, e);
    hide ApplyEvent;
    var after := lines + [e];
    assert after[|lines|] == e;
    if a in f.artifacts && f.artifacts[a].current == Some(w) {
      assert PointerSourced(ix, lines, a, w);
      if i :| 0 <= i < |lines| && LinePoints(lines[i], a, w) {
        assert after[i] == lines[i];
      }
    }
  }

  lemma SourcedNext(f: Index, ix: Index, lines: seq<Event>, e: Event)
    requires Sourced(f, ix, lines) && ApplyEvent(f, e).Some?
    ensures Sourced(ApplyEvent(f, e).value, ix, lines + [e])
  {
    hide ApplyEvent, RowSourced, NameSourced, PointerSourced;
    var g := ApplyEvent(f, e).value;
    forall w | w in g.versions
      ensures RowSourced(g, ix, lines + [e], w)
    {
      NextRowSourced(f, ix, lines, e, w);
    }
    forall a: Id, tk, n | NamesArtifact(g.artifacts, a, tk, n)
      ensures NameSourced(ix, lines + [e], a, tk, n)
    {
      NextNameSourced(f, ix, lines, e, a, tk, n);
    }
    forall a: Id, w: Id | a in g.artifacts && g.artifacts[a].current == Some(w)
      ensures PointerSourced(ix, lines + [e], a, w)
    {
      NextPointerSourced(f, ix, lines, e, a, w);
    }
  }

  lemma {:induction false} ReplaySourced(ix: Index, lines: seq<Event>)
    requires ReplayLines(ix, lines).Some?
    ensures Sourced(ReplayLines(ix, lines).value, ix, lines)
  {
    if lines != [] {
      hide ApplyEvent, Sourced;
      ReplaySourced(ix, Front(lines));
      SourcedNext(ReplayLines(ix, Front(lines)).value, ix, Front(lines), Last(lines));
      assert Front(lines) + [Last(lines)] == lines;
    }
  }

  lemma BootSteps(s: State, r: Index)
    requires Facts(s) && Rebuild(s.ix, s.journal) == Some(r)
    ensures Steps(s, s.(ix := r), "", "")
  {
    RebuildSound(s.ix, s.journal);
    ReplaySourced(s.ix, s.journal);
    hide ReplayLines, Sound, RowsTold, NamesTold, PointersTold;
    var f, t := ReplayLines(s.ix, s.journal).value, s.(ix := r);
    BootRows(s, t, f);
    BootNames(s, t, f);
    BootPointers(s, t, f);
  }

  lemma BootRows(s: State, t: State, f: Index)
    requires RowsMinted(s) && LinesWhole(s.journal) && Sourced(f, s.ix, s.journal)
    requires t == s.(ix := t.ix) && t.ix.versions == f.versions
    ensures RowsFrom(s, t)
  {
    forall v | v in t.ix.versions
      ensures v < t.next && RowFrom(s, t, v)
    {
      assert RowSourced(f, s.ix, s.journal, v);
      if i :| 0 <= i < |s.journal| && IsLineOf(s.journal[i], v) && s.journal[i].row.Journaled() == f.versions[v] {
        assert LineWhole(s.journal[i]) && About(s.journal[i], v);
      }
    }
  }

  lemma BootNames(s: State, t: State, f: Index)
    requires Sourced(f, s.ix, s.journal) && t == s.(ix := t.ix) && t.ix.artifacts == f.artifacts
    ensures NamesFrom(s, t, "", "")
  {
    forall a: Id, tk, n | NamedAs(t, a, tk, n)
      ensures NamedAs(s, a, tk, n)
    {
      if NamesArtifact(t.ix.artifacts, a, tk, n) {
        assert NameSourced(s.ix, s.journal, a, tk, n);
      }
    }
  }

  lemma BootPointers(s: State, t: State, f: Index)
    requires Sourced(f, s.ix, s.journal) && t == s.(ix := t.ix) && t.ix.artifacts == f.artifacts
    ensures PointersFrom(s, t)
  {
    forall a: Id, w: Id | Pointed(t, a, w)
      ensures Pointed(s, a, w)
    {
      if a in t.ix.artifacts && t.ix.artifacts[a].current == Some(w) {
        assert PointerSourced(s.ix, s.journal, a, w);
      }
    }
  }

  lemma BootFacts(s: State)
    requires Facts(s)
    ensures Facts(Reboot(s)) && RowsKept(s, Reboot(s))
  {
    hide Facts, Rebuild, Steps, RowsKept;
    SameKept(s);
    if Rebuild(s.ix, s.journal).Some? {
      BootSteps(s, Rebuild(s.ix, s.journal).value);
      FactsStep(s, Reboot(s), "", "");
    }
  }

  // ----- crashes -------------------------------------------------------------------------------------------------

  /** The first line an interruptible operation adds fits. */
  lemma FirstLineFits(s: State, inner: Op, limits: Limits)
    requires Facts(s) && Interruptible(inner)
    ensures var t := Step(s, inner, limits);
            && s.journal <= t.journal && s.next <= t.next
            && (|t.journal| > |s.journal| ==>
                LineFits(s, t.journal[|s.journal|]) && Mints(s, t, [t.journal[|s.journal|]]))
  {
    StepGrows(s, inner, limits);
    hide Commit, Clashes, MaxSeq, Facts, SessionNames;
    if inner.DoCommit? {
      var u, mat := inner.u, inner.mat;
      if Commit(s, inner.p, u, mat, inner.now, limits, inner.fault).after != s {
        hide CommitTxn;
        CommitIsTxn(s, inner.p, u, mat, inner.now, limits, inner.fault);
        CommitEffect(s, u, mat, inner.now, inner.fault);
        if CommitTxn(s, u, mat, inner.now, inner.fault).reply.Err? {
          FailedCommitLines(s, u, mat, inner.now, inner.fault);
        }
        SessionNamesItself(s, u);
      }
    }
  }

  lemma SessionNamesItself(s: State, u: Id)
    requires u in s.uploads
    ensures SessionNames(s.uploads[u], s.uploads[u].artifact, s.uploads[u].ticket, s.uploads[u].name)
  {
  }

  lemma CrashFacts(s: State, inner: Op, moved: bool, limits: Limits)
    requires Facts(s) && Interruptible(inner)
    ensures Facts(Step(s, DoCrash(inner, moved), limits)) && RowsKept(s, Step(s, DoCrash(inner, moved), limits))
  {
    FirstLineFits(s, inner, limits);
    hide Facts, LineFits, RowsKept, Crashed, Mints, Commit, Delete, Restore;
    CrashedFacts(s, Step(s, inner, limits), moved);
  }

  lemma CrashedFacts(s: State, t: State, moved: bool)
    requires Facts(s) && s.journal <= t.journal && s.next <= t.next
    requires |t.journal| > |s.journal| ==> LineFits(s, t.journal[|s.journal|]) && Mints(s, t, [t.journal[|s.journal|]])
    ensures Facts(Crashed(s, t, moved)) && RowsKept(s, Crashed(s, t, moved))
  {
    hide Facts, LineFits, RowsKept, Crashed, Torn, Reboot;
    var torn := Torn(s, t);
    TornLines(s, t);
    TornFacts(s, torn, Survivors(s, t));
    BootFacts(torn);
    KeptTransitive(s, torn, Reboot(torn));
    CrashIsBoot(s, t, moved);
    UnseenDisk(s, Reboot(torn), Crashed(s, t, moved));
  }

  lemma TornFacts(s: State, torn: State, more: seq<Event>)
    requires Facts(s) && torn.ix == s.ix && torn.uploads == s.uploads && torn.journal == s.journal + more
             && Mints(s, torn, more)
    requires |more| <= 1 && (|more| == 1 ==> LineFits(s, more[0]))
    ensures Facts(torn) && RowsKept(s, torn)
  {
    hide Facts, Steps, LineFits;
    LinedSteps(s, torn, more);
    FactsStep(s, torn, "", "");
  }

  lemma UnseenDisk(before: State, s: State, t: State)
    requires Facts(s) && RowsKept(before, s) && t.ix == s.ix && t.uploads == s.uploads && t.journal == s.journal
             && t.next == s.next
    ensures Facts(t) && RowsKept(before, t)
  {
    hide Sound, RowsTold, LinesWhole;
    assert forall a: Id, tk, n :: NamedAs(t, a, tk, n) <==> NamedAs(s, a, tk, n);
    assert forall a: Id, w: Id :: Pointed(t, a, w) <==> Pointed(s, a, w);
  }

  // ----- every run -----------------------------------------------------------------------------------------------

  lemma SameKept(s: State)
    ensures RowsKept(s, s)
  {
  }

  lemma StepFacts(s: State, op: Op, limits: Limits)
    requires Facts(s)
    ensures Facts(Step(s, op, limits)) && RowsKept(s, Step(s, op, limits))
  {
    hide Facts, Steps, RowsKept, Commit, Delete, Restore, Register, Collect, Reboot, Crashed, Looked;
    SameKept(s);
    match op {
      case DoRegister(p, intent, found, session, now) =>
        if Looked(s, p, intent, found, session) {
          RegisterSteps(s, p, intent, found, session, now, limits);
          FactsStep(s, Step(s, op, limits), intent.ticket, intent.name);
        }
      case DoCommit(p, u, mat, now, fault) => CommitFacts(s, p, u, mat, now, limits, fault);
      case DoDelete(p, a, now) => DeleteFacts(s, p, a, now);
      case DoRestore(a, v) => RestoreFacts(s, a, v);
      case DoCollect(order) =>
        if Lists(order, Unreferenced(PurgeChains(s.ix, MarkedChains(s.ix)))) {
          CollectFacts(s, order);
        }
      case DoReboot => BootFacts(s);
      case DoCrash(inner, moved) =>
        if Interruptible(inner) {
          CrashFacts(s, inner, moved, limits);
        }
      case _ =>
        hide Step;
        SessionOpsQuiet(s, op, limits);
        QuietSteps(s, Step(s, op, limits));
        FactsStep(s, Step(s, op, limits), "", "");
    }
  }

  lemma {:induction false} FactsRuns(ops: seq<Op>, limits: Limits)
    ensures Facts(Run(ops, limits))
  {
    if ops != [] {
      hide Facts, Step;
      FactsRuns(Front(ops), limits);
      StepFacts(Run(Front(ops), limits), Last(ops), limits);
    }
  }

  lemma {:induction false} RunKeepsRows(pre: seq<Op>, post: seq<Op>, limits: Limits)
    ensures RowsKept(Run(pre, limits), Run(pre + post, limits))
  {
    if post == [] {
      assert pre + post == pre;
      SameKept(Run(pre, limits));
    } else {
      hide Facts, Step, RowsKept;
      var before := pre + Front(post);
      assert Front(pre + post) == before && Last(pre + post) == Last(post);
      RunKeepsRows(pre, Front(post), limits);
      FactsRuns(before, limits);
      StepFacts(Run(before, limits), Last(post), limits);
      KeptTransitive(Run(pre, limits), Run(before, limits), Run(pre + post, limits));
    }
  }

  /**
   * Over every run whatever each blob's refcount is the number of version rows naming it, every row has its artifact
   * and its blob, and no two rows share a place in a chain, an operation, or a name.
   */
  lemma RefcountAccounting(ops: seq<Op>, limits: Limits, s: State)
    requires s == Run(ops, limits)
    ensures RefsCounted(s.ix) && RowsLinked(s.ix) && RowsUnique(s.ix.versions) && NamesUnique(s.ix.artifacts)
  {
    FactsRuns(ops, limits);
  }

  /**
   * Over every run whatever a version's row never changes but for the hint that is not journaled, and no id is used
   * twice: a row with an id minted before was in the table then, or comes back from a line the journal had then.
   */
  lemma RowsNeverChange(pre: seq<Op>, post: seq<Op>, limits: Limits, s: State, t: State, v: Id)
    requires s == Run(pre, limits) && t == Run(pre + post, limits) && v in t.ix.versions && v < s.next
    ensures OldRow(s, v, t.ix.versions[v])
    ensures v in s.ix.versions ==> t.ix.versions[v].Journaled() == s.ix.versions[v].Journaled()
  {
    hide Sound, LinesWhole, NamesTold, PointersTold;
    RunKeepsRows(pre, post, limits);
    FactsRuns(pre, limits);
  }

  lemma FactsMinted(s: State)
    requires Facts(s)
    ensures JournalMinted(s)
  {
  }

  /** While one process lives, surviving rows do not change at all, and no row comes back. */
  lemma {:induction false} RunAppends(pre: seq<Op>, post: seq<Op>, limits: Limits)
    requires BootFreeRun(post)
    ensures RowsAppendOnly(Run(pre, limits), Run(pre + post, limits))
  {
    if post == [] {
      assert pre + post == pre;
    } else {
      hide Step;
      assert Front(pre + post) == pre + Front(post) && Last(pre + post) == Last(post);
      assert BootFreeRun(Front(post)) && BootFree(Last(post));
      RunAppends(pre, Front(post), limits);
      StepAppends(Run(pre + Front(post), limits), Last(post), limits);
    }
  }
}
