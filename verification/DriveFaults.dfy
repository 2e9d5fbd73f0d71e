/**
 * The exact limit of rebuilding across I/O faults.  A commit that fails after its line is durable
 * is rolled back and compensated by an `aborted` line; replaying the pair removes the row again
 * but undoes neither the pointer move, nor the raised fence, nor the adopted blob row.
 */
module DriveFaults {
  import opened Prelude
  import opened DriveIndex
  import opened DriveMachine
  import opened DriveReplay
  import opened DriveSafety
  import opened DriveRuns
  import opened DriveLive
  import opened DriveFacts
  import opened DriveAlways
  import opened DriveFencing

  /** A committed line whose transaction was rolled back. */
  predicate Dead(lines: seq<Event>, e: Event) {
    e.VersionCommitted? && Aborted(e.version) in lines
  }

  predicate Alive(lines: seq<Event>, e: Event) {
    e.VersionCommitted? && Aborted(e.version) !in lines
  }

  // ----- what each line says about the live index -------------------------------------------------------

  ghost predicate FaultLine(lines: seq<Event>, ix: Index, e: Event) {
    match e
    case VersionCommitted(v, row, name) =>
      && row.sha.Some?
      && NamesArtifact(ix.artifacts, row.artifact, row.ticket, name)
      && if Dead(lines, e) then v !in ix.versions else LineHolds(e, ix)
    case _ => LineHolds(e, ix)
  }

  ghost predicate FaultLines(lines: seq<Event>, ix: Index) {
    forall i | 0 <= i < |lines| :: FaultLine(lines, ix, lines[i])
  }

  /** A boot has replayed line `i`: `marks` are the lengths the journal had at the boots. */
  ghost predicate Seen(marks: set<nat>, i: nat) {
    exists m | m in marks :: i < m
  }

  /** A boot that comes up marks the lines it replayed; a crash boots before the line that survived it. */
  ghost function MarksAfter(s: State, op: Op, marks: set<nat>): set<nat> {
    if (op.DoReboot? && Rebuild(s.ix, s.journal).Some?) || (op.DoCrash? && Interruptible(op.inner)) then
      marks + {|s.journal|}
    else marks
  }

  /** The lengths the journal had at the boots of a run. */
  ghost function Marks(ops: seq<Op>, limits: Limits): set<nat> {
    if ops == [] then {} else MarksAfter(Run(Front(ops), limits), Last(ops), Marks(Front(ops), limits))
  }

  ghost predicate MarksWithin(marks: set<nat>, lines: seq<Event>) {
    forall m | m in marks :: m <= |lines|
  }

  /** A committed line shows in the live tables: its commit stands, or a boot has replayed it. */
  ghost predicate Shown(lines: seq<Event>, marks: set<nat>, i: nat)
    requires i < |lines|
  {
    lines[i].VersionCommitted? && (Alive(lines, lines[i]) || Seen(marks, i))
  }

  /** Rolled back, and replayed by no boot since. */
  ghost predicate Hidden(lines: seq<Event>, marks: set<nat>, i: nat)
    requires i < |lines|
  {
    Dead(lines, lines[i]) && !Seen(marks, i)
  }

  /** Line `j` is the last to move the artifact's pointer. */
  ghost predicate LastMoveAt(lines: seq<Event>, a: Id, j: nat) {
    && j < |lines| && Moves(lines[j], a)
    && forall i | j < i < |lines| :: !Moves(lines[i], a)
  }

  /** The live pointer is where the last moving line says exactly unless that line is hidden. */
  ghost predicate FaultTip(lines: seq<Event>, ix: Index, a: Id, marks: set<nat>)
    requires a in ix.artifacts
  {
    && (LastMove(lines, a).None? ==> ix.artifacts[a].current == None)
    && forall j: nat | LastMoveAt(lines, a, j) :: ix.artifacts[a].current == Target(lines[j]) <==>
      !Hidden(lines, marks, j)
  }

  ghost predicate FaultTips(lines: seq<Event>, ix: Index, marks: set<nat>) {
    forall a | a in ix.artifacts :: FaultTip(lines, ix, a, marks)
  }

  /** The live high-water is the largest token among the lines that show. */
  ghost predicate LiveFences(fences: map<Ticket, nat>, lines: seq<Event>, marks: set<nat>) {
    && (forall t | t in fences :: exists i | 0 <= i < |lines| ::
          Shown(lines, marks, i) && Carries(lines[i], t) && lines[i].row.fence.value == fences[t])
    && (forall i, t: Ticket | 0 <= i < |lines| && Shown(lines, marks, i) && Carries(lines[i], t) ::
          t in fences && lines[i].row.fence.value <= fences[t])
  }

  /** Every byte-holding row still has its line. */
  ghost predicate RowsLined(lines: seq<Event>, ix: Index) {
    forall v | v in ix.versions && !ix.versions[v].IsMarker() ::
      exists i | 0 <= i < |lines| :: Alive(lines, lines[i]) && lines[i].version == v
  }

  // ----- what replaying the lines gives -------------------------------------------------------------------

  /** A line commits to the artifact, rolled back or not. */
  ghost predicate CommittedTo(lines: seq<Event>, a: Id) {
    exists i | 0 <= i < |lines| :: lines[i].VersionCommitted? && lines[i].row.artifact == a
  }

  ghost predicate AdoptedArtifact(f: Index, ix: Index, lines: seq<Event>, a: Id)
    requires a in f.artifacts
  {
    && a in ix.artifacts
    && f.artifacts[a].ticket == ix.artifacts[a].ticket
    && f.artifacts[a].name == ix.artifacts[a].name
    && LastMove(lines, a).Some?
    && f.artifacts[a].current == Target(LastMove(lines, a).value)
  }

  ghost predicate FaultMirror(f: Index, ix: Index, lines: seq<Event>) {
    && f.versions == ByteRows(ix.versions)
    && (forall a | a in f.artifacts :: AdoptedArtifact(f, ix, lines, a))
    && (forall a: Id | HasBytes(ix.versions, a) :: a in f.artifacts)
    && HighWaterIsMax(f.fences, lines)
    && (forall a: Id :: a in f.artifacts <==> CommittedTo(lines, a))
  }

  ghost predicate PointersMinted(ix: Index, next: Id) {
    forall a | a in ix.artifacts && ix.artifacts[a].current.Some? :: ix.artifacts[a].current.value < next
  }

  ghost predicate FaultCore(ix: Index, lines: seq<Event>, next: Id, marks: set<nat>) {
    && Minted(ix, lines, next)
    && FaultLines(lines, ix)
    && FaultTips(lines, ix, marks)
    && LiveFences(ix.fences, lines, marks)
    && RowsLined(lines, ix)
    && LivePrints(ix.blobs, lines, marks)
    && MarksWithin(marks, lines)
    && PointersMinted(ix, next)
    && ReplayLines(EMPTY, lines).Some?
    && FaultMirror(ReplayLines(EMPTY, lines).value, ix, lines)
  }

  // ----- one more line, replayed ----------------------------------------------------------------------------

  lemma CommittedAppend(lines: seq<Event>, e: Event, a: Id)
    ensures CommittedTo(lines + [e], a) <==> CommittedTo(lines, a) || (e.VersionCommitted? && e.row.artifact == a)
  {
    var after := lines + [e];
    assert after[|lines|] == e;
    if CommittedTo(lines, a) {
      var i :| 0 <= i < |lines| && lines[i].VersionCommitted? && lines[i].row.artifact == a;
      assert after[i] == lines[i];
    }
  }

  /** The pointer a replay has for an adopted artifact resolves below the next seq, or dangles. */
  lemma AdoptedSeqBelow(f: Index, ix: Index, lines: seq<Event>, a: Id)
    requires f.versions == ByteRows(ix.versions) && FaultLines(lines, ix)
    requires a in f.artifacts ==> AdoptedArtifact(f, ix, lines, a)
    ensures CurrentSeq(f, a) <= MaxSeq(ix.versions, a)
  {
    if a in f.artifacts {
      LastMoveIsLine(lines, a);
      assert FaultLine(lines, ix, LastMove(lines, a).value);
    }
  }

  lemma AdoptedNotFresh(f: Index, ix: Index, lines: seq<Event>, next: Id, a: Id)
    requires Minted(ix, lines, next) && FaultLines(lines, ix) && a in f.artifacts && AdoptedArtifact(f, ix, lines, a)
    ensures f.artifacts[a].current != Some(next)
  {
    LastMoveIsLine(lines, a);
    var e := LastMove(lines, a).value;
    assert LineMinted(e, next) && FaultLine(lines, ix, e);
  }

  lemma FaultyLineApplies(f: Index, ix: Index, lines: seq<Event>, v: Id, row: VersionRow, name: string)
    requires Minted(ix, lines, v) && FaultLines(lines, ix) && FaultMirror(f, ix, lines)
    requires NamesUnique(ix.artifacts) && Fits(ix, v, row, name)
    ensures row.artifact in f.artifacts || !NameTaken(f.artifacts, row.ticket, name)
    ensures ApplyEvent(f, LineOf(v, row, name)) == Some(Inserted(f, v, row, name))
  {
    NoClashAmongByteRows(ix.versions, row);
    if row.artifact in f.artifacts {
      AdoptedNotFresh(f, ix, lines, v, row.artifact);
    } else {
      forall b | b in f.artifacts
        ensures !(f.artifacts[b].ticket == row.ticket && f.artifacts[b].name == name)
      {
        assert AdoptedArtifact(f, ix, lines, b);
      }
    }
    AdoptedSeqBelow(f, ix, lines, row.artifact);
    ApplyFreshLine(f, v, row, name);
  }

  /** Tokens of a line raise the replayed high-water whether or not it is stale there. */
  lemma ReplayedMax(fences: map<Ticket, nat>, lines: seq<Event>, e: Event)
    requires HighWaterIsMax(fences, lines) && e.VersionCommitted?
    ensures HighWaterIsMax(RaiseFence(fences, e.row.ticket, e.row.fence), lines + [e])
  {
    var after, raised := lines + [e], RaiseFence(fences, e.row.ticket, e.row.fence);
    assert after[|lines|] == e;
    forall t | t in raised
      ensures exists i | 0 <= i < |after| :: Carries(after[i], t) && after[i].row.fence.value == raised[t]
    {
      if t in fences && fences[t] == raised[t] {
        var i :| 0 <= i < |lines| && Carries(lines[i], t) && lines[i].row.fence.value == fences[t];
        assert after[i] == lines[i];
      }
    }
  }

  lemma InsertedAdopts(f: Index, ix: Index, g: Index, lines: seq<Event>, v: Id, row: VersionRow, name: string)
    requires forall a | a in f.artifacts :: AdoptedArtifact(f, ix, lines, a)
    requires NamesArtifact(ix.artifacts, row.artifact, row.ticket, name)
    requires row.artifact in f.artifacts || !NameTaken(f.artifacts, row.ticket, name)
    requires forall a | a in ix.artifacts ::
               a in g.artifacts && g.artifacts[a].ticket == ix.artifacts[a].ticket
                 && g.artifacts[a].name == ix.artifacts[a].name
    ensures forall a | a in Inserted(f, v, row, name).artifacts ::
              AdoptedArtifact(Inserted(f, v, row, name), g, lines + [LineOf(v, row, name)], a)
  {
    var h := Inserted(f, v, row, name);
    forall a | a in h.artifacts
      ensures AdoptedArtifact(h, g, lines + [LineOf(v, row, name)], a)
    {
      LastMoveAppend(lines, LineOf(v, row, name), a);
      if a in f.artifacts {
        assert AdoptedArtifact(f, ix, lines, a);
      }
    }
  }

  lemma InsertedCommits(f: Index, lines: seq<Event>, v: Id, row: VersionRow, name: string)
    requires row.artifact in f.artifacts || !NameTaken(f.artifacts, row.ticket, name)
    requires forall a: Id :: a in f.artifacts <==> CommittedTo(lines, a)
    ensures forall a: Id :: a in Inserted(f, v, row, name).artifacts <==> CommittedTo(lines + [LineOf(v, row, name)], a)
  {
    forall a: Id
      ensures a in Inserted(f, v, row, name).artifacts <==> CommittedTo(lines + [LineOf(v, row, name)], a)
    {
      CommittedAppend(lines, LineOf(v, row, name), a);
    }
  }

  // ----- lines appended behind what is already there ----------------------------------------------------------

  /** `more` rolls back none of the versions `lines` committed. */
  ghost predicate Spares(lines: seq<Event>, more: seq<Event>) {
    forall i | 0 <= i < |lines| && lines[i].VersionCommitted? :: Aborted(lines[i].version) !in more
  }

  lemma SparedAlive(lines: seq<Event>, more: seq<Event>)
    requires Spares(lines, more)
    ensures forall i | 0 <= i < |lines| :: (lines + more)[i] == lines[i]
    ensures forall i | 0 <= i < |lines| :: Alive(lines + more, lines[i]) == Alive(lines, lines[i])
    ensures forall i | 0 <= i < |lines| :: Dead(lines + more, lines[i]) == Dead(lines, lines[i])
  {
  }

  lemma GrownSpares(s: State, t: State)
    requires JournalMinted(s) && Grows(s, t)
    ensures Spares(s.journal, t.journal[|s.journal|..])
    ensures s.journal + t.journal[|s.journal|..] == t.journal
  {
    var more := t.journal[|s.journal|..];
    forall i | 0 <= i < |s.journal| && s.journal[i].VersionCommitted?
      ensures Aborted(s.journal[i].version) !in more
    {
      assert About(s.journal[i], s.journal[i].version);
      if Aborted(s.journal[i].version) in more {
        var k :| 0 <= k < |more| && more[k] == Aborted(s.journal[i].version);
        assert About(t.journal[|s.journal| + k], s.journal[i].version);
      }
    }
  }

  lemma NextIsAlive(s: State, t: State, e: Event)
    requires JournalMinted(s) && Grows(s, t) && t.journal == s.journal + [e] && e.VersionCommitted?
    ensures Alive(t.journal, e)
  {
    assert About(t.journal[|s.journal|], e.version);
    if Aborted(e.version) in s.journal {
      var i :| 0 <= i < |s.journal| && s.journal[i] == Aborted(e.version);
      assert About(s.journal[i], e.version);
    }
  }

  lemma FreshSpares(ix: Index, lines: seq<Event>, next: Id, more: seq<Event>)
    requires Minted(ix, lines, next) && forall e | e in more && e.Aborted? :: e.version >= next
    ensures Spares(lines, more)
  {
    forall i | 0 <= i < |lines| && lines[i].VersionCommitted?
      ensures Aborted(lines[i].version) !in more
    {
      assert LineMinted(lines[i], next);
    }
  }

  lemma RowsStayLined(lines: seq<Event>, more: seq<Event>, ix: Index, v: Id)
    requires RowsLined(lines, ix) && Spares(lines, more) && v in ix.versions && !ix.versions[v].IsMarker()
    ensures exists i | 0 <= i < |lines + more| ::
            Alive(lines + more, (lines + more)[i]) && (lines + more)[i].version == v
  {
    SparedAlive(lines, more);
    var i :| 0 <= i < |lines| && Alive(lines, lines[i]) && lines[i].version == v;
    assert (lines + more)[i] == lines[i];
  }

  lemma SparedShown(lines: seq<Event>, more: seq<Event>, marks: set<nat>)
    requires Spares(lines, more) && MarksWithin(marks, lines)
    ensures forall i | 0 <= i < |lines| :: Shown(lines + more, marks, i) == Shown(lines, marks, i)
    ensures forall i | 0 <= i < |lines| :: Hidden(lines + more, marks, i) == Hidden(lines, marks, i)
    ensures forall i | |lines| <= i < |lines + more| :: !Seen(marks, i)
  {
    SparedAlive(lines, more);
  }

  /** Lines without a surviving commit leave the live high-waters' account as it was. */
  lemma FencesUnmoved(fences: map<Ticket, nat>, lines: seq<Event>, more: seq<Event>, marks: set<nat>)
    requires LiveFences(fences, lines, marks) && Spares(lines, more) && MarksWithin(marks, lines)
    requires forall e | e in more :: !Alive(lines + more, e)
    ensures LiveFences(fences, lines + more, marks)
  {
    SparedShown(lines, more, marks);
    SparedAlive(lines, more);
    var after := lines + more;
    assert forall i | |lines| <= i < |after| :: after[i] in more;
    forall t | t in fences
      ensures exists i | 0 <= i < |after| ::
              Shown(after, marks, i) && Carries(after[i], t) && after[i].row.fence.value == fences[t]
    {
      var i :| 0 <= i < |lines| && Shown(lines, marks, i) && Carries(lines[i], t)
        && lines[i].row.fence.value == fences[t];
      assert after[i] == lines[i];
    }
    forall i, t: Ticket | 0 <= i < |after| && Shown(after, marks, i) && Carries(after[i], t)
      ensures t in fences && after[i].row.fence.value <= fences[t]
    {
      assert i < |lines| && after[i] == lines[i];
    }
  }

  lemma FencesRaised(fences: map<Ticket, nat>, lines: seq<Event>, e: Event, marks: set<nat>)
    requires LiveFences(fences, lines, marks) && Alive(lines + [e], e) && Spares(lines, [e])
             && MarksWithin(marks, lines)
    ensures LiveFences(RaiseFence(fences, e.row.ticket, e.row.fence), lines + [e], marks)
  {
    SparedShown(lines, [e], marks);
    SparedAlive(lines, [e]);
    hide Alive, Seen;
    var after, raised := lines + [e], RaiseFence(fences, e.row.ticket, e.row.fence);
    assert after[|lines|] == e && Shown(after, marks, |lines|) by { ShownLast(lines, e, marks); }
    forall t | t in raised
      ensures exists i | 0 <= i < |after| ::
              Shown(after, marks, i) && Carries(after[i], t) && after[i].row.fence.value == raised[t]
    {
      if t in fences && fences[t] == raised[t] {
        var i :| 0 <= i < |lines| && Shown(lines, marks, i) && Carries(lines[i], t)
          && lines[i].row.fence.value == fences[t];
        assert after[i] == lines[i];
      }
    }
    forall i, t: Ticket | 0 <= i < |after| && Shown(after, marks, i) && Carries(after[i], t)
      ensures t in raised && after[i].row.fence.value <= raised[t]
    {
      if i < |lines| {
        assert after[i] == lines[i];
      }
    }
  }

  lemma ShownLast(lines: seq<Event>, e: Event, marks: set<nat>)
    requires Alive(lines + [e], e)
    ensures (lines + [e])[|lines|] == e && Shown(lines + [e], marks, |lines|)
  {
  }

  // ----- the last move, as lines are appended ----------------------------------------------------------------------

  lemma LastMoveAtAppend(lines: seq<Event>, e: Event, a: Id, j: nat)
    ensures LastMoveAt(lines + [e], a, j) <==> if Moves(e, a) then j == |lines| else LastMoveAt(lines, a, j)
  {
    var after := lines + [e];
    assert after[|lines|] == e;
    assert forall i | 0 <= i < |lines| :: after[i] == lines[i];
  }

  lemma {:induction false} LastMoveFound(lines: seq<Event>, a: Id) returns (j: nat)
    requires LastMove(lines, a).Some?
    ensures LastMoveAt(lines, a, j) && lines[j] == LastMove(lines, a).value
  {
    if Moves(Last(lines), a) {
      j := |lines| - 1;
    } else {
      j := LastMoveFound(Front(lines), a);
      assert forall i | j < i < |lines| :: lines[i] == if i < |lines| - 1 then Front(lines)[i] else Last(lines);
    }
  }

  lemma {:induction false} LastMoveIsAt(lines: seq<Event>, a: Id, j: nat)
    requires LastMoveAt(lines, a, j)
    ensures LastMove(lines, a) == Some(lines[j])
  {
    if j < |lines| - 1 {
      assert !Moves(lines[|lines| - 1], a);
      LastMoveIsAt(Front(lines), a, j);
    }
  }

  /** A line that leaves the pointer of an artifact alone leaves its account alone. */
  lemma TipStays(lines: seq<Event>, ix: Index, g: Index, e: Event, a: Id, marks: set<nat>)
    requires a in ix.artifacts && a in g.artifacts && g.artifacts[a].current == ix.artifacts[a].current && !Moves(e, a)
    requires FaultTip(lines, ix, a, marks) && Spares(lines, [e]) && MarksWithin(marks, lines)
    ensures FaultTip(lines + [e], g, a, marks)
  {
    LastMoveAppend(lines, e, a);
    SparedShown(lines, [e], marks);
    forall j: nat | LastMoveAt(lines + [e], a, j)
      ensures g.artifacts[a].current == Target((lines + [e])[j]) <==> !Hidden(lines + [e], marks, j)
    {
      LastMoveAtAppend(lines, e, a, j);
    }
  }

  /** A line that moves it and is not rolled back puts it where it says. */
  lemma TipMoves(lines: seq<Event>, g: Index, e: Event, a: Id, marks: set<nat>)
    requires a in g.artifacts && g.artifacts[a].current == Target(e) && Moves(e, a) && !Dead(lines + [e], e)
    ensures FaultTip(lines + [e], g, a, marks)
  {
    LastMoveAppend(lines, e, a);
    forall j: nat | LastMoveAt(lines + [e], a, j)
      ensures g.artifacts[a].current == Target((lines + [e])[j]) <==> !Hidden(lines + [e], marks, j)
    {
      LastMoveAtAppend(lines, e, a, j);
    }
  }

  // ----- the blob row a line leaves --------------------------------------------------------------------------------

  /** What the line that inserts a blob row fixes in it for good. */
  datatype Print = Print(size: nat, createdAt: nat)

  function PrintIn(blobs: map<Sha, BlobRow>, x: Sha): Option<Print> {
    if x in blobs then Some(Print(blobs[x].size, blobs[x].createdAt)) else None
  }

  predicate NamesBlob(e: Event, x: Sha) { e.VersionCommitted? && e.row.sha == Some(x) }

  /** Size and creation time on the first line that names the blob. */
  function FirstPrint(lines: seq<Event>, x: Sha): Option<Print> {
    if lines == [] then None
    else if FirstPrint(Front(lines), x).Some? then FirstPrint(Front(lines), x)
    else if NamesBlob(Last(lines), x) then Some(Print(Last(lines).row.size, Last(lines).row.createdAt))
    else None
  }

  /**
   * The print of the live row: of the first line that was not rolled back, unless a boot came between the first line
   * and that one, which then took the first.
   */
  ghost function ShownPrint(lines: seq<Event>, all: seq<Event>, x: Sha, marks: set<nat>): Option<Print> {
    var live :=
      if lines == [] then None
      else if ShownPrint(Front(lines), all, x, marks).Some? then ShownPrint(Front(lines), all, x, marks)
      else if NamesBlob(Last(lines), x) && Alive(all, Last(lines)) then
        Some(Print(Last(lines).row.size, Last(lines).row.createdAt))
      else None;
    if live.None? && |lines| in marks then FirstPrint(lines, x) else live
  }

  /** Every live blob row has such a print, and there are no others. */
  ghost predicate LivePrints(blobs: map<Sha, BlobRow>, lines: seq<Event>, marks: set<nat>) {
    forall x: Sha :: PrintIn(blobs, x) == ShownPrint(lines, lines, x, marks)
  }

  lemma {:induction false} SamePrint(lines: seq<Event>, all: seq<Event>, more: seq<Event>, x: Sha, marks: set<nat>)
    requires forall e | e in lines :: Alive(all + more, e) == Alive(all, e)
    ensures ShownPrint(lines, all + more, x, marks) == ShownPrint(lines, all, x, marks)
  {
    if lines != [] {
      assert forall e | e in Front(lines) :: e in lines;
      assert Last(lines) in lines;
      SamePrint(Front(lines), all, more, x, marks);
    }
  }

  lemma FirstPrintAppend(lines: seq<Event>, e: Event, x: Sha)
    ensures FirstPrint(lines + [e], x) ==
            if FirstPrint(lines, x).Some? then FirstPrint(lines, x)
            else if NamesBlob(e, x) then Some(Print(e.row.size, e.row.createdAt))
            else None
  {
    assert Front(lines + [e]) == lines;
  }

  lemma PrintAppend(lines: seq<Event>, e: Event, all: seq<Event>, x: Sha, marks: set<nat>)
    requires MarksWithin(marks, lines)
    ensures ShownPrint(lines + [e], all, x, marks) ==
            if ShownPrint(lines, all, x, marks).Some? then ShownPrint(lines, all, x, marks)
            else if NamesBlob(e, x) && Alive(all, e) then Some(Print(e.row.size, e.row.createdAt))
            else None
  {
    assert Front(lines + [e]) == lines;
    assert |lines + [e]| !in marks;
  }

  /** Lines without a surviving commit leave the blob rows' account as it was. */
  lemma {:induction false} PrintsStay(blobs: map<Sha, BlobRow>, lines: seq<Event>, more: seq<Event>, marks: set<nat>)
    requires MarksWithin(marks, lines) && LivePrints(blobs, lines, marks) && Spares(lines, more)
             && forall e | e in more :: !Alive(lines + more, e)
    ensures LivePrints(blobs, lines + more, marks)
  {
    SparedAlive(lines, more);
    forall x: Sha
      ensures ShownPrint(lines + more, lines + more, x, marks) == ShownPrint(lines, lines, x, marks)
    {
      SamePrint(lines, lines, more, x, marks);
      NoPrintBehind(lines, more, lines + more, x, marks);
    }
  }

  lemma {:induction false} NoPrintBehind(lines: seq<Event>, more: seq<Event>, all: seq<Event>, x: Sha, marks: set<nat>)
    requires MarksWithin(marks, lines)
    requires forall e | e in more :: !Alive(all, e)
    ensures ShownPrint(lines + more, all, x, marks) == ShownPrint(lines, all, x, marks)
  {
    if more == [] {
      assert lines + more == lines;
    } else {
      assert lines + more == lines + Front(more) + [Last(more)];
      NoPrintBehind(lines, Front(more), all, x, marks);
      PrintAppend(lines + Front(more), Last(more), all, x, marks);
    }
  }

  lemma PrintsAdded(blobs: map<Sha, BlobRow>, lines: seq<Event>, e: Event, marks: set<nat>)
    requires MarksWithin(marks, lines) && LivePrints(blobs, lines, marks) && e.VersionCommitted? && e.row.sha.Some?
             && Alive(lines + [e], e)
             && Spares(lines, [e])
    ensures LivePrints(AddRef(blobs, e.row.sha.value, e.row.size, e.row.createdAt), lines + [e], marks)
  {
    SparedAlive(lines, [e]);
    var after := AddRef(blobs, e.row.sha.value, e.row.size, e.row.createdAt);
    forall x: Sha
      ensures PrintIn(after, x) == ShownPrint(lines + [e], lines + [e], x, marks)
    {
      SamePrint(lines, lines, [e], x, marks);
      PrintAppend(lines, e, lines + [e], x, marks);
    }
  }

  /** A replay without purge lines ends with the blob rows of the first lines that name them. */
  lemma {:induction false} ReplayPrints(lines: seq<Event>)
    requires ReplayLines(EMPTY, lines).Some? && forall e | e in lines :: !e.GcPurge?
    ensures forall x: Sha :: PrintIn(ReplayLines(EMPTY, lines).value.blobs, x) == FirstPrint(lines, x)
  {
    if lines != [] {
      var f, e := ReplayLines(EMPTY, Front(lines)).value, Last(lines);
      assert lines == Front(lines) + [e] && e in lines && forall d | d in Front(lines) :: d in lines;
      ReplayPrints(Front(lines));
      forall x: Sha
        ensures PrintIn(ApplyEvent(f, e).value.blobs, x) == FirstPrint(lines, x)
      {
        ApplyPrint(f, e, x);
        FirstPrintAppend(Front(lines), e, x);
      }
    }
  }

  lemma ApplyPrint(f: Index, e: Event, x: Sha)
    requires ApplyEvent(f, e).Some? && !e.GcPurge?
    ensures PrintIn(ApplyEvent(f, e).value.blobs, x) ==
            if x in f.blobs then PrintIn(f.blobs, x)
            else if NamesBlob(e, x) then Some(Print(e.row.size, e.row.createdAt))
            else None
  {
    hide Clashes, NameTaken, RefCount, CurrentSeq, RaiseFence;
  }

  // ----- a successful commit --------------------------------------------------------------------------------------

  lemma AliveLines(ix: Index, lines: seq<Event>, v: Id, row: VersionRow, name: string)
    requires FaultLines(lines, ix) && Minted(ix, lines, v) && Fits(ix, v, row, name)
    ensures FaultLines(lines + [LineOf(v, row, name)], CommitIndex(ix, v, row))
  {
    var after, g := lines + [LineOf(v, row, name)], CommitIndex(ix, v, row);
    FreshSpares(ix, lines, v, [LineOf(v, row, name)]);
    SparedAlive(lines, [LineOf(v, row, name)]);
    forall i | 0 <= i < |after|
      ensures FaultLine(after, g, after[i])
    {
      if i < |lines| {
        assert FaultLine(lines, ix, lines[i]) && LineMinted(lines[i], v);
      } else {
        FreshAlive(ix, lines, v, LineOf(v, row, name));
      }
    }
  }

  lemma FreshAlive(ix: Index, lines: seq<Event>, v: Id, e: Event)
    requires Minted(ix, lines, v) && e.VersionCommitted? && e.version == v
    ensures Alive(lines + [e], e)
  {
    forall i | 0 <= i < |lines|
      ensures lines[i] != Aborted(v)
    {
      assert LineMinted(lines[i], v);
    }
  }

  lemma AliveTips(ix: Index, lines: seq<Event>, v: Id, row: VersionRow, name: string, marks: set<nat>)
    requires FaultTips(lines, ix, marks) && Minted(ix, lines, v) && Fits(ix, v, row, name) && MarksWithin(marks, lines)
    ensures FaultTips(lines + [LineOf(v, row, name)], CommitIndex(ix, v, row), marks)
  {
    var e, g := LineOf(v, row, name), CommitIndex(ix, v, row);
    FreshSpares(ix, lines, v, [e]);
    FreshAlive(ix, lines, v, e);
    hide FaultTip, Spares, MarksWithin, AddRef, RaiseFence;
    forall a | a in g.artifacts
      ensures FaultTip(lines + [e], g, a, marks)
    {
      if a == row.artifact {
        TipMoves(lines, g, e, a, marks);
      } else {
        assert FaultTip(lines, ix, a, marks);
        TipStays(lines, ix, g, e, a, marks);
      }
    }
  }

  lemma AliveRows(ix: Index, lines: seq<Event>, v: Id, row: VersionRow, name: string)
    requires RowsLined(lines, ix) && Minted(ix, lines, v) && Fits(ix, v, row, name)
    ensures RowsLined(lines + [LineOf(v, row, name)], CommitIndex(ix, v, row))
  {
    var e := LineOf(v, row, name);
    FreshSpares(ix, lines, v, [e]);
    FreshAlive(ix, lines, v, e);
    assert (lines + [e])[|lines|] == e;
    forall w | w in ix.versions && !ix.versions[w].IsMarker()
      ensures exists i | 0 <= i < |lines + [e]| :: Alive(lines + [e], (lines + [e])[i]) && (lines + [e])[i].version == w
    {
      RowsStayLined(lines, [e], ix, w);
    }
  }

  lemma AliveMirror(f: Index, ix: Index, lines: seq<Event>, v: Id, row: VersionRow, name: string)
    requires FaultMirror(f, ix, lines) && Fits(ix, v, row, name)
    requires row.artifact in f.artifacts || !NameTaken(f.artifacts, row.ticket, name)
    ensures FaultMirror(Inserted(f, v, row, name), CommitIndex(ix, v, row), lines + [LineOf(v, row, name)])
  {
    var h, g := Inserted(f, v, row, name), CommitIndex(ix, v, row);
    InsertedRows(f, ix, v, row, name);
    InsertedAdopts(f, ix, g, lines, v, row, name);
    ReplayedMax(f.fences, lines, LineOf(v, row, name));
    InsertedCommits(f, lines, v, row, name);
    forall a: Id | HasBytes(g.versions, a)
      ensures a in h.artifacts
    {
      BytesAfterInsert(ix.versions, v, row, a);
    }
  }

  lemma CommitFaultCore(ix: Index, lines: seq<Event>, v: Id, row: VersionRow, name: string, marks: set<nat>)
    requires Sound(ix) && FaultCore(ix, lines, v, marks) && Fits(ix, v, row, name)
    ensures FaultCore(CommitIndex(ix, v, row), lines + [LineOf(v, row, name)], v + 1, marks)
  {
    hide FaultLines, FaultTips, RowsLined, LiveFences, LivePrints, Minted, FaultMirror;
    var g, e := CommitIndex(ix, v, row), LineOf(v, row, name);
    assert FaultLines(lines + [e], g) by { AliveLines(ix, lines, v, row, name); }
    assert FaultTips(lines + [e], g, marks) by { AliveTips(ix, lines, v, row, name, marks); }
    assert RowsLined(lines + [e], g) by { AliveRows(ix, lines, v, row, name); }
    assert LiveFences(g.fences, lines + [e], marks) by {
      FreshSpares(ix, lines, v, [e]);
      FreshAlive(ix, lines, v, e);
      FencesRaised(ix.fences, lines, e, marks);
    }
    assert LivePrints(g.blobs, lines + [e], marks) by {
      FreshSpares(ix, lines, v, [e]);
      FreshAlive(ix, lines, v, e);
      PrintsAdded(ix.blobs, lines, e, marks);
    }
    assert Minted(g, lines + [e], v + 1) by { CommitMinted(ix, lines, v, row, name); }
    assert ReplayLines(EMPTY, lines + [e]).Some?
           && FaultMirror(ReplayLines(EMPTY, lines + [e]).value, g, lines + [e]) by {
      var f := ReplayLines(EMPTY, lines).value;
      FaultyLineApplies(f, ix, lines, v, row, name);
      ReplayAppend(EMPTY, lines, e);
      AliveMirror(f, ix, lines, v, row, name);
    }
  }

  // ----- a commit rolled back after its line -------------------------------------------------------------------------

  lemma DeadMirror(f: Index, ix: Index, lines: seq<Event>, v: Id, row: VersionRow, name: string)
    requires FaultMirror(f, ix, lines) && Fits(ix, v, row, name)
    requires row.artifact in f.artifacts || !NameTaken(f.artifacts, row.ticket, name)
    ensures var h := Inserted(f, v, row, name);
            FaultMirror(h.(versions := h.versions - {v}), ix, lines + [LineOf(v, row, name)] + [Aborted(v)])
  {
    var e := LineOf(v, row, name);
    var h := Inserted(f, v, row, name);
    var k := h.(versions := h.versions - {v});
    assert k.versions == ByteRows(ix.versions);
    InsertedAdopts(f, ix, ix, lines, v, row, name);
    ReplayedMax(f.fences, lines, e);
    OtherLineKeepsMax(h.fences, lines + [e], Aborted(v));
    InsertedCommits(f, lines, v, row, name);
    forall a: Id
      ensures a in k.artifacts <==> CommittedTo(lines + [e] + [Aborted(v)], a)
    {
      CommittedAppend(lines + [e], Aborted(v), a);
    }
    forall a | a in k.artifacts
      ensures AdoptedArtifact(k, ix, lines + [e] + [Aborted(v)], a)
    {
      LastMoveAppend(lines + [e], Aborted(v), a);
      assert AdoptedArtifact(h, ix, lines + [e], a);
    }
  }

  lemma DeadLines(ix: Index, lines: seq<Event>, v: Id, row: VersionRow, name: string)
    requires FaultLines(lines, ix) && Minted(ix, lines, v) && Fits(ix, v, row, name)
    ensures FaultLines(lines + [LineOf(v, row, name), Aborted(v)], ix)
  {
    var more := [LineOf(v, row, name), Aborted(v)];
    var after := lines + more;
    FreshSpares(ix, lines, v, more);
    SparedAlive(lines, more);
    assert after[|lines| + 1] == Aborted(v);
    forall i | 0 <= i < |after|
      ensures FaultLine(after, ix, after[i])
    {
      if i < |lines| {
        assert FaultLine(lines, ix, lines[i]);
      }
    }
  }

  lemma DeadTips(ix: Index, lines: seq<Event>, v: Id, row: VersionRow, name: string, marks: set<nat>)
    requires FaultTips(lines, ix, marks) && Minted(ix, lines, v) && MarksWithin(marks, lines) && PointersMinted(ix, v)
    ensures FaultTips(lines + [LineOf(v, row, name), Aborted(v)], ix, marks)
  {
    var e := LineOf(v, row, name);
    var more := [e, Aborted(v)];
    FreshSpares(ix, lines, v, more);
    SparedShown(lines, more, marks);
    assert lines + more == lines + [e] + [Aborted(v)];
    assert (lines + more)[|lines| + 1] == Aborted(v) && (lines + more)[|lines|] == e;
    forall a | a in ix.artifacts
      ensures FaultTip(lines + more, ix, a, marks)
    {
      LastMoveAppend(lines, e, a);
      LastMoveAppend(lines + [e], Aborted(v), a);
      assert FaultTip(lines, ix, a, marks);
      forall j: nat | LastMoveAt(lines + more, a, j)
        ensures ix.artifacts[a].current == Target((lines + more)[j]) <==> !Hidden(lines + more, marks, j)
      {
        LastMoveAtAppend(lines + [e], Aborted(v), a, j);
        LastMoveAtAppend(lines, e, a, j);
      }
    }
  }

  lemma RollbackReplay(ix: Index, lines: seq<Event>, v: Id, row: VersionRow, name: string, marks: set<nat>)
    requires Sound(ix) && FaultCore(ix, lines, v, marks) && Fits(ix, v, row, name)
    ensures var after := lines + [LineOf(v, row, name)] + [Aborted(v)];
            ReplayLines(EMPTY, after).Some? && FaultMirror(ReplayLines(EMPTY, after).value, ix, after)
  {
    hide RowsLinked, RowsUnique, PointersValid, RefsCounted, FaultLines, FaultTips, RowsLined, LiveFences, Minted,
      Inserted;
    hide FaultMirror, Fits;
    var e, f := LineOf(v, row, name), ReplayLines(EMPTY, lines).value;
    FaultyLineApplies(f, ix, lines, v, row, name);
    ReplayAppend(EMPTY, lines, e);
    ReplayAppend(EMPTY, lines + [e], Aborted(v));
    hide ReplayLines;
    DeadMirror(f, ix, lines, v, row, name);
  }

  lemma RollbackFaultCore(ix: Index, lines: seq<Event>, v: Id, row: VersionRow, name: string, marks: set<nat>)
    requires Sound(ix) && FaultCore(ix, lines, v, marks) && Fits(ix, v, row, name)
    ensures FaultCore(ix, lines + [LineOf(v, row, name), Aborted(v)], v + 1, marks)
  {
    hide Sound, FaultMirror, ReplayLines, FaultLines, FaultTips, LiveFences, LivePrints;
    var e := LineOf(v, row, name);
    var more := [e, Aborted(v)];
    var after := lines + more;
    assert after == lines + [e] + [Aborted(v)];
    assert FaultLines(after, ix) by { DeadLines(ix, lines, v, row, name); }
    assert FaultTips(after, ix, marks) by { DeadTips(ix, lines, v, row, name, marks); }
    assert RowsLined(after, ix) && LiveFences(ix.fences, after, marks) && LivePrints(ix.blobs, after, marks) by {
      FreshSpares(ix, lines, v, more);
      assert after[|lines| + 1] == Aborted(v);
      FencesUnmoved(ix.fences, lines, more, marks);
      PrintsStay(ix.blobs, lines, more, marks);
      forall w | w in ix.versions && !ix.versions[w].IsMarker()
        ensures exists i | 0 <= i < |after| :: Alive(after, after[i]) && after[i].version == w
      {
        RowsStayLined(lines, more, ix, w);
      }
    }
    assert Minted(ix, after, v + 1);
    RollbackReplay(ix, lines, v, row, name, marks);
  }

  // ----- lines that commit nothing ----------------------------------------------------------------------------------

  lemma QuietTips(ix: Index, g: Index, lines: seq<Event>, e: Event, marks: set<nat>)
    requires FaultTips(lines, ix, marks) && !e.VersionCommitted? && Spares(lines, [e]) && MarksWithin(marks, lines)
    requires g.artifacts.Keys == ix.artifacts.Keys
    requires forall a | a in ix.artifacts :: g.artifacts[a].current == if Moves(e, a) then Target(e)
             else ix.artifacts[a].current
    ensures FaultTips(lines + [e], g, marks)
  {
    hide FaultTip, Spares, MarksWithin;
    forall a | a in g.artifacts
      ensures FaultTip(lines + [e], g, a, marks)
    {
      assert a in ix.artifacts.Keys;
      if Moves(e, a) {
        TipMoves(lines, g, e, a, marks);
      } else {
        assert FaultTip(lines, ix, a, marks);
        TipStays(lines, ix, g, e, a, marks);
      }
    }
  }

  lemma QuietRows(ix: Index, lines: seq<Event>, e: Event, marks: set<nat>)
    requires RowsLined(lines, ix) && LiveFences(ix.fences, lines, marks) && !e.VersionCommitted? && Spares(lines, [e])
             && MarksWithin(marks, lines)
    ensures RowsLined(lines + [e], ix) && LiveFences(ix.fences, lines + [e], marks)
  {
    FencesUnmoved(ix.fences, lines, [e], marks);
    forall w | w in ix.versions && !ix.versions[w].IsMarker()
      ensures exists i | 0 <= i < |lines + [e]| :: Alive(lines + [e], (lines + [e])[i]) && (lines + [e])[i].version == w
    {
      RowsStayLined(lines, [e], ix, w);
    }
  }

  lemma QuietLines(ix: Index, g: Index, lines: seq<Event>, e: Event)
    requires FaultLines(lines, ix) && Spares(lines, [e]) && LineHolds(e, ix) && !e.VersionCommitted?
    requires g.versions == ix.versions && g.fences == ix.fences && g.artifacts.Keys == ix.artifacts.Keys
    requires forall a | a in ix.artifacts :: g.artifacts[a].(current := None) == ix.artifacts[a].(current := None)
    ensures FaultLines(lines + [e], g)
  {
    SparedAlive(lines, [e]);
    forall i | 0 <= i < |lines + [e]|
      ensures FaultLine(lines + [e], g, (lines + [e])[i])
    {
      if i < |lines| {
        assert FaultLine(lines, ix, lines[i]);
        assert ix.artifacts.Keys == g.artifacts.Keys;
      }
    }
  }

  lemma CompensationReplay(ix: Index, lines: seq<Event>, v: Id, marks: set<nat>)
    requires FaultCore(ix, lines, v, marks)
    ensures var after := lines + [Aborted(v)];
            ReplayLines(EMPTY, after).Some? && FaultMirror(ReplayLines(EMPTY, after).value, ix, after)
  {
    hide FaultLines, FaultTips, RowsLined, LiveFences;
    var e, f := Aborted(v), ReplayLines(EMPTY, lines).value;
    ReplayAppend(EMPTY, lines, e);
    assert f.versions - {v} == f.versions;
    QuietMirror(f, f, ix, ix, lines, e);
  }

  lemma CompensationFaultCore(ix: Index, lines: seq<Event>, v: Id, marks: set<nat>)
    requires FaultCore(ix, lines, v, marks)
    ensures FaultCore(ix, lines + [Aborted(v)], v + 1, marks)
  {
    hide FaultMirror, ReplayLines, FaultLines, FaultTips, RowsLined, LiveFences, LivePrints;
    var e := Aborted(v);
    FreshSpares(ix, lines, v, [e]);
    QuietLines(ix, ix, lines, e);
    QuietTips(ix, ix, lines, e, marks);
    QuietRows(ix, lines, e, marks);
    PrintsStay(ix.blobs, lines, [e], marks);
    assert Minted(ix, lines + [e], v + 1);
    CompensationReplay(ix, lines, v, marks);
  }

  /** A line that commits nothing, seen from the replay: pointers follow it, nothing else changes. */
  lemma QuietMirror(f: Index, h: Index, ix: Index, g: Index, lines: seq<Event>, e: Event)
    requires FaultMirror(f, ix, lines) && !e.VersionCommitted?
    requires h.versions == f.versions && h.fences == f.fences && h.blobs == f.blobs
             && h.artifacts.Keys == f.artifacts.Keys
    requires g.versions == ix.versions && g.artifacts.Keys == ix.artifacts.Keys
    requires forall a | a in ix.artifacts :: g.artifacts[a].(current := None) == ix.artifacts[a].(current := None)
    requires forall a | a in f.artifacts ::
               h.artifacts[a] == f.artifacts[a].(current := if Moves(e, a) then Target(e) else f.artifacts[a].current)
    ensures FaultMirror(h, g, lines + [e])
  {
    OtherLineKeepsMax(f.fences, lines, e);
    forall a: Id
      ensures a in h.artifacts <==> CommittedTo(lines + [e], a)
    {
      CommittedAppend(lines, e, a);
      assert a in h.artifacts.Keys <==> a in f.artifacts.Keys;
    }
    forall a | a in h.artifacts
      ensures AdoptedArtifact(h, g, lines + [e], a)
    {
      LastMoveAppend(lines, e, a);
      assert AdoptedArtifact(f, ix, lines, a);
      assert a in ix.artifacts.Keys;
    }
  }

  lemma PointerFaultMirror(ix: Index, lines: seq<Event>, a: Id, to: Option<Id>, e: Event)
    requires ReplayLines(EMPTY, lines).Some? && FaultMirror(ReplayLines(EMPTY, lines).value, ix, lines)
             && Points(e, a, to)
    ensures ReplayLines(EMPTY, lines + [e]).Some?
    ensures FaultMirror(ReplayLines(EMPTY, lines + [e]).value, SetPointer(ix, a, to), lines + [e])
  {
    hide FaultMirror;
    var f := ReplayLines(EMPTY, lines).value;
    ReplayAppend(EMPTY, lines, e);
    QuietMirror(f, SetPointer(f, a, to), ix, SetPointer(ix, a, to), lines, e);
  }

  lemma PointerFaultCore(ix: Index, lines: seq<Event>, next: Id, a: Id, to: Option<Id>, e: Event, marks: set<nat>)
    requires FaultCore(ix, lines, next, marks) && Points(e, a, to) && LineHolds(e, ix) && LineMinted(e, next)
    requires to.Some? ==> to.value < next
    ensures FaultCore(SetPointer(ix, a, to), lines + [e], next, marks)
  {
    hide FaultMirror, FaultLines, FaultTips, RowsLined, LiveFences, Minted, LivePrints, LineHolds, ReplayLines;
    var g := SetPointer(ix, a, to);
    FreshSpares(ix, lines, next, [e]);
    PointerTip(ix, lines, a, to, e, marks);
    hide Spares;
    PointerKeepsRows(ix, lines, next, a, to, e, marks);
    PointerMinted(ix, lines, next, a, to, e);
    PointerFaultMirror(ix, lines, a, to, e);
  }

  lemma PointerTip(ix: Index, lines: seq<Event>, a: Id, to: Option<Id>, e: Event, marks: set<nat>)
    requires FaultTips(lines, ix, marks) && Points(e, a, to) && Spares(lines, [e]) && MarksWithin(marks, lines)
    ensures FaultTips(lines + [e], SetPointer(ix, a, to), marks) && MarksWithin(marks, lines + [e])
  {
    hide FaultTips, Spares;
    QuietTips(ix, SetPointer(ix, a, to), lines, e, marks);
  }

  lemma PointerKeepsRows(ix: Index, lines: seq<Event>, next: Id, a: Id, to: Option<Id>, e: Event, marks: set<nat>)
    requires RowsLined(lines, ix) && LiveFences(ix.fences, lines, marks) && LivePrints(ix.blobs, lines, marks)
    requires FaultLines(lines, ix) && Points(e, a, to) && LineHolds(e, ix) && Spares(lines, [e])
             && MarksWithin(marks, lines)
    ensures var g, after := SetPointer(ix, a, to), lines + [e];
            && RowsLined(after, g) && LiveFences(g.fences, after, marks) && LivePrints(g.blobs, after, marks)
            && FaultLines(after, g)
  {
    hide FaultLines, RowsLined, LiveFences, LivePrints, LineHolds, Spares, MarksWithin;
    var g := SetPointer(ix, a, to);
    PrintsStay(ix.blobs, lines, [e], marks);
    QuietLines(ix, g, lines, e);
    QuietRows(ix, lines, e, marks);
    SameRowsLined(ix, g, lines + [e]);
  }

  lemma SameRowsLined(ix: Index, g: Index, lines: seq<Event>)
    requires RowsLined(lines, ix) && g.versions == ix.versions
    ensures RowsLined(lines, g)
  {
  }

  // ----- rows no line describes: registrations and delete markers ------------------------------------------------

  lemma RegisterFaultCore(ix: Index, lines: seq<Event>, a: Id, row: ArtifactRow, marks: set<nat>)
    requires FaultCore(ix, lines, a, marks) && row.current.None?
    ensures FaultCore(AddArtifact(ix, a, row), lines, a + 1, marks)
  {
    hide FaultTip;
    var g := AddArtifact(ix, a, row);
    var f := ReplayLines(EMPTY, lines).value;
    forall i | 0 <= i < |lines|
      ensures FaultLine(lines, g, lines[i])
    {
      assert FaultLine(lines, ix, lines[i]);
    }
    hide FaultLine, LivePrints, LiveFences, RowsLined;
    RegisterTip(ix, lines, a, row, marks);
    forall b | b in f.artifacts
      ensures AdoptedArtifact(f, g, lines, b)
    {
      assert AdoptedArtifact(f, ix, lines, b);
    }
  }

  lemma RegisterTip(ix: Index, lines: seq<Event>, a: Id, row: ArtifactRow, marks: set<nat>)
    requires FaultTips(lines, ix, marks) && row.current.None? && forall i | 0 <= i < |lines| :: LineMinted(lines[i], a)
    ensures FaultTips(lines, AddArtifact(ix, a, row), marks)
  {
    var g := AddArtifact(ix, a, row);
    forall b | b in g.artifacts
      ensures FaultTip(lines, g, b, marks)
    {
      if b == a {
        NoLineMoves(lines, a);
        forall j: nat | LastMoveAt(lines, a, j)
          ensures false
        {
          LastMoveIsAt(lines, a, j);
        }
      } else {
        assert FaultTip(lines, ix, b, marks);
      }
    }
  }

  lemma MarkerFaultLines(ix: Index, lines: seq<Event>, v: Id, row: VersionRow, marks: set<nat>)
    requires FaultLines(lines, ix) && FaultTips(lines, ix, marks) && FreshMarker(ix, lines, v, row)
    requires forall i | 0 <= i < |lines| && lines[i].VersionCommitted? :: lines[i].version != v
    ensures FaultLines(lines, AddMarker(ix, v, row)) && FaultTips(lines, AddMarker(ix, v, row), marks)
  {
    var g := AddMarker(ix, v, row);
    forall i | 0 <= i < |lines|
      ensures FaultLine(lines, g, lines[i])
    {
      assert FaultLine(lines, ix, lines[i]) && lines[i] in lines;
    }
    forall b | b in g.artifacts
      ensures FaultTip(lines, g, b, marks)
    {
      assert FaultTip(lines, ix, b, marks);
    }
  }

  lemma MarkerFaultMirror(f: Index, ix: Index, lines: seq<Event>, v: Id, row: VersionRow)
    requires FaultMirror(f, ix, lines) && row.IsMarker() && v !in ix.versions
    ensures FaultMirror(f, AddMarker(ix, v, row), lines)
  {
    var g := AddMarker(ix, v, row);
    assert ByteRows(g.versions) == ByteRows(ix.versions);
    forall b: Id | HasBytes(g.versions, b)
      ensures HasBytes(ix.versions, b)
    {
      var w :| w in g.versions && g.versions[w].artifact == b && !g.versions[w].IsMarker();
      assert w in ix.versions && ix.versions[w] == g.versions[w];
    }
    forall b | b in f.artifacts
      ensures AdoptedArtifact(f, g, lines, b)
    {
      assert AdoptedArtifact(f, ix, lines, b);
    }
  }

  lemma MarkerFaultCore(ix: Index, lines: seq<Event>, next: Id, v: Id, row: VersionRow, marks: set<nat>)
    requires FaultCore(ix, lines, next, marks) && FreshMarker(ix, lines, v, row) && v < next
    requires forall i | 0 <= i < |lines| && lines[i].VersionCommitted? :: lines[i].version != v
    ensures FaultCore(AddMarker(ix, v, row), lines, next, marks)
  {
    hide FaultMirror, FaultLines, FaultTips, LiveFences, LivePrints;
    MarkerFaultLines(ix, lines, v, row, marks);
    MarkerFaultMirror(ReplayLines(EMPTY, lines).value, ix, lines, v, row);
  }

  lemma LaterFaultCore(ix: Index, lines: seq<Event>, next: Id, later: Id, marks: set<nat>)
    requires FaultCore(ix, lines, next, marks) && next <= later
    ensures FaultCore(ix, lines, later, marks)
  {
  }

  // ----- each step of a live process ------------------------------------------------------------------------------

  ghost predicate Faulty(s: State, marks: set<nat>) {
    Facts(s) && FaultCore(s.ix, s.journal, s.next, marks)
  }

  lemma RegisterFaulty(s: State, p: Principal, intent: Intent, found: Option<Id>, session: Option<Id>, now: nat,
                       limits: Limits, marks: set<nat>)
    requires FaultCore(s.ix, s.journal, s.next, marks) && Looked(s, p, intent, found, session)
    ensures var t :=
            Register(s, p, intent, found, session, now, limits).after; FaultCore(t.ix, t.journal, t.next, marks)
  {
    hide FaultCore;
    LaterFaultCore(s.ix, s.journal, s.next, s.next + 1, marks);
    if found.None? {
      var row := ArtifactRow(intent.ticket, intent.name, None, p.sub, now);
      RegisterFaultCore(s.ix, s.journal, s.next, row, marks);
      LaterFaultCore(AddArtifact(s.ix, s.next, row), s.journal, s.next + 1, s.next + 2, marks);
    } else {
      assert s.ix.(artifacts := s.ix.artifacts) == s.ix;
    }
  }

  lemma CommitFaulty(s: State, p: Principal, u: Id, mat: Material, now: nat, limits: Limits, fault: Fault,
                     marks: set<nat>)
    requires Faulty(s, marks)
    ensures var t := Commit(s, p, u, mat, now, limits, fault).after; FaultCore(t.ix, t.journal, t.next, marks)
  {
    hide FaultCore, Sound, Clashes, Commit, CommitTxn, CommitIndex;
    var t := Commit(s, p, u, mat, now, limits, fault).after;
    if t != s {
      CommitIsTxn(s, p, u, mat, now, limits, fault);
      CommitEffect(s, u, mat, now, fault);
      var row, name := NewRow(s.ix, s.uploads[u], mat, now), s.uploads[u].name;
      if CommitTxn(s, u, mat, now, fault).reply.Ok? {
        FactsAdmit(s, u, mat, now);
        CommitFaultCore(s.ix, s.journal, s.next, row, name, marks);
      } else {
        FailedCommitLines(s, u, mat, now, fault);
        if t.journal == s.journal {
          LaterFaultCore(s.ix, s.journal, s.next, s.next + 1, marks);
        } else if t.journal == s.journal + [Aborted(s.next)] {
          CompensationFaultCore(s.ix, s.journal, s.next, marks);
        } else {
          FactsAdmit(s, u, mat, now);
          RollbackFaultCore(s.ix, s.journal, s.next, row, name, marks);
        }
      }
    }
  }

  lemma CoreMeans(ix: Index, lines: seq<Event>, next: Id, marks: set<nat>)
    requires FaultCore(ix, lines, next, marks)
    ensures Minted(ix, lines, next) && Aborted(next) !in lines
    ensures forall i | 0 <= i < |lines| && lines[i].VersionCommitted? :: lines[i].version < next
  {
    forall i | 0 <= i < |lines|
      ensures lines[i] != Aborted(next) && (lines[i].VersionCommitted? ==> lines[i].version < next)
    {
      assert LineMinted(lines[i], next);
    }
  }

  lemma DeleteFaulty(s: State, p: Principal, a: Id, now: nat, marks: set<nat>)
    requires Faulty(s, marks)
    ensures var t := Delete(s, p, a, now).after; FaultCore(t.ix, t.journal, t.next, marks)
  {
    hide FaultCore, Sound, Clashes;
    if a in s.ix.artifacts {
      var v, row := s.next, MarkerRow(s.ix, a, s.next, p.sub, now);
      CoreMeans(s.ix, s.journal, s.next, marks);
      LaterFaultCore(s.ix, s.journal, s.next, s.next + 1, marks);
      PointerFaultCore(s.ix, s.journal, v + 1, a, None, DeleteMarker(v, a), marks);
      LastMoveAppend(s.journal, DeleteMarker(v, a), a);
      MarkerFaultCore(SetPointer(s.ix, a, None), s.journal + [DeleteMarker(v, a)], v + 1, v, row, marks);
    }
  }

  lemma RestoreFaulty(s: State, a: Id, v: Id, marks: set<nat>)
    requires Faulty(s, marks)
    ensures var t := Restore(s, a, v).after; FaultCore(t.ix, t.journal, t.next, marks)
  {
    hide FaultCore, Sound;
    if Restore(s, a, v).reply.Ok? {
      CoreMeans(s.ix, s.journal, s.next, marks);
      PointerFaultCore(s.ix, s.journal, s.next, a, Some(v), PointerMove(a, Some(v)), marks);
    }
  }

  lemma StepFaulty(s: State, op: Op, limits: Limits, marks: set<nat>)
    requires Faulty(s, marks) && BootFree(op) && !op.DoCollect?
    ensures Faulty(Step(s, op, limits), marks)
  {
    hide FaultCore, Facts, Register, Commit, Delete, Restore, RowsKept;
    StepFacts(s, op, limits);
    match op {
      case DoRegister(p, intent, found, session, now) =>
        if Looked(s, p, intent, found, session) {
          RegisterFaulty(s, p, intent, found, session, now, limits, marks);
        }
      case DoCommit(p, u, mat, now, fault) => CommitFaulty(s, p, u, mat, now, limits, fault, marks);
      case DoDelete(p, a, now) => DeleteFaulty(s, p, a, now, marks);
      case DoRestore(a, v) => RestoreFaulty(s, a, v, marks);
      case _ =>
    }
  }
}
