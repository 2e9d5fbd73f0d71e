/**
 * Replaying a journal: over the live index it was written beside (a no-op), and the notion of
 * agreement between a rebuilt index and a live one (apps/drive/src/storage/maintenance.ts).
 */
module DriveReplay {
  import opened Prelude
  import opened DriveIndex

  // ----- what a rebuild is compared on --------------------------------------------------------------

  /** The version rows a rebuild can restore: those with bytes, as their journal lines keep them. */
  function ByteRows(versions: map<Id, VersionRow>): map<Id, VersionRow> {
    map v | v in versions && !versions[v].IsMarker() :: versions[v].Journaled()
  }

  ghost predicate SameArtifact(r: Index, ix: Index, a: Id)
    requires a in ix.artifacts
  {
    && a in r.artifacts
    && r.artifacts[a].ticket == ix.artifacts[a].ticket
    && r.artifacts[a].name == ix.artifacts[a].name
    && r.artifacts[a].current == ix.artifacts[a].current
  }

  /** Ticket, name and pointer agree on every artifact that has a committed version. */
  ghost predicate ArtifactsAgree(r: Index, ix: Index) {
    forall a | a in ix.artifacts && HasBytes(ix.versions, a) :: SameArtifact(r, ix, a)
  }

  /** A rebuild brings back no artifact without committed bytes. */
  ghost predicate NoStrays(r: Index, ix: Index) {
    forall a | a in r.artifacts :: a in ix.artifacts && HasBytes(ix.versions, a)
  }

  /** Everything a journal can tell: rows, blobs, fences, and the artifacts with bytes and no others. */
  ghost predicate Agrees(r: Index, ix: Index) {
    && r.versions == ByteRows(ix.versions)
    && r.blobs == ix.blobs
    && r.fences == ix.fences
    && ArtifactsAgree(r, ix)
    && NoStrays(r, ix)
  }

  lemma RefCountByteRows(versions: map<Id, VersionRow>, s: Sha)
    ensures RefCount(ByteRows(versions), s) == RefCount(versions, s)
  {
    assert Naming(ByteRows(versions), s) == Naming(versions, s);
  }

  // ----- the last journal line that moves an artifact's pointer -----------------------------------------

  predicate Moves(e: Event, a: Id) {
    match e
    case VersionCommitted(_, row, _) => row.artifact == a
    case DeleteMarker(_, x) => x == a
    case PointerMove(x, _) => x == a
    case _ => false
  }

  /** Where a moving line leaves the live pointer. */
  function Target(e: Event): Option<Id> {
    match e
    case VersionCommitted(v, _, _) => Some(v)
    case PointerMove(_, to) => to
    case _ => None
  }

  function LastMove(lines: seq<Event>, a: Id): Option<Event> {
    if lines == [] then None
    else if Moves(Last(lines), a) then Some(Last(lines))
    else LastMove(Front(lines), a)
  }

  lemma LastMoveAppend(lines: seq<Event>, e: Event, a: Id)
    ensures LastMove(lines + [e], a) == if Moves(e, a) then Some(e) else LastMove(lines, a)
  {
    assert Front(lines + [e]) == lines;
  }

  // ----- lines that describe rows of the index ------------------------------------------------------------

  ghost predicate LineHolds(e: Event, ix: Index) {
    match e
    case VersionCommitted(v, row, name) =>
      && v in ix.versions
      && ix.versions[v].Journaled() == row
      && row.sha.Some?
      && row.artifact in ix.artifacts
      && ix.artifacts[row.artifact].ticket == row.ticket
      && ix.artifacts[row.artifact].name == name
      && (row.fence.Some? ==> row.ticket in ix.fences && row.fence.value <= ix.fences[row.ticket])
    case PointerMove(a, to) =>
      && to.Some?
      && to.value in ix.versions
      && ix.versions[to.value].artifact == a
      && !ix.versions[to.value].IsMarker()
    case GcPurge(_) => false
    case Aborted(v) => v !in ix.versions
    case _ => true
  }

  ghost predicate LinesHold(lines: seq<Event>, ix: Index) {
    forall i | 0 <= i < |lines| :: LineHolds(lines[i], ix)
  }

  /** The live pointer is where the last moving line left it, and a committed tip has the highest seq. */
  ghost predicate TipHolds(lines: seq<Event>, ix: Index, a: Id)
    requires a in ix.artifacts
  {
    match LastMove(lines, a)
    case None => ix.artifacts[a].current == None
    case Some(e) =>
      && ix.artifacts[a].current == Target(e)
      && (e.VersionCommitted? ==>
          forall w | w in ix.versions && ix.versions[w].artifact == a :: ix.versions[w].seqNo <= e.row.seqNo)
  }

  ghost predicate TipsHold(lines: seq<Event>, ix: Index) {
    forall a | a in ix.artifacts :: TipHolds(lines, ix, a)
  }

  // ----- replay over the live index -------------------------------------------------------------------------

  /** `f` differs from `ix` in pointers at most. */
  ghost predicate OnlyPointersDiffer(f: Index, ix: Index) {
    && f.versions == ix.versions
    && f.blobs == ix.blobs
    && f.fences == ix.fences
    && f.artifacts.Keys == ix.artifacts.Keys
    && forall a | a in ix.artifacts :: f.artifacts[a] == ix.artifacts[a].(current := f.artifacts[a].current)
  }

  /** Mid-replay a pointer is at the last moving line, or ahead of a committed one. */
  ghost predicate Tracks(f: Index, ix: Index, last: Option<Event>, a: Id)
    requires a in ix.artifacts && OnlyPointersDiffer(f, ix)
  {
    var cur := f.artifacts[a].current;
    match last
    case None => cur == ix.artifacts[a].current
    case Some(e) =>
      || cur == Target(e)
      || (e.VersionCommitted? && cur.Some? && cur.value in ix.versions && e.row.seqNo <= ix.versions[cur.value].seqNo)
  }

  ghost predicate Rewalked(f: Index, ix: Index, lines: seq<Event>) {
    && OnlyPointersDiffer(f, ix)
    && PointersValid(f)
    && forall a | a in ix.artifacts :: Tracks(f, ix, LastMove(lines, a), a)
  }

  lemma LastMoveIsLine(lines: seq<Event>, a: Id)
    requires LastMove(lines, a).Some?
    ensures LastMove(lines, a).value in lines && Moves(LastMove(lines, a).value, a)
  {
    if !Moves(Last(lines), a) {
      LastMoveIsLine(Front(lines), a);
    }
  }

  lemma RewalkPointer(f: Index, ix: Index, a: Id, to: Option<Id>)
    requires OnlyPointersDiffer(f, ix) && PointersValid(f)
    requires to.Some? ==>
             to.value in ix.versions && ix.versions[to.value].artifact == a && !ix.versions[to.value].IsMarker()
    ensures OnlyPointersDiffer(SetPointer(f, a, to), ix) && PointersValid(SetPointer(f, a, to))
  {
    var g := SetPointer(f, a, to);
    forall b | b in g.artifacts
      ensures PointerValid(g, b)
    {
      assert PointerValid(f, b);
    }
  }

  /** A committed line replayed over rows it already describes only ever moves its pointer forward. */
  lemma ReapplyCommit(f: Index, ix: Index, e: Event)
    requires e.VersionCommitted? && OnlyPointersDiffer(f, ix) && RowsLinked(ix) && LineHolds(e, ix)
    ensures ApplyEvent(f, e) ==
            Some(if e.row.seqNo > CurrentSeq(f, e.row.artifact) then SetPointer(f, e.row.artifact, Some(e.version))
                 else f)
  {
    assert e.row.sha == ix.versions[e.version].sha;
    assert AdoptParents(f, e.row, e.logicalName) == f;
  }

  /** Where a line leaves the pointer of an artifact it moves. */
  function Landing(f: Index, e: Event, a: Id): Option<Id>
    requires Moves(e, a) && a in f.artifacts
  {
    if e.VersionCommitted? && e.row.seqNo <= CurrentSeq(f, a) then f.artifacts[a].current else Target(e)
  }

  lemma ReapplyLine(f: Index, ix: Index, e: Event)
    requires OnlyPointersDiffer(f, ix) && PointersValid(f) && RowsLinked(ix) && LineHolds(e, ix)
    ensures ApplyEvent(f, e).Some?
    ensures var g := ApplyEvent(f, e).value;
            && OnlyPointersDiffer(g, ix)
            && PointersValid(g)
            && forall a | a in ix.artifacts :: g.artifacts[a].current == if Moves(e, a) then Landing(f, e, a)
              else f.artifacts[a].current
  {
    match e {
      case VersionCommitted(v, row, _) =>
        ReapplyCommit(f, ix, e);
        assert row.sha == ix.versions[v].sha;
        RewalkPointer(f, ix, row.artifact, Some(v));
      case DeleteMarker(_, a) => RewalkPointer(f, ix, a, None);
      case PointerMove(a, to) => RewalkPointer(f, ix, a, to);
      case Aborted(v) => assert f.versions - {v} == f.versions;
      case _ =>
    }
  }

  lemma RewalkLine(f: Index, ix: Index, lines: seq<Event>, e: Event)
    requires RowsLinked(ix) && Rewalked(f, ix, lines) && LineHolds(e, ix)
    ensures ApplyEvent(f, e).Some? && Rewalked(ApplyEvent(f, e).value, ix, lines + [e])
  {
    ReapplyLine(f, ix, e);
    var g := ApplyEvent(f, e).value;
    forall a | a in ix.artifacts
      ensures Tracks(g, ix, LastMove(lines + [e], a), a)
    {
      LastMoveAppend(lines, e, a);
      assert Tracks(f, ix, LastMove(lines, a), a);
      assert g.artifacts[a].current == if Moves(e, a) then Landing(f, e, a) else f.artifacts[a].current;
    }
  }

  lemma {:induction false} Rewalk(ix: Index, lines: seq<Event>)
    requires Consistent(ix) && LinesHold(lines, ix)
    ensures ReplayLines(ix, lines).Some? && Rewalked(ReplayLines(ix, lines).value, ix, lines)
  {
    if lines != [] {
      Rewalk(ix, Front(lines));
      RewalkLine(ReplayLines(ix, Front(lines)).value, ix, Front(lines), Last(lines));
      assert Front(lines) + [Last(lines)] == lines;
    }
  }

  lemma RecountFixed(ix: Index)
    requires RefsCounted(ix)
    ensures Recount(ix) == ix
  {
    assert Recount(ix).blobs == ix.blobs;
  }

  /** Replaying its own journal over a live index changes nothing, though pointers move mid-way. */
  lemma ReplayOverLive(ix: Index, lines: seq<Event>)
    requires Consistent(ix) && LinesHold(lines, ix) && TipsHold(lines, ix)
    ensures ReplayLines(ix, lines) == Some(ix)
    ensures Rebuild(ix, lines) == Some(ix)
  {
    Rewalk(ix, lines);
    var f := ReplayLines(ix, lines).value;
    forall a | a in ix.artifacts
      ensures f.artifacts[a] == ix.artifacts[a]
    {
      assert Tracks(f, ix, LastMove(lines, a), a) && TipHolds(lines, ix, a) && PointerValid(f, a)
             && PointerValid(ix, a);
      if LastMove(lines, a).Some? {
        LastMoveIsLine(lines, a);
        assert LineHolds(LastMove(lines, a).value, ix);
      }
    }
    assert f.artifacts == ix.artifacts;
    RecountFixed(ix);
  }
}
