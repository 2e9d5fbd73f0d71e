/**
 * The invariant that ties the version journal to the live index, kept by every operation that
 * journals a line: commits, delete markers, pointer moves, compensations, and their replays.
 */
module DriveSafety {
  import opened Prelude
  import opened DriveIndex
  import opened DriveMachine
  import opened DriveReplay

  /** `f` is the live index as the journal alone can tell it, before refcounts are recomputed. */
  ghost predicate Mirrors(f: Index, ix: Index) {
    && f.versions == ByteRows(ix.versions)
    && f.fences == ix.fences
    && f.blobs.Keys == ix.blobs.Keys
    && (forall s | s in ix.blobs :: f.blobs[s] == ix.blobs[s].(refcount := f.blobs[s].refcount))
    && (forall a | a in f.artifacts :: a in ix.artifacts && HasBytes(ix.versions, a))
    && ArtifactsAgree(f, ix)
  }

  ghost predicate MirrorHolds(ix: Index, lines: seq<Event>) {
    ReplayLines(EMPTY, lines).Some? && Mirrors(ReplayLines(EMPTY, lines).value, ix)
  }

  /** A delete marker's op id names its own version. */
  ghost predicate MarkersKeyed(versions: map<Id, VersionRow>) {
    forall v | v in versions :: versions[v].op.MarkerOp? ==> versions[v].op.marker == v
  }

  ghost predicate LineMinted(e: Event, next: Id) {
    match e
    case VersionCommitted(v, row, _) => v < next && row.artifact < next
    case DeleteMarker(v, a) => v < next && a < next
    case PointerMove(a, _) => a < next
    case Aborted(v) => v < next
    case _ => true
  }

  /** Every id in the tables and the journal has been minted already. */
  ghost predicate Minted(ix: Index, lines: seq<Event>, next: Id) {
    && (forall a | a in ix.artifacts :: a < next)
    && (forall v | v in ix.versions :: v < next)
    && (forall i | 0 <= i < |lines| :: LineMinted(lines[i], next))
  }

  /** No blob row outlives the last version that names it. */
  ghost predicate NoOrphans(ix: Index) {
    forall s | s in ix.blobs :: ix.blobs[s].refcount >= 1
  }

  ghost predicate Safe(ix: Index, lines: seq<Event>, next: Id) {
    && Consistent(ix)
    && NoOrphans(ix)
    && MarkersKeyed(ix.versions)
    && Minted(ix, lines, next)
    && LinesHold(lines, ix)
    && TipsHold(lines, ix)
    && MirrorHolds(ix, lines)
  }

  // ----- an aborted line for a version that never reached the journal -----------------------------------

  lemma CompensationTips(ix: Index, lines: seq<Event>, v: Id)
    requires TipsHold(lines, ix)
    ensures TipsHold(lines + [Aborted(v)], ix)
  {
    forall a | a in ix.artifacts
      ensures TipHolds(lines + [Aborted(v)], ix, a)
    {
      LastMoveAppend(lines, Aborted(v), a);
      assert TipHolds(lines, ix, a);
    }
  }

  lemma CompensationMirrors(ix: Index, lines: seq<Event>, v: Id)
    requires MirrorHolds(ix, lines) && v !in ix.versions
    ensures MirrorHolds(ix, lines + [Aborted(v)])
  {
    ReplayAppend(EMPTY, lines, Aborted(v));
    var f := ReplayLines(EMPTY, lines).value;
    assert f.versions - {v} == f.versions;
  }

  lemma CompensationKeepsSafe(ix: Index, lines: seq<Event>, v: Id)
    requires Safe(ix, lines, v)
    ensures Safe(ix, lines + [Aborted(v)], v + 1)
  {
    var after := lines + [Aborted(v)];
    assert LinesHold(after, ix);
    assert TipsHold(after, ix) by { CompensationTips(ix, lines, v); }
    assert MirrorHolds(ix, after) by { CompensationMirrors(ix, lines, v); }
    assert Minted(ix, after, v + 1);
  }

  lemma SafeMeans(ix: Index, lines: seq<Event>, next: Id)
    requires Safe(ix, lines, next)
    ensures Consistent(ix) && MarkersKeyed(ix.versions) && Minted(ix, lines, next)
    ensures LinesHold(lines, ix) && TipsHold(lines, ix) && MirrorHolds(ix, lines)
    ensures Aborted(next) !in lines
  {
    forall i | 0 <= i < |lines|
      ensures lines[i] != Aborted(next)
    {
      assert LineMinted(lines[i], next);
    }
  }

  lemma MintingKeepsSafe(ix: Index, lines: seq<Event>, next: Id, later: Id)
    requires Safe(ix, lines, next) && next <= later
    ensures Safe(ix, lines, later)
  {
  }

  // ----- registration -------------------------------------------------------------------------------------

  lemma NoLineMoves(lines: seq<Event>, a: Id)
    requires forall i | 0 <= i < |lines| :: LineMinted(lines[i], a)
    ensures LastMove(lines, a).None?
  {
    if LastMove(lines, a).Some? {
      LastMoveIsLine(lines, a);
    }
  }

  function AddArtifact(ix: Index, a: Id, row: ArtifactRow): Index {
    ix.(artifacts := ix.artifacts[a := row])
  }

  lemma RegisterConsistent(ix: Index, a: Id, row: ArtifactRow)
    requires Consistent(ix) && a !in ix.artifacts && row.current.None? && !NameTaken(ix.artifacts, row.ticket, row.name)
    ensures Consistent(AddArtifact(ix, a, row))
  {
    var g := AddArtifact(ix, a, row);
    forall b | b in g.artifacts
      ensures PointerValid(g, b)
    {
      if b != a {
        assert PointerValid(ix, b);
      }
    }
  }

  lemma RegisterLines(ix: Index, lines: seq<Event>, a: Id, row: ArtifactRow)
    requires LinesHold(lines, ix) && a !in ix.artifacts
    ensures LinesHold(lines, AddArtifact(ix, a, row))
  {
    forall i | 0 <= i < |lines|
      ensures LineHolds(lines[i], AddArtifact(ix, a, row))
    {
      assert LineHolds(lines[i], ix);
    }
  }

  lemma RegisterTips(ix: Index, lines: seq<Event>, a: Id, row: ArtifactRow)
    requires TipsHold(lines, ix) && row.current.None? && forall i | 0 <= i < |lines| :: LineMinted(lines[i], a)
    ensures TipsHold(lines, AddArtifact(ix, a, row))
  {
    forall b | b in AddArtifact(ix, a, row).artifacts
      ensures TipHolds(lines, AddArtifact(ix, a, row), b)
    {
      if b == a {
        NoLineMoves(lines, a);
      } else {
        assert TipHolds(lines, ix, b);
      }
    }
  }

  lemma RegisterMirrors(f: Index, ix: Index, a: Id, row: ArtifactRow)
    requires Mirrors(f, ix) && RowsLinked(ix) && a !in ix.artifacts
    ensures Mirrors(f, AddArtifact(ix, a, row))
  {
    assert !HasBytes(ix.versions, a);
    forall b | b in ix.artifacts && HasBytes(ix.versions, b)
      ensures SameArtifact(f, AddArtifact(ix, a, row), b)
    {
      assert SameArtifact(f, ix, b);
    }
  }

  lemma RegisterKeepsSafe(ix: Index, lines: seq<Event>, a: Id, row: ArtifactRow)
    requires Safe(ix, lines, a) && row.current.None? && !NameTaken(ix.artifacts, row.ticket, row.name)
    ensures Safe(AddArtifact(ix, a, row), lines, a + 1)
  {
    RegisterConsistent(ix, a, row);
    RegisterLines(ix, lines, a, row);
    RegisterTips(ix, lines, a, row);
    RegisterMirrors(ReplayLines(EMPTY, lines).value, ix, a, row);
    assert Minted(AddArtifact(ix, a, row), lines, a + 1);
  }

  // ----- commit ---------------------------------------------------------------------------------------------

  /** What the guards of the commit transaction establish about the row it is about to insert. */
  ghost predicate Fits(ix: Index, v: Id, row: VersionRow, name: string) {
    && v !in ix.versions
    && row.sha.Some?
    && row.op.ClientOp?
    && row.seqNo == MaxSeq(ix.versions, row.artifact) + 1
    && NamesArtifact(ix.artifacts, row.artifact, row.ticket, name)
    && !Clashes(ix.versions, row)
  }

  ghost predicate Admitted(ix: Index, v: Id, row: VersionRow, name: string) {
    Fits(ix, v, row, name) && !Stale(ix.fences, row.ticket, row.fence)
  }

  function LineOf(v: Id, row: VersionRow, name: string): Event {
    VersionCommitted(v, row.Journaled(), name)
  }

  lemma CommitCounts(ix: Index, v: Id, row: VersionRow, name: string)
    requires RowsLinked(ix) && RefsCounted(ix) && Fits(ix, v, row, name)
    ensures RefsCounted(CommitIndex(ix, v, row))
  {
    var g := CommitIndex(ix, v, row);
    forall s | s in g.blobs
      ensures g.blobs[s].refcount == RefCount(g.versions, s)
    {
      RefCountInsert(ix.versions, v, row, s);
      RefCountZero(ix.versions, s);
    }
  }

  lemma CommitConsistent(ix: Index, v: Id, row: VersionRow, name: string)
    requires Consistent(ix) && Admitted(ix, v, row, name)
    ensures Consistent(CommitIndex(ix, v, row))
  {
    CommitCounts(ix, v, row, name);
    var g := CommitIndex(ix, v, row);
    assert RowsLinked(g);
    assert RowsUnique(g.versions);
    forall b | b in g.artifacts
      ensures PointerValid(g, b)
    {
      assert PointerValid(ix, b);
    }
  }

  lemma CommitLines(ix: Index, lines: seq<Event>, v: Id, row: VersionRow, name: string)
    requires Admitted(ix, v, row, name) && LinesHold(lines, ix)
    requires forall i | 0 <= i < |lines| :: LineMinted(lines[i], v)
    ensures LinesHold(lines + [LineOf(v, row, name)], CommitIndex(ix, v, row))
  {
    var g := CommitIndex(ix, v, row);
    forall i | 0 <= i < |lines|
      ensures LineHolds(lines[i], g)
    {
      assert LineHolds(lines[i], ix) && LineMinted(lines[i], v);
    }
    assert LineHolds(LineOf(v, row, name), g);
  }

  lemma CommitTips(ix: Index, lines: seq<Event>, v: Id, row: VersionRow, name: string)
    requires Admitted(ix, v, row, name) && TipsHold(lines, ix)
    ensures TipsHold(lines + [LineOf(v, row, name)], CommitIndex(ix, v, row))
  {
    var e := LineOf(v, row, name);
    var g := CommitIndex(ix, v, row);
    forall b | b in g.artifacts
      ensures TipHolds(lines + [e], g, b)
    {
      LastMoveAppend(lines, e, b);
      assert TipHolds(lines, ix, b);
    }
  }

  lemma NoClashAmongByteRows(versions: map<Id, VersionRow>, row: VersionRow)
    requires !Clashes(versions, row)
    ensures !Clashes(ByteRows(versions), row.Journaled())
  {
    var rows := ByteRows(versions);
    forall w | w in rows
      ensures !(rows[w].artifact == row.artifact && rows[w].seqNo == row.seqNo)
      ensures !(rows[w].createdBy == row.createdBy && rows[w].op == row.op)
    {
      assert rows[w] == versions[w].Journaled();
    }
  }

  lemma NameFreeInMirror(f: Index, ix: Index, a: Id, ticket: Ticket, name: string)
    requires NamesUnique(ix.artifacts) && NamesArtifact(ix.artifacts, a, ticket, name) && a !in f.artifacts
    requires forall b | b in f.artifacts :: b in ix.artifacts && SameArtifact(f, ix, b)
    ensures !NameTaken(f.artifacts, ticket, name)
  {
    forall b | b in f.artifacts
      ensures !(f.artifacts[b].ticket == ticket && f.artifacts[b].name == name)
    {
      assert SameArtifact(f, ix, b);
    }
  }

  lemma MirroredSeqBelow(f: Index, ix: Index, a: Id)
    requires f.versions == ByteRows(ix.versions) && a in ix.artifacts && PointerValid(ix, a)
    requires a in f.artifacts ==> SameArtifact(f, ix, a)
    ensures CurrentSeq(f, a) <= MaxSeq(ix.versions, a)
  {
  }

  /** What a committed line does to an index that has not seen its version. */
  function Inserted(f: Index, v: Id, row: VersionRow, name: string): Index {
    var h := AdoptParents(f, row.Journaled(), name);
    SetPointer(h.(versions := h.versions[v := row.Journaled()], fences := RaiseFence(h.fences, row.ticket, row.fence)),
               row.artifact, Some(v))
  }

  lemma ApplyFreshLine(f: Index, v: Id, row: VersionRow, name: string)
    requires v !in f.versions && !Clashes(f.versions, row.Journaled())
    requires row.artifact in f.artifacts || !NameTaken(f.artifacts, row.ticket, name)
    requires row.artifact in f.artifacts ==> f.artifacts[row.artifact].current != Some(v)
    requires CurrentSeq(f, row.artifact) < row.seqNo
    ensures ApplyEvent(f, LineOf(v, row, name)) == Some(Inserted(f, v, row, name))
  {
    var h := AdoptParents(f, row.Journaled(), name);
    assert row.artifact in h.artifacts;
    assert CurrentSeq(h.(versions := h.versions[v := row.Journaled()]), row.artifact) < row.seqNo;
  }

  lemma InsertedRows(f: Index, ix: Index, v: Id, row: VersionRow, name: string)
    requires f.versions == ByteRows(ix.versions) && row.sha.Some?
    ensures Inserted(f, v, row, name).versions == ByteRows(ix.versions[v := row])
  {
  }

  lemma BytesAfterInsert(versions: map<Id, VersionRow>, v: Id, row: VersionRow, b: Id)
    requires v !in versions && row.sha.Some?
    ensures HasBytes(versions[v := row], b) <==> b == row.artifact || HasBytes(versions, b)
  {
    var after := versions[v := row];
    if b == row.artifact {
      assert after[v] == row;
    } else if HasBytes(versions, b) {
      var w :| w in versions && versions[w].artifact == b && !versions[w].IsMarker();
      assert after[w] == versions[w];
    }
  }

  lemma InsertedArtifacts(f: Index, ix: Index, v: Id, row: VersionRow, name: string)
    requires Mirrors(f, ix) && v !in ix.versions && row.sha.Some?
             && NamesArtifact(ix.artifacts, row.artifact, row.ticket, name)
    requires row.artifact in f.artifacts || !NameTaken(f.artifacts, row.ticket, name)
    ensures forall b | b in Inserted(f, v, row, name).artifacts ::
            b in ix.artifacts && HasBytes(ix.versions[v := row], b)
    ensures ArtifactsAgree(Inserted(f, v, row, name), CommitIndex(ix, v, row))
  {
    var g, h := CommitIndex(ix, v, row), Inserted(f, v, row, name);
    forall b | b in ix.artifacts
      ensures HasBytes(g.versions, b) <==> b == row.artifact || HasBytes(ix.versions, b)
      ensures b in f.artifacts || HasBytes(ix.versions, b) ==> SameArtifact(f, ix, b)
    {
      BytesAfterInsert(ix.versions, v, row, b);
    }
    forall b | b in g.artifacts && HasBytes(g.versions, b)
      ensures SameArtifact(h, g, b)
    {
      assert b == row.artifact || SameArtifact(f, ix, b);
    }
  }

  lemma InsertedBlobs(f: Index, ix: Index, v: Id, row: VersionRow, name: string)
    requires Mirrors(f, ix) && row.sha.Some?
    ensures var h, g := Inserted(f, v, row, name), CommitIndex(ix, v, row);
            && h.blobs.Keys == g.blobs.Keys
            && forall s | s in g.blobs :: h.blobs[s] == g.blobs[s].(refcount := h.blobs[s].refcount)
  {
    hide RefCount, ByteRows, ArtifactsAgree, HasBytes, RaiseFence, NameTaken;
  }

  lemma MirroredArtifact(f: Index, ix: Index, b: Id)
    requires Mirrors(f, ix) && b in f.artifacts
    ensures b in ix.artifacts && SameArtifact(f, ix, b)
  {
  }

  lemma CommitLineApplies(f: Index, ix: Index, v: Id, row: VersionRow, name: string)
    requires Mirrors(f, ix) && NamesUnique(ix.artifacts) && PointersValid(ix) && Admitted(ix, v, row, name)
    ensures row.artifact in f.artifacts || !NameTaken(f.artifacts, row.ticket, name)
    ensures ApplyEvent(f, LineOf(v, row, name)) == Some(Inserted(f, v, row, name))
  {
    NoClashAmongByteRows(ix.versions, row);
    assert PointerValid(ix, row.artifact);
    if row.artifact in f.artifacts {
      MirroredArtifact(f, ix, row.artifact);
    } else {
      forall b | b in f.artifacts
        ensures b in ix.artifacts && SameArtifact(f, ix, b)
      {
        MirroredArtifact(f, ix, b);
      }
      NameFreeInMirror(f, ix, row.artifact, row.ticket, name);
    }
    MirroredSeqBelow(f, ix, row.artifact);
    ApplyFreshLine(f, v, row, name);
  }

  lemma CommitMirrors(f: Index, ix: Index, v: Id, row: VersionRow, name: string)
    requires Mirrors(f, ix) && Admitted(ix, v, row, name)
    requires row.artifact in f.artifacts || !NameTaken(f.artifacts, row.ticket, name)
    ensures Mirrors(Inserted(f, v, row, name), CommitIndex(ix, v, row))
  {
    InsertedRows(f, ix, v, row, name);
    InsertedBlobs(f, ix, v, row, name);
    InsertedArtifacts(f, ix, v, row, name);
  }

  lemma CommitMirrorHolds(ix: Index, lines: seq<Event>, v: Id, row: VersionRow, name: string)
    requires MirrorHolds(ix, lines) && Consistent(ix) && Admitted(ix, v, row, name)
    ensures MirrorHolds(CommitIndex(ix, v, row), lines + [LineOf(v, row, name)])
  {
    ReplayAppend(EMPTY, lines, LineOf(v, row, name));
    var f := ReplayLines(EMPTY, lines).value;
    CommitLineApplies(f, ix, v, row, name);
    CommitMirrors(f, ix, v, row, name);
  }

  lemma CommitMinted(ix: Index, lines: seq<Event>, v: Id, row: VersionRow, name: string)
    requires Minted(ix, lines, v) && Fits(ix, v, row, name)
    ensures Minted(CommitIndex(ix, v, row), lines + [LineOf(v, row, name)], v + 1)
  {
  }

  lemma CommitKeepsSafe(ix: Index, lines: seq<Event>, v: Id, row: VersionRow, name: string)
    requires Safe(ix, lines, v) && Admitted(ix, v, row, name)
    ensures Safe(CommitIndex(ix, v, row), lines + [LineOf(v, row, name)], v + 1)
  {
    hide Consistent, LinesHold, TipsHold, MirrorHolds, MarkersKeyed;
    var g, after := CommitIndex(ix, v, row), lines + [LineOf(v, row, name)];
    hide CommitIndex;
    assert Consistent(g) by { CommitConsistent(ix, v, row, name); }
    assert LinesHold(after, g) by { CommitLines(ix, lines, v, row, name); }
    assert TipsHold(after, g) by { CommitTips(ix, lines, v, row, name); }
    assert MirrorHolds(g, after) by { CommitMirrorHolds(ix, lines, v, row, name); }
    assert Minted(g, after, v + 1) by { CommitMinted(ix, lines, v, row, name); }
    CommitMarkersKeyed(ix, v, row);
  }

  lemma CommitMarkersKeyed(ix: Index, v: Id, row: VersionRow)
    requires MarkersKeyed(ix.versions) && row.sha.Some? && !row.op.MarkerOp?
    ensures MarkersKeyed(CommitIndex(ix, v, row).versions)
  {
    hide AddRef, RaiseFence;
  }

  lemma LiveLineApplies(ix: Index, v: Id, row: VersionRow, name: string)
    requires PointersValid(ix) && Admitted(ix, v, row, name)
    ensures ApplyEvent(ix, LineOf(v, row, name)) == Some(Inserted(ix, v, row, name))
  {
    assert PointerValid(ix, row.artifact);
    ApplyFreshLine(ix, v, row, name);
  }

  /** Booting after a crash that lost the transaction but kept its line redoes the commit. */
  lemma CommitReplayed(ix: Index, lines: seq<Event>, v: Id, row: VersionRow, name: string)
    requires Consistent(ix) && LinesHold(lines, ix) && TipsHold(lines, ix) && Admitted(ix, v, row, name)
    ensures Rebuild(ix, lines + [LineOf(v, row, name)]) == Some(CommitIndex(ix, v, row.Journaled()))
  {
    ReplayOverLive(ix, lines);
    ReplayAppend(ix, lines, LineOf(v, row, name));
    LiveLineApplies(ix, v, row, name);
    InsertedRecounts(ix, v, row, name);
  }

  lemma InsertedRecounts(ix: Index, v: Id, row: VersionRow, name: string)
    requires RowsLinked(ix) && RefsCounted(ix) && Admitted(ix, v, row, name)
    ensures Recount(Inserted(ix, v, row, name)) == CommitIndex(ix, v, row.Journaled())
  {
    hide RefCount;
    CommitCounts(ix, v, row.Journaled(), name);
    assert Recount(Inserted(ix, v, row, name)).blobs == CommitIndex(ix, v, row.Journaled()).blobs;
  }

  // ----- delete markers and restores ----------------------------------------------------------------------

  /** A line that sets the pointer of `a` outright. */
  ghost predicate Points(e: Event, a: Id, to: Option<Id>) {
    (e.DeleteMarker? && e.artifact == a && to.None?) || e == PointerMove(a, to)
  }

  lemma PointerConsistent(ix: Index, a: Id, to: Option<Id>, e: Event)
    requires Consistent(ix) && Points(e, a, to) && LineHolds(e, ix)
    ensures Consistent(SetPointer(ix, a, to))
  {
    hide RefCount, RowsUnique, HasBytes;
    var g := SetPointer(ix, a, to);
    forall b | b in g.artifacts
      ensures PointerValid(g, b)
    {
      assert PointerValid(ix, b);
    }
  }

  lemma PointerLines(ix: Index, lines: seq<Event>, a: Id, to: Option<Id>, e: Event)
    requires LinesHold(lines, ix) && Points(e, a, to) && LineHolds(e, ix)
    ensures LinesHold(lines + [e], SetPointer(ix, a, to))
  {
    forall i | 0 <= i < |lines + [e]|
      ensures LineHolds((lines + [e])[i], SetPointer(ix, a, to))
    {
      assert LineHolds((lines + [e])[i], ix);
    }
  }

  lemma PointerTips(ix: Index, lines: seq<Event>, a: Id, to: Option<Id>, e: Event)
    requires TipsHold(lines, ix) && Points(e, a, to)
    ensures TipsHold(lines + [e], SetPointer(ix, a, to))
  {
    var g := SetPointer(ix, a, to);
    forall b | b in g.artifacts
      ensures TipHolds(lines + [e], g, b)
    {
      LastMoveAppend(lines, e, b);
      assert TipHolds(lines, ix, b);
    }
  }

  lemma PointerMirrors(f: Index, ix: Index, a: Id, to: Option<Id>)
    requires Mirrors(f, ix) && (to.Some? ==> HasBytes(ix.versions, a))
    ensures Mirrors(SetPointer(f, a, to), SetPointer(ix, a, to))
  {
    hide ByteRows;
    var h, g := SetPointer(f, a, to), SetPointer(ix, a, to);
    forall b | b in g.artifacts && HasBytes(g.versions, b)
      ensures SameArtifact(h, g, b)
    {
      assert SameArtifact(f, ix, b);
    }
  }

  lemma PointerMirrorHolds(ix: Index, lines: seq<Event>, a: Id, to: Option<Id>, e: Event)
    requires MirrorHolds(ix, lines) && Points(e, a, to) && LineHolds(e, ix)
    ensures MirrorHolds(SetPointer(ix, a, to), lines + [e])
  {
    ReplayAppend(EMPTY, lines, e);
    PointerMirrors(ReplayLines(EMPTY, lines).value, ix, a, to);
  }

  lemma PointerMinted(ix: Index, lines: seq<Event>, next: Id, a: Id, to: Option<Id>, e: Event)
    requires Minted(ix, lines, next) && LineMinted(e, next)
    ensures Minted(SetPointer(ix, a, to), lines + [e], next)
  {
  }

  lemma PointerKeepsSafe(ix: Index, lines: seq<Event>, next: Id, a: Id, to: Option<Id>, e: Event)
    requires Safe(ix, lines, next) && Points(e, a, to) && LineHolds(e, ix) && LineMinted(e, next)
    ensures Safe(SetPointer(ix, a, to), lines + [e], next)
  {
    var g := SetPointer(ix, a, to);
    assert Consistent(g) by { PointerConsistent(ix, a, to, e); }
    assert LinesHold(lines + [e], g) by { PointerLines(ix, lines, a, to, e); }
    assert TipsHold(lines + [e], g) by { PointerTips(ix, lines, a, to, e); }
    assert MirrorHolds(g, lines + [e]) by { PointerMirrorHolds(ix, lines, a, to, e); }
    assert Minted(g, lines + [e], next) by { PointerMinted(ix, lines, next, a, to, e); }
  }

  /** Booting after a crash that lost the transaction but kept its line sets the pointer again. */
  lemma PointerReplayed(ix: Index, lines: seq<Event>, a: Id, to: Option<Id>, e: Event)
    requires Consistent(ix) && LinesHold(lines, ix) && TipsHold(lines, ix) && Points(e, a, to)
    ensures Rebuild(ix, lines + [e]) == Some(SetPointer(ix, a, to))
  {
    ReplayOverLive(ix, lines);
    ReplayAppend(ix, lines, e);
    RecountFixed(SetPointer(ix, a, to));
  }

  // ----- the marker row itself, which no replay restores ----------------------------------------------------

  ghost predicate FreshMarker(ix: Index, lines: seq<Event>, v: Id, row: VersionRow) {
    && v !in ix.versions
    && row.IsMarker()
    && row.artifact in ix.artifacts
    && row.op == MarkerOp(v)
    && row.seqNo == MaxSeq(ix.versions, row.artifact) + 1
    && LastMove(lines, row.artifact).Some?
    && LastMove(lines, row.artifact).value.DeleteMarker?
    && Aborted(v) !in lines
  }

  function AddMarker(ix: Index, v: Id, row: VersionRow): Index {
    ix.(versions := ix.versions[v := row])
  }

  lemma MarkerConsistent(ix: Index, lines: seq<Event>, v: Id, row: VersionRow)
    requires Consistent(ix) && MarkersKeyed(ix.versions) && FreshMarker(ix, lines, v, row)
    ensures Consistent(AddMarker(ix, v, row))
  {
    var g := AddMarker(ix, v, row);
    forall s | s in g.blobs
      ensures g.blobs[s].refcount == RefCount(g.versions, s)
    {
      RefCountInsert(ix.versions, v, row, s);
    }
    forall b | b in g.artifacts
      ensures PointerValid(g, b)
    {
      assert PointerValid(ix, b);
    }
  }

  lemma MarkerLines(ix: Index, lines: seq<Event>, v: Id, row: VersionRow)
    requires LinesHold(lines, ix) && FreshMarker(ix, lines, v, row)
    ensures LinesHold(lines, AddMarker(ix, v, row))
  {
    forall i | 0 <= i < |lines|
      ensures LineHolds(lines[i], AddMarker(ix, v, row))
    {
      assert LineHolds(lines[i], ix) && lines[i] in lines;
    }
  }

  lemma MarkerTips(ix: Index, lines: seq<Event>, v: Id, row: VersionRow)
    requires TipsHold(lines, ix) && FreshMarker(ix, lines, v, row)
    ensures TipsHold(lines, AddMarker(ix, v, row))
  {
    forall b | b in ix.artifacts
      ensures TipHolds(lines, AddMarker(ix, v, row), b)
    {
      assert TipHolds(lines, ix, b);
    }
  }

  lemma MarkerMirrors(f: Index, ix: Index, v: Id, row: VersionRow)
    requires Mirrors(f, ix) && row.IsMarker() && v !in ix.versions
    ensures Mirrors(f, AddMarker(ix, v, row))
  {
    var g := AddMarker(ix, v, row);
    assert ByteRows(g.versions) == ByteRows(ix.versions);
    forall b: Id
      ensures HasBytes(g.versions, b) <==> HasBytes(ix.versions, b)
    {
      if HasBytes(ix.versions, b) {
        var w :| w in ix.versions && ix.versions[w].artifact == b && !ix.versions[w].IsMarker();
        assert g.versions[w] == ix.versions[w];
      }
    }
    forall b | b in g.artifacts && HasBytes(g.versions, b)
      ensures SameArtifact(f, g, b)
    {
      assert SameArtifact(f, ix, b);
    }
  }

  lemma MarkerKeepsSafe(ix: Index, lines: seq<Event>, next: Id, v: Id, row: VersionRow)
    requires Safe(ix, lines, next) && FreshMarker(ix, lines, v, row) && v < next
    ensures Safe(AddMarker(ix, v, row), lines, next)
  {
    hide Consistent, LinesHold, TipsHold;
    var g := AddMarker(ix, v, row);
    assert Consistent(g) by { MarkerConsistent(ix, lines, v, row); }
    assert LinesHold(lines, g) by { MarkerLines(ix, lines, v, row); }
    assert TipsHold(lines, g) by { MarkerTips(ix, lines, v, row); }
    assert MirrorHolds(g, lines) by { MarkerMirrors(ReplayLines(EMPTY, lines).value, ix, v, row); }
    assert Minted(g, lines, next);
  }

  // ----- purging chains that never held bytes ---------------------------------------------------------------

  ghost predicate Byteless(ix: Index, purged: set<Id>) {
    forall a | a in purged :: !HasBytes(ix.versions, a)
  }

  lemma BytelessSurvive(ix: Index, purged: set<Id>)
    requires Byteless(ix, purged)
    ensures ByteRows(Surviving(ix.versions, purged)) == ByteRows(ix.versions)
    ensures forall s: Sha :: RefCount(Surviving(ix.versions, purged), s) == RefCount(ix.versions, s)
    ensures forall b: Id :: HasBytes(Surviving(ix.versions, purged), b) <==> HasBytes(ix.versions, b)
  {
    var rest := Surviving(ix.versions, purged);
    forall v | v in ix.versions && !ix.versions[v].IsMarker()
      ensures v in rest && rest[v] == ix.versions[v]
    {
      assert HasBytes(ix.versions, ix.versions[v].artifact);
    }
    assert ByteRows(rest) == ByteRows(ix.versions);
    forall s: Sha
      ensures RefCount(rest, s) == RefCount(ix.versions, s)
    {
      RefCountByteRows(rest, s);
      RefCountByteRows(ix.versions, s);
    }
    forall b: Id
      ensures HasBytes(rest, b) <==> HasBytes(ix.versions, b)
    {
      if HasBytes(ix.versions, b) {
        var w :| w in ix.versions && ix.versions[w].artifact == b && !ix.versions[w].IsMarker();
        assert w in rest;
      }
    }
  }

  lemma PurgeConsistent(ix: Index, purged: set<Id>)
    requires Consistent(ix) && Byteless(ix, purged)
    ensures Consistent(PurgeChains(ix, purged)) && PurgeChains(ix, purged).blobs == ix.blobs
  {
    BytelessSurvive(ix, purged);
    var g := PurgeChains(ix, purged);
    assert g.blobs == ix.blobs;
    forall b | b in g.artifacts
      ensures PointerValid(g, b)
    {
      assert PointerValid(ix, b);
    }
  }

  lemma PurgeLinesHold(ix: Index, lines: seq<Event>, purged: set<Id>)
    requires RowsLinked(ix) && LinesHold(lines, ix) && Byteless(ix, purged)
    ensures LinesHold(lines, PurgeChains(ix, purged))
  {
    var g := PurgeChains(ix, purged);
    forall i | 0 <= i < |lines|
      ensures LineHolds(lines[i], g)
    {
      assert LineHolds(lines[i], ix);
      if lines[i].VersionCommitted? {
        assert lines[i].row.sha == ix.versions[lines[i].version].sha;
        assert HasBytes(ix.versions, lines[i].row.artifact);
      } else if lines[i].PointerMove? {
        assert HasBytes(ix.versions, lines[i].artifact);
      }
    }
  }

  lemma PurgeMirrors(f: Index, ix: Index, purged: set<Id>)
    requires Mirrors(f, ix) && Consistent(ix) && Byteless(ix, purged)
    ensures Mirrors(f, PurgeChains(ix, purged))
  {
    PurgeConsistent(ix, purged);
    BytelessSurvive(ix, purged);
    var g := PurgeChains(ix, purged);
    forall b | b in g.artifacts && HasBytes(g.versions, b)
      ensures SameArtifact(f, g, b)
    {
      assert SameArtifact(f, ix, b);
    }
  }

  lemma PurgeKeepsSafe(ix: Index, lines: seq<Event>, next: Id, purged: set<Id>)
    requires Safe(ix, lines, next) && Byteless(ix, purged)
    ensures Safe(PurgeChains(ix, purged), lines, next)
    ensures Unreferenced(PurgeChains(ix, purged)) == {}
  {
    var g := PurgeChains(ix, purged);
    assert Consistent(g) && g.blobs == ix.blobs by { PurgeConsistent(ix, purged); }
    assert LinesHold(lines, g) by { PurgeLinesHold(ix, lines, purged); }
    assert TipsHold(lines, g) by {
      forall b | b in g.artifacts
        ensures TipHolds(lines, g, b)
      {
        assert TipHolds(lines, ix, b);
      }
    }
    assert MirrorHolds(g, lines) by { PurgeMirrors(ReplayLines(EMPTY, lines).value, ix, purged); }
    assert Minted(g, lines, next);
  }
}
