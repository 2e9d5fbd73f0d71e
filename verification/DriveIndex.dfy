/**
 * The rebuildable SQLite index of the Drive artifact store, the version-journal events, and the
 * replay of a journal over an index (apps/drive/src/db/schema.ts, storage/journal.ts,
 * storage/maintenance.ts).  A table is a map from primary key to row; SQLite's UNIQUE and
 * foreign-key checks are written out where a statement of the source depends on them.
 */
module DriveIndex {
  import opened Prelude

  type Id = nat
  type Sub = string
  type Sha = string
  type Ticket = string

  /** A marker row's op id is derived from its own version id; every other op id comes from a client. */
  datatype OpKey = ClientOp(key: string) | MarkerOp(marker: Id)

  datatype VersionRow = VersionRow(
    artifact: Id, seqNo: nat, sha: Option<Sha>, ticket: Ticket, note: Option<string>, createdBy: Sub,
    fence: Option<nat>, op: OpKey, mime: string, hint: Option<string>, size: nat, name: string, createdAt: nat)
  {
    /** The hash is NULL exactly on delete markers. */
    predicate IsMarker() { sha.None? }

    /** What a journal line keeps of a row: everything but the client's MIME hint. */
    function Journaled(): VersionRow { this.(hint := None) }
  }

  datatype ArtifactRow = ArtifactRow(ticket: Ticket, name: string, current: Option<Id>, createdBy: Sub, createdAt: nat)

  datatype BlobRow = BlobRow(size: nat, refcount: nat, createdAt: nat)

  datatype Index = Index(
    artifacts: map<Id, ArtifactRow>, versions: map<Id, VersionRow>, blobs: map<Sha, BlobRow>, fences: map<Ticket, nat>)

  const EMPTY := Index(map[], map[], map[], map[])

  datatype Event =
    | VersionCommitted(version: Id, row: VersionRow, logicalName: string)
    | DeleteMarker(version: Id, artifact: Id)
    | PointerMove(artifact: Id, to: Option<Id>)
    | GcPurge(sha: Sha)
    | TicketStateChange(artifact: Id)
    | Aborted(version: Id)

  // ----- queries --------------------------------------------------------------------------------

  function SeqsOf(versions: map<Id, VersionRow>, a: Id): set<nat> {
    set v | v in versions && versions[v].artifact == a :: versions[v].seqNo
  }

  /** SELECT COALESCE(MAX(seq), 0) over the rows of one artifact. */
  function MaxSeq(versions: map<Id, VersionRow>, a: Id): (m: nat)
    ensures forall v | v in versions && versions[v].artifact == a :: versions[v].seqNo <= m
    ensures m == 0 || exists v | v in versions :: versions[v].artifact == a && versions[v].seqNo == m
  {
    var m := Largest(SeqsOf(versions, a) + {0});
    assert forall v | v in versions && versions[v].artifact == a :: versions[v].seqNo in SeqsOf(versions, a);
    m
  }

  function Naming(versions: map<Id, VersionRow>, s: Sha): set<Id> {
    set v | v in versions && versions[v].sha == Some(s)
  }

  /** How many version rows name the blob. */
  function RefCount(versions: map<Id, VersionRow>, s: Sha): nat {
    |Naming(versions, s)|
  }

  /** The two UNIQUE constraints of artifact_versions besides the primary key. */
  predicate Clashes(versions: map<Id, VersionRow>, row: VersionRow) {
    exists w | w in versions ::
      || (versions[w].artifact == row.artifact && versions[w].seqNo == row.seqNo)
      || (versions[w].createdBy == row.createdBy && versions[w].op == row.op)
  }

  predicate NameTaken(artifacts: map<Id, ArtifactRow>, ticket: Ticket, name: string) {
    exists a | a in artifacts :: artifacts[a].ticket == ticket && artifacts[a].name == name
  }

  predicate HasBytes(versions: map<Id, VersionRow>, a: Id) {
    exists v | v in versions :: versions[v].artifact == a && !versions[v].IsMarker()
  }

  predicate HasVersion(versions: map<Id, VersionRow>, a: Id) {
    exists v | v in versions :: versions[v].artifact == a
  }

  /** The high-water a token raises: unchanged unless strictly above. */
  function RaiseFence(fences: map<Ticket, nat>, t: Ticket, token: Option<nat>): map<Ticket, nat> {
    if token.Some? && (t !in fences || fences[t] < token.value) then fences[t := token.value] else fences
  }

  // ----- replay ---------------------------------------------------------------------------------

  /** The seq the current pointer resolves to; -1 when it is NULL or dangling. */
  function CurrentSeq(ix: Index, a: Id): int {
    if a in ix.artifacts && ix.artifacts[a].current.Some? && ix.artifacts[a].current.value in ix.versions
    then ix.versions[ix.artifacts[a].current.value].seqNo
    else -1
  }

  function SetPointer(ix: Index, a: Id, to: Option<Id>): Index {
    if a in ix.artifacts then ix.(artifacts := ix.artifacts[a := ix.artifacts[a].(current := to)]) else ix
  }

  /** INSERT OR IGNORE of the artifact and blob rows a committed line carries. */
  function AdoptParents(ix: Index, row: VersionRow, logicalName: string): Index {
    var artifacts :=
      if row.artifact in ix.artifacts || NameTaken(ix.artifacts, row.ticket, logicalName) then ix.artifacts
      else ix.artifacts[row.artifact := ArtifactRow(row.ticket, logicalName, None, row.createdBy, row.createdAt)];
    var blobs :=
      if row.sha.None? || row.sha.value in ix.blobs then ix.blobs
      else ix.blobs[row.sha.value := BlobRow(row.size, 0, row.createdAt)];
    ix.(artifacts := artifacts, blobs := blobs)
  }

  /** The guarded pointer move and the fencing high-water of a committed line. */
  function Promote(ix: Index, v: Id, row: VersionRow): Index {
    var moved := if row.seqNo > CurrentSeq(ix, row.artifact) then SetPointer(ix, row.artifact, Some(v)) else ix;
    moved.(fences := RaiseFence(moved.fences, row.ticket, row.fence))
  }

  /** One replayed line; None is a foreign-key error, which aborts the whole rebuild. */
  function ApplyEvent(ix: Index, e: Event): Option<Index> {
    match e
    case VersionCommitted(v, row, logicalName) =>
      var adopted := AdoptParents(ix, row, logicalName);
      if v in ix.versions || Clashes(ix.versions, row) then Some(Promote(adopted, v, row))
      else if row.artifact !in adopted.artifacts then None
      else Some(Promote(adopted.(versions := adopted.versions[v := row.Journaled()]), v, row))
    case DeleteMarker(_, a) => Some(SetPointer(ix, a, None))
    case PointerMove(a, to) => Some(SetPointer(ix, a, to))
    case GcPurge(s) =>
      if s in ix.blobs && RefCount(ix.versions, s) > 0 then None else Some(ix.(blobs := ix.blobs - {s}))
    case TicketStateChange(_) => Some(ix)
    case Aborted(v) => Some(ix.(versions := ix.versions - {v}))
  }

  function ReplayLines(ix: Index, lines: seq<Event>): Option<Index> {
    if lines == [] then Some(ix)
    else
      match ReplayLines(ix, Front(lines))
      case None => None
      case Some(x) => ApplyEvent(x, Last(lines))
  }

  /** Refcounts recomputed from the surviving version rows. */
  function Recount(ix: Index): Index {
    ix.(blobs := map s | s in ix.blobs :: ix.blobs[s].(refcount := RefCount(ix.versions, s)))
  }

  /** A whole rebuild: None when it throws, and then its transaction leaves the index alone. */
  function Rebuild(ix: Index, lines: seq<Event>): Option<Index> {
    match ReplayLines(ix, lines)
    case None => None
    case Some(x) => Some(Recount(x))
  }

  lemma ReplayAppend(ix: Index, lines: seq<Event>, e: Event)
    ensures ReplayLines(ix, lines + [e]) ==
            match ReplayLines(ix, lines) case None => None case Some(x) => ApplyEvent(x, e)
  {
    assert Front(lines + [e]) == lines;
  }

  /** A rebuild that fails on some lines fails on any longer journal. */
  lemma ReplayStuck(ix: Index, lines: seq<Event>, more: seq<Event>)
    requires ReplayLines(ix, lines).None?
    ensures ReplayLines(ix, lines + more).None?
  {
    if more == [] {
      assert lines + more == lines;
    } else {
      assert Front(lines + more) == lines + Front(more);
      ReplayStuck(ix, lines, Front(more));
    }
  }

  // ----- refcounts ------------------------------------------------------------------------------

  lemma RefCountInsert(versions: map<Id, VersionRow>, v: Id, row: VersionRow, s: Sha)
    requires v !in versions
    ensures RefCount(versions[v := row], s) == RefCount(versions, s) + (if row.sha == Some(s) then 1 else 0)
  {
    var before, after := Naming(versions, s), Naming(versions[v := row], s);
    assert after == if row.sha == Some(s) then before + {v} else before;
  }

  lemma RefCountRemove(versions: map<Id, VersionRow>, v: Id, s: Sha)
    requires v in versions
    ensures RefCount(versions, s) == RefCount(versions - {v}, s) + (if versions[v].sha == Some(s) then 1 else 0)
  {
    var before, after := Naming(versions, s), Naming(versions - {v}, s);
    assert before == if versions[v].sha == Some(s) then after + {v} else after;
  }

  lemma RefCountZero(versions: map<Id, VersionRow>, s: Sha)
    ensures RefCount(versions, s) == 0 <==> forall v | v in versions :: versions[v].sha != Some(s)
  {
    if v :| v in versions && versions[v].sha == Some(s) {
      assert v in Naming(versions, s);
    } else {
      assert Naming(versions, s) == {};
    }
  }

  // ----- what the tables always satisfy -----------------------------------------------------------

  ghost predicate RowsLinked(ix: Index) {
    forall v | v in ix.versions ::
      && ix.versions[v].artifact in ix.artifacts
      && ix.versions[v].seqNo >= 1
      && (ix.versions[v].sha.Some? ==> ix.versions[v].sha.value in ix.blobs)
  }

  ghost predicate RowsUnique(versions: map<Id, VersionRow>) {
    forall v, w | v in versions && w in versions && v != w ::
      && !(versions[v].artifact == versions[w].artifact && versions[v].seqNo == versions[w].seqNo)
      && !(versions[v].createdBy == versions[w].createdBy && versions[v].op == versions[w].op)
  }

  ghost predicate NamesUnique(artifacts: map<Id, ArtifactRow>) {
    forall a, b | a in artifacts && b in artifacts && a != b ::
      !(artifacts[a].ticket == artifacts[b].ticket && artifacts[a].name == artifacts[b].name)
  }

  ghost predicate PointerValid(ix: Index, a: Id)
    requires a in ix.artifacts
  {
    ix.artifacts[a].current.Some? ==>
      && ix.artifacts[a].current.value in ix.versions
      && ix.versions[ix.artifacts[a].current.value].artifact == a
      && !ix.versions[ix.artifacts[a].current.value].IsMarker()
  }

  ghost predicate PointersValid(ix: Index) {
    forall a | a in ix.artifacts :: PointerValid(ix, a)
  }

  ghost predicate RefsCounted(ix: Index) {
    forall s | s in ix.blobs :: ix.blobs[s].refcount == RefCount(ix.versions, s)
  }

  ghost predicate Consistent(ix: Index) {
    && RowsLinked(ix)
    && RowsUnique(ix.versions)
    && NamesUnique(ix.artifacts)
    && PointersValid(ix)
    && RefsCounted(ix)
  }
}
