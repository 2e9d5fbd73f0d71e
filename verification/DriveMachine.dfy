/**
 * The Drive store as a state machine: what every service operation of
 * apps/drive/src/storage/store.ts and gc.ts does to the tables, the version journal, the staging
 * area and the content-addressed disk, and the runs those operations generate.
 */
module DriveMachine {
  import opened Prelude
  import opened DriveIndex

  newtype byte = x: int | 0 <= x < 256
  type Bytes = seq<byte>

  datatype Kind = Agent | Service | Human
  datatype Principal = Principal(sub: Sub, kind: Kind)

  /** The fencing echo of a request, after JavaScript's Number() coercion. */
  datatype Echo = Missing | NotInteger | Integer(n: int)

  datatype Intent = Intent(
    ticket: Ticket, name: string, op: string, echo: Echo, note: Option<string>, hint: Option<string>,
      expected: Option<Sha>)

  datatype Status = Pending | Committed | Discarded | Expired

  datatype Upload = Upload(
    status: Status, createdBy: Sub, op: string, ticket: Ticket, name: string, note: Option<string>, fence: Option<nat>,
    hint: Option<string>, expected: Option<Sha>, artifact: Id, result: Option<Id>, lastActivity: nat, staged: nat)

  datatype Material = Material(sha: Sha, size: nat, mime: string, originalName: string)

  datatype Receipt = Receipt(artifact: Id, version: Id, seqNo: nat, sha: Option<Sha>, mime: string, size: nat)

  datatype Registration = Registration(artifact: Id, upload: Id)

  datatype DriveError =
    | MalformedId | FencingRequired | StaleFencing | UploadExpired | UploadState | NotOwner | OverSizeCap | TypeRejected
    | QuotaExhausted | DiskWatermark | NotFound | Conflict | Constraint | IoFailure | Internal | BrokenStream

  datatype Limits = Limits(maxBytes: nat, uploadTtl: nat, dailyQuota: nat, maxPending: nat, allowExecutables: bool)

  /** Where an I/O error strikes a commit after its journal line is durable. */
  datatype Fault = NoFault | AtRename | AtAudit

  /** The quota ledger's key: principal and UTC day. */
  datatype Account = Account(sub: Sub, day: nat)

  datatype State = State(
    ix: Index, uploads: map<Id, Upload>, ledger: map<Account, nat>, journal: seq<Event>,
    disk: map<Sha, Bytes>, staging: map<Id, Bytes>, next: Id)

  datatype Outcome<+T> = Outcome(after: State, reply: Result<T, DriveError>)

  const INIT := State(EMPTY, map[], map[], [], map[], map[], 0)

  // ----- registration ---------------------------------------------------------------------------

  predicate IsDigit(c: char) { '0' <= c <= '9' }

  predicate ValidTicket(t: Ticket) {
    |t| >= 8 && t[..2] == "T-" && forall i | 2 <= i < |t| :: IsDigit(t[i])
  }

  /** Agents must echo a non-negative integer; humans and services are exempt. */
  function NormalizeFence(kind: Kind, echo: Echo): Result<Option<nat>, DriveError> {
    if !kind.Agent? then Ok(None)
    else if echo.Integer? && echo.n >= 0 then Ok(Some(echo.n))
    else Err(FencingRequired)
  }

  predicate WellFormed(intent: Intent) {
    && ValidTicket(intent.ticket)
    && 0 < |intent.name| <= 512
    && (intent.note.Some? ==> 0 < |intent.note.value| <= 128)
    && 0 < |intent.op| <= 128
  }

  function PendingOf(uploads: map<Id, Upload>, sub: Sub): set<Id> {
    set u | u in uploads && uploads[u].createdBy == sub && uploads[u].status.Pending?
  }

  /** The session a (principal, op_id) pair already names; unique by the UNIQUE constraint. */
  predicate SessionOf(uploads: map<Id, Upload>, u: Id, sub: Sub, op: string) {
    u in uploads && uploads[u].createdBy == sub && uploads[u].op == op
  }

  predicate HasSession(uploads: map<Id, Upload>, sub: Sub, op: string) {
    exists u | u in uploads :: SessionOf(uploads, u, sub, op)
  }

  predicate NamesArtifact(artifacts: map<Id, ArtifactRow>, a: Id, ticket: Ticket, name: string) {
    a in artifacts && artifacts[a].ticket == ticket && artifacts[a].name == name
  }

  function NewUpload(p: Principal, intent: Intent, fence: Option<nat>, a: Id, now: nat): Upload {
    Upload(Pending, p.sub, intent.op, intent.ticket, intent.name, intent.note, fence, intent.hint, intent.expected, a,
           None, now, 0)
  }

  /** What a registration that opens a new session does; `a` is the artifact it resolved, if any. */
  function OpenSession(s: State, p: Principal, intent: Intent, fence: Option<nat>, found: Option<Id>,
                       now: nat): Outcome<Registration> {
    var a := if found.Some? then found.value else s.next;
    var u := if found.Some? then s.next else s.next + 1;
    var artifacts :=
      if found.Some? then s.ix.artifacts
      else s.ix.artifacts[a := ArtifactRow(intent.ticket, intent.name, None, p.sub, now)];
    Outcome(s.(ix := s.ix.(artifacts := artifacts), uploads := s.uploads[u := NewUpload(p, intent, fence, a, now)],
               next := u + 1),
            Ok(Registration(a, u)))
  }

  /** `found` and `session` are the rows the two unique-key lookups return. */
  ghost predicate Looked(s: State, p: Principal, intent: Intent, found: Option<Id>, session: Option<Id>) {
    && (match found
        case Some(a) => NamesArtifact(s.ix.artifacts, a, intent.ticket, intent.name)
        case None => !NameTaken(s.ix.artifacts, intent.ticket, intent.name))
    && (match session
        case Some(u) => SessionOf(s.uploads, u, p.sub, intent.op)
        case None => !HasSession(s.uploads, p.sub, intent.op))
  }

  function Register(s: State, p: Principal, intent: Intent, found: Option<Id>, session: Option<Id>, now: nat,
                    limits: Limits)
    : Outcome<Registration>
    requires session.Some? ==> session.value in s.uploads
  {
    if !WellFormed(intent) then Outcome(s, Err(MalformedId))
    else
      match NormalizeFence(p.kind, intent.echo)
      case Err(e) => Outcome(s, Err(e))
      case Ok(fence) =>
        if session.Some? then Outcome(s, Ok(Registration(s.uploads[session.value].artifact, session.value)))
        else if |PendingOf(s.uploads, p.sub)| >= limits.maxPending then Outcome(s, Err(QuotaExhausted))
        else OpenSession(s, p, intent, fence, found, now)
  }

  // ----- quota ledger ---------------------------------------------------------------------------

  function Balance(ledger: map<Account, nat>, k: Account): nat {
    if k in ledger then ledger[k] else 0
  }

  function Release(ledger: map<Account, nat>, k: Account, delta: nat): map<Account, nat> {
    if delta == 0 || k !in ledger then ledger else ledger[k := Max(0, ledger[k] - delta)]
  }

  function Touch(uploads: map<Id, Upload>, u: Id, staged: nat, now: nat): map<Id, Upload> {
    if u in uploads then uploads[u := uploads[u].(lastActivity := now, staged := staged)] else uploads
  }

  // ----- commit ---------------------------------------------------------------------------------

  predicate IsExecutable(mime: string) {
    mime == "application/x-msdownload" || mime == "application/x-elf" || mime == "application/x-mach-binary"
  }

  predicate Stale(fences: map<Ticket, nat>, t: Ticket, token: Option<nat>) {
    token.Some? && t in fences && token.value < fences[t]
  }

  function ReceiptOf(v: Id, row: VersionRow): Receipt {
    Receipt(row.artifact, v, row.seqNo, row.sha, row.mime, row.size)
  }

  function NewRow(ix: Index, u: Upload, mat: Material, now: nat): VersionRow {
    VersionRow(u.artifact, MaxSeq(ix.versions, u.artifact) + 1, Some(mat.sha), u.ticket, u.note, u.createdBy, u.fence,
               ClientOp(u.op), mat.mime, u.hint, mat.size, mat.originalName, now)
  }

  function AddRef(blobs: map<Sha, BlobRow>, sha: Sha, size: nat, now: nat): map<Sha, BlobRow> {
    if sha in blobs then blobs[sha := blobs[sha].(refcount := blobs[sha].refcount + 1)]
    else blobs[sha := BlobRow(size, 1, now)]
  }

  /** The index after steps (b) to (e) of the commit transaction. */
  function CommitIndex(ix: Index, v: Id, row: VersionRow): Index
    requires row.sha.Some?
  {
    SetPointer(
      ix.(fences := RaiseFence(ix.fences, row.ticket, row.fence),
          blobs := AddRef(ix.blobs, row.sha.value, row.size, row.createdAt),
          versions := ix.versions[v := row]),
      row.artifact, Some(v))
  }

  /** Moves a staged file to its content address unless the address is already occupied. */
  function Materialize(s: State, u: Id, sha: Sha): State
    requires sha !in s.disk ==> u in s.staging
  {
    if sha in s.disk then s else s.(disk := s.disk[sha := s.staging[u]], staging := s.staging - {u})
  }

  /** The end of a commit whose line is durable: materialise, then keep or roll back the tables of `lined`. */
  function Settle(lined: State, u: Id, v: Id, row: VersionRow, now: nat, fault: Fault): Outcome<Receipt>
    requires u in lined.uploads && row.sha.Some?
  {
    if row.sha.value !in lined.disk && (u !in lined.staging || fault.AtRename?) then
      Outcome(lined.(journal := lined.journal + [Aborted(v)]), Err(IoFailure))
    else
      var placed := Materialize(lined, u, row.sha.value);
      if fault.AtAudit? then
        Outcome(placed.(journal := placed.journal + [Aborted(v)]), Err(IoFailure))
      else
        Outcome(placed.(ix := CommitIndex(lined.ix, v, row),
                        uploads := lined.uploads[
                          u := lined.uploads[u].(status := Committed, result := Some(v), lastActivity := now)],
                        staging := placed.staging - {u}),
                Ok(ReceiptOf(v, row)))
  }

  /** The commit transaction of a pending upload that passed the guards. */
  function CommitTxn(s: State, u: Id, mat: Material, now: nat, fault: Fault): Outcome<Receipt>
    requires u in s.uploads
  {
    var up := s.uploads[u];
    var v := s.next;
    var row := NewRow(s.ix, up, mat, now);
    var minted := s.(next := v + 1);
    if Stale(s.ix.fences, up.ticket, up.fence) then Outcome(minted, Err(StaleFencing))
    else if Clashes(s.ix.versions, row) || row.artifact !in s.ix.artifacts then
      Outcome(minted.(journal := s.journal + [Aborted(v)]), Err(Constraint))
    else
      Settle(minted.(journal := s.journal + [VersionCommitted(v, row.Journaled(), up.name)]), u, v, row, now, fault)
  }

  predicate HashRefused(expected: Option<Sha>, sha: Sha) {
    expected.Some? && expected.value != "" && expected.value != sha
  }

  function Commit(s: State, p: Principal, u: Id, mat: Material, now: nat, limits: Limits,
                  fault: Fault): Outcome<Receipt> {
    if u !in s.uploads then Outcome(s, Err(NotFound))
    else
      var up := s.uploads[u];
      if up.createdBy != p.sub then Outcome(s, Err(NotOwner))
      else if up.status.Committed? && up.result.Some? then
        Outcome(s,
                if up.result.value in s.ix.versions then Ok(ReceiptOf(up.result.value, s.ix.versions[up.result.value]))
                   else Err(Internal))
      else if !up.status.Pending? then Outcome(s, Err(UploadState))
      else if IsExecutable(mat.mime) && !limits.allowExecutables then Outcome(s, Err(TypeRejected))
      else if HashRefused(up.expected, mat.sha) then Outcome(s, Err(Conflict))
      else CommitTxn(s, u, mat, now, fault)
  }

  // ----- abort and expiry -------------------------------------------------------------------------

  function Abort(s: State, p: Principal, u: Id, now: nat, today: nat): Outcome<()> {
    if u !in s.uploads then Outcome(s, Err(NotFound))
    else if s.uploads[u].createdBy != p.sub then Outcome(s, Err(NotOwner))
    else if s.uploads[u].status.Committed? then Outcome(s, Ok(()))
    else
      Outcome(s.(uploads := s.uploads[u := s.uploads[u].(status := Discarded, lastActivity := now)],
                 ledger := Release(s.ledger, Account(p.sub, today), s.uploads[u].staged),
                 staging := s.staging - {u}),
              Ok(()))
  }

  predicate Overdue(up: Upload, now: nat, ttl: nat) {
    up.status.Pending? && now > up.lastActivity + ttl
  }

  /** One expiry of the phase-1 sweep. */
  function Expire(s: State, u: Id, today: nat): State
    requires u in s.uploads
  {
    s.(uploads := s.uploads[u := s.uploads[u].(status := Expired)],
       ledger := Release(s.ledger, Account(s.uploads[u].createdBy, today), s.uploads[u].staged))
  }

  function OverdueUploads(uploads: map<Id, Upload>, now: nat, ttl: nat): set<Id> {
    set u | u in uploads && Overdue(uploads[u], now, ttl)
  }

  /** The expiries of one sweep, in the order the query returned them. */
  function ExpireEach(s: State, order: seq<Id>, today: nat): State {
    if order == [] then s
    else
      var x := ExpireEach(s, Front(order), today);
      if Last(order) in x.uploads then Expire(x, Last(order), today) else x
  }

  function DeadUploads(uploads: map<Id, Upload>): set<Id> {
    set u | u in uploads && (uploads[u].status.Discarded? || uploads[u].status.Expired?)
  }

  // ----- operator pointer operations ----------------------------------------------------------------

  function MarkerRow(ix: Index, a: Id, v: Id, author: Sub, now: nat): VersionRow
    requires a in ix.artifacts
  {
    VersionRow(a, MaxSeq(ix.versions, a) + 1, None, ix.artifacts[a].ticket, None, author, None, MarkerOp(v),
               "application/x-delete-marker", None, 0, "", now)
  }

  function Delete(s: State, p: Principal, a: Id, now: nat): Outcome<Id> {
    if a !in s.ix.artifacts then Outcome(s, Err(NotFound))
    else
      var v := s.next;
      var row := MarkerRow(s.ix, a, v, p.sub, now);
      if Clashes(s.ix.versions, row) then Outcome(s.(next := v + 1), Err(Constraint))
      else
        Outcome(s.(ix := SetPointer(s.ix.(versions := s.ix.versions[v := row]), a, None),
                   journal := s.journal + [DeleteMarker(v, a)], next := v + 1),
                Ok(v))
  }

  function Restore(s: State, a: Id, v: Id): Outcome<()> {
    if a !in s.ix.artifacts || v !in s.ix.versions || s.ix.versions[v].artifact != a || s.ix.versions[v].IsMarker() then
      Outcome(s, Err(NotFound))
    else
      Outcome(s.(ix := SetPointer(s.ix, a, Some(v)), journal := s.journal + [PointerMove(a, Some(v))]), Ok(()))
  }

  // ----- garbage collection, phase 2 ----------------------------------------------------------------

  function MarkedChains(ix: Index): set<Id> {
    set a | a in ix.artifacts && ix.artifacts[a].current.None? && HasVersion(ix.versions, a)
  }

  function Surviving(versions: map<Id, VersionRow>, purged: set<Id>): map<Id, VersionRow> {
    map v | v in versions && versions[v].artifact !in purged :: versions[v]
  }

  /** The index once every chain in `purged` is gone and refcounts say what survives. */
  function PurgeChains(ix: Index, purged: set<Id>): Index {
    Recount(ix.(artifacts := ix.artifacts - purged, versions := Surviving(ix.versions, purged)))
  }

  function Unreferenced(ix: Index): set<Sha> {
    set s | s in ix.blobs && ix.blobs[s].refcount == 0
  }

  function Elements<T>(s: seq<T>): set<T> { set x | x in s }

  predicate Distinct<T(==)>(s: seq<T>) {
    forall i, k | 0 <= i < k < |s| :: s[i] != s[k]
  }

  /** `order` lists exactly the members of `s`, each once: some order in which a query returned them. */
  predicate Lists<T(==)>(order: seq<T>, s: set<T>) {
    Distinct(order) && Elements(order) == s
  }

  function PurgeLines(order: seq<Sha>): seq<Event> {
    seq(|order|, i requires 0 <= i < |order| => GcPurge(order[i]))
  }

  function Collect(s: State, order: seq<Sha>): State {
    var ix := PurgeChains(s.ix, MarkedChains(s.ix));
    s.(ix := ix.(blobs := ix.blobs - Elements(order)), journal := s.journal + PurgeLines(order),
       disk := s.disk - Elements(order))
  }

  // ----- runs -------------------------------------------------------------------------------------

  function Reboot(s: State): State {
    match Rebuild(s.ix, s.journal)
    case Some(ix) => s.(ix := ix)
    case None => s
  }

  /**
   * The operations of a run.  Lookups whose order or choice SQLite leaves open carry the answer as
   * an argument, and an operation whose answer is not one the query could return changes nothing.
   */
  datatype Op =
    | DoRegister(p: Principal, intent: Intent, found: Option<Id>, session: Option<Id>, now: nat)
    | DoStage(u: Id, bytes: Bytes)
    | DoCharge(k: Account, delta: nat)
    | DoTouch(u: Id, staged: nat, now: nat)
    | DoCommit(p: Principal, u: Id, mat: Material, now: nat, fault: Fault)
    | DoAbort(p: Principal, u: Id, now: nat, today: nat)
    | DoExpire(u: Id, now: nat, today: nat)
    | DoSweep(u: Id)
    | DoDelete(p: Principal, a: Id, now: nat)
    | DoRestore(a: Id, v: Id)
    | DoCollect(order: seq<Sha>)
    | DoReboot
    | DoCrash(inner: Op, moved: bool)

  /** Crash after `inner` made its first journal line durable but before its transaction did, then boot. */
  function Interrupted(s: State, inner: State): State {
    Reboot(s.(journal := inner.journal[..Min(|s.journal| + 1, |inner.journal|)], next := inner.next))
  }

  /** The same, where the file the operation moves into place, if it moves one, had been `moved` already. */
  function Crashed(s: State, inner: State, moved: bool): State {
    var after := Interrupted(s, inner);
    if moved && inner.disk != s.disk then after.(disk := inner.disk, staging := inner.staging) else after
  }

  predicate Interruptible(op: Op) { op.DoCommit? || op.DoDelete? || op.DoRestore? }

  ghost function Step(s: State, op: Op, limits: Limits): State
    decreases op
  {
    match op
    case DoRegister(p, intent, found, session, now) =>
      if Looked(s, p, intent, found, session) then Register(s, p, intent, found, session, now, limits).after else s
    case DoStage(u, bytes) =>
      if u in s.uploads && s.uploads[u].status.Pending? then s.(staging := s.staging[u := bytes]) else s
    case DoCharge(k, delta) =>
      if Balance(s.ledger, k) + delta > limits.dailyQuota then s
      else s.(ledger := s.ledger[k := Balance(s.ledger, k) + delta])
    case DoTouch(u, staged, now) => s.(uploads := Touch(s.uploads, u, staged, now))
    case DoCommit(p, u, mat, now, fault) => Commit(s, p, u, mat, now, limits, fault).after
    case DoAbort(p, u, now, today) => Abort(s, p, u, now, today).after
    case DoExpire(u, now, today) =>
      if u in s.uploads && Overdue(s.uploads[u], now, limits.uploadTtl) then Expire(s, u, today) else s
    case DoSweep(u) => if u in DeadUploads(s.uploads) then s.(staging := s.staging - {u}) else s
    case DoDelete(p, a, now) => Delete(s, p, a, now).after
    case DoRestore(a, v) => Restore(s, a, v).after
    case DoCollect(order) =>
      if Lists(order, Unreferenced(PurgeChains(s.ix, MarkedChains(s.ix)))) then Collect(s, order) else s
    case DoReboot => Reboot(s)
    case DoCrash(inner, moved) => if Interruptible(inner) then Crashed(s, Step(s, inner, limits), moved) else s
  }

  ghost function Run(ops: seq<Op>, limits: Limits): State {
    if ops == [] then INIT else Step(Run(Front(ops), limits), Last(ops), limits)
  }

  /** The state after the first `i` operations. */
  ghost function At(ops: seq<Op>, i: nat, limits: Limits): State
    requires i <= |ops|
  {
    Run(ops[..i], limits)
  }
}
