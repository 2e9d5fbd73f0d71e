/**
 * What each service operation answers and when, in the words of the tables: which request is refused and with which
 * error, and what an accepted one leaves (apps/drive/src/storage/store.ts, gc.ts).
 */
module DriveAnswers {
  import opened Prelude
  import opened DriveIndex
  import opened DriveMachine

  // ----- registration --------------------------------------------------------------------------------------------

  /** ^T-\d{6,}$ */
  predicate TicketId(t: string) {
    |t| >= 8 && t[0] == 'T' && t[1] == '-' && forall i | 2 <= i < |t| :: '0' <= t[i] <= '9'
  }

  predicate GoodIntent(intent: Intent) {
    && TicketId(intent.ticket)
    && 1 <= |intent.name| <= 512
    && (intent.note == None || 1 <= |intent.note.value| <= 128)
    && 1 <= |intent.op| <= 128
  }

  /** An agent's token is the integer it echoed, which is not negative; nobody else has one. */
  ghost predicate Echoed(p: Principal, echo: Echo, fence: Option<nat>) {
    match p.kind
    case Agent => fence.Some? && echo == Integer(fence.value)
    case _ => fence == None
  }

  /** Someone who must echo a token did not. */
  ghost predicate NoEcho(p: Principal, echo: Echo) {
    p.kind == Agent && forall n: nat :: echo != Integer(n)
  }

  ghost predicate HasOperation(s: State, sub: Sub, op: string) {
    exists u | u in s.uploads :: s.uploads[u].createdBy == sub && s.uploads[u].op == op
  }

  ghost function PendingCount(s: State, sub: Sub): nat {
    |set u | u in s.uploads && s.uploads[u].createdBy == sub && s.uploads[u].status == Pending|
  }

  /** The fresh session `u`, pending on artifact `a`, remembers the whole intent and nothing else. */
  ghost predicate Opens(p: Principal, intent: Intent, a: Id, now: nat, up: Upload) {
    && up.status == Pending && up.result == None && up.staged == 0 && up.lastActivity == now
    && up.createdBy == p.sub && up.op == intent.op && up.ticket == intent.ticket && up.name == intent.name
    && up.note == intent.note && up.hint == intent.hint && up.expected == intent.expected && up.artifact == a
    && Echoed(p, intent.echo, up.fence)
  }

  /** The artifact of that ticket and name, made without a version if there was none. */
  ghost predicate Resolves(s: State, t: State, intent: Intent, sub: Sub, now: nat, a: Id) {
    if exists b ::
      b in s.ix.artifacts && s.ix.artifacts[b].ticket == intent.ticket && s.ix.artifacts[b].name == intent.name
    then
      && a in s.ix.artifacts && s.ix.artifacts[a].ticket == intent.ticket && s.ix.artifacts[a].name == intent.name
      && t.ix == s.ix
    else
      && s.next <= a < t.next
      && t.ix == s.ix.(artifacts := s.ix.artifacts[a := ArtifactRow(intent.ticket, intent.name, None, sub, now)])
  }

  ghost predicate Opened(s: State, t: State, p: Principal, intent: Intent, now: nat, reg: Registration) {
    && Resolves(s, t, intent, p.sub, now, reg.artifact)
    && s.next <= reg.upload < t.next
    && reg.upload in t.uploads && t.uploads == s.uploads[reg.upload := t.uploads[reg.upload]]
    && Opens(p, intent, reg.artifact, now, t.uploads[reg.upload])
    && t == s.(ix := t.ix, uploads := t.uploads, next := t.next)
  }

  /**
   * Registration: refused for a malformed intent, then for a missing echo, answered with the session the subject's
   * operation already has, refused at the cap of pending sessions, and otherwise a new session.  Only the last changes
   * anything.
   */
  lemma RegisterAnswers(s: State, p: Principal, intent: Intent, found: Option<Id>, session: Option<Id>, now: nat,
                        limits: Limits)
    requires Looked(s, p, intent, found, session)
    ensures var out := Register(s, p, intent, found, session, now, limits);
            if !GoodIntent(intent) then out == Outcome(s, Err(MalformedId))
            else if NoEcho(p, intent.echo) then out == Outcome(s, Err(FencingRequired))
            else if HasOperation(s, p.sub, intent.op) then
              && out.after == s && out.reply.Ok?
              && var u := out.reply.value.upload;
                 && u in s.uploads && s.uploads[u].createdBy == p.sub && s.uploads[u].op == intent.op
                 && out.reply.value.artifact == s.uploads[u].artifact
            else if PendingCount(s, p.sub) >= limits.maxPending then out == Outcome(s, Err(QuotaExhausted))
            else out.reply.Ok? && Opened(s, out.after, p, intent, now, out.reply.value)
  {
    FormMeans(intent);
    EchoMeans(p, intent.echo);
    SessionMeans(s, p.sub, intent.op, session);
    assert PendingOf(s.uploads, p.sub) ==
           set u | u in s.uploads && s.uploads[u].createdBy == p.sub && s.uploads[u].status == Pending;
    hide WellFormed, GoodIntent, NormalizeFence, NoEcho, HasSession, HasOperation, PendingOf;
    var out := Register(s, p, intent, found, session, now, limits);
    if out.reply.Ok? && session.None? {
      OpenedMeans(s, p, intent, NormalizeFence(p.kind, intent.echo).value, found, now);
    }
  }

  lemma FormMeans(intent: Intent)
    ensures WellFormed(intent) <==> GoodIntent(intent)
  {
    var t := intent.ticket;
    assert |t| >= 2 ==> (t[..2] == "T-" <==> t[0] == 'T' && t[1] == '-');
  }

  lemma EchoMeans(p: Principal, echo: Echo)
    ensures NormalizeFence(p.kind, echo).Ok? ==> Echoed(p, echo, NormalizeFence(p.kind, echo).value)
    ensures NormalizeFence(p.kind, echo).Ok? <==> !NoEcho(p, echo)
    ensures NormalizeFence(p.kind, echo).Err? ==> NormalizeFence(p.kind, echo).error == FencingRequired
  {
    if echo.Integer? && echo.n >= 0 {
      var n: nat := echo.n;
      assert echo == Integer(n);
    }
  }

  lemma SessionMeans(s: State, sub: Sub, op: string, session: Option<Id>)
    requires match session case Some(u) => SessionOf(s.uploads, u, sub, op) case None => !HasSession(s.uploads, sub, op)
    ensures session.Some? <==> HasOperation(s, sub, op)
  {
    if u :| u in s.uploads && s.uploads[u].createdBy == sub && s.uploads[u].op == op {
      assert SessionOf(s.uploads, u, sub, op);
    }
  }

  lemma OpenedMeans(s: State, p: Principal, intent: Intent, fence: Option<nat>, found: Option<Id>, now: nat)
    requires Echoed(p, intent.echo, fence)
    requires match found
             case Some(a) => NamesArtifact(s.ix.artifacts, a, intent.ticket, intent.name)
             case None => !NameTaken(s.ix.artifacts, intent.ticket, intent.name)
    ensures var out := OpenSession(s, p, intent, fence, found, now);
            out.reply.Ok? && Opened(s, out.after, p, intent, now, out.reply.value)
  {
    hide Echoed;
    var out := OpenSession(s, p, intent, fence, found, now);
    var reg := out.reply.value;
    if found.Some? {
      assert s.ix.artifacts[found.value].ticket == intent.ticket;
      assert s.ix.(artifacts := s.ix.artifacts) == s.ix;
    } else {
      assert forall b | b in s.ix.artifacts ::
          !(s.ix.artifacts[b].ticket == intent.ticket && s.ix.artifacts[b].name == intent.name);
    }
    assert Resolves(s, out.after, intent, p.sub, now, reg.artifact);
    assert out.after.uploads[reg.upload] == NewUpload(p, intent, fence, reg.artifact, now);
  }

  // ----- commit --------------------------------------------------------------------------------------------------

  predicate Executable(mime: string) {
    mime in {"application/x-msdownload", "application/x-elf", "application/x-mach-binary"}
  }

  /** A digest was announced, and it is not this one. */
  predicate OtherDigest(up: Upload, sha: Sha) {
    match up.expected case None => false case Some(e) => e != "" && e != sha
  }

  predicate BelowHighWater(s: State, up: Upload) {
    up.fence.Some? && up.ticket in s.ix.fences && up.fence.value < s.ix.fences[up.ticket]
  }

  /** A version row already carries the session's operation. */
  ghost predicate OperationRow(s: State, up: Upload) {
    exists w | w in s.ix.versions ::
      s.ix.versions[w].createdBy == up.createdBy && s.ix.versions[w].op == ClientOp(up.op)
  }

  /** Nothing is at the address, and nothing can be moved there. */
  predicate CannotPlace(s: State, u: Id, sha: Sha, fault: Fault) {
    sha !in s.disk && (u !in s.staging || fault == AtRename)
  }

  /** The version's row, column by column; `top` is the highest sequence number its artifact had. */
  ghost predicate Inserts(s: State, up: Upload, mat: Material, now: nat, row: VersionRow) {
    && row.artifact == up.artifact && row.sha == Some(mat.sha) && row.ticket == up.ticket && row.note == up.note
    && row.createdBy == up.createdBy && row.fence == up.fence && row.op == ClientOp(up.op) && row.mime == mat.mime
    && row.hint == up.hint && row.size == mat.size && row.name == mat.originalName && row.createdAt == now
    && (forall w | w in s.ix.versions && s.ix.versions[w].artifact == up.artifact :: s.ix.versions[w].seqNo < row.seqNo)
    && (row.seqNo == 1 ||
        exists w | w in s.ix.versions ::
          s.ix.versions[w].artifact == up.artifact && s.ix.versions[w].seqNo + 1 == row.seqNo)
  }

  /** What a successful commit leaves of everything it touches. */
  ghost predicate Commits(s: State, t: State, u: Id, mat: Material, now: nat, r: Receipt)
    requires u in s.uploads
  {
    var v, up := s.next, s.uploads[u];
    && v in t.ix.versions && t.ix.versions == s.ix.versions[v := t.ix.versions[v]]
    && Inserts(s, up, mat, now, t.ix.versions[v])
    && r == Receipt(up.artifact, v, t.ix.versions[v].seqNo, Some(mat.sha), mat.mime, mat.size)
    && up.artifact in s.ix.artifacts
    && t.ix.artifacts == s.ix.artifacts[up.artifact := s.ix.artifacts[up.artifact].(current := Some(v))]
    && t.uploads == s.uploads[u := up.(status := Committed, result := Some(v), lastActivity := now)]
    && mat.sha in t.disk && (forall x | x in s.disk :: x in t.disk && t.disk[x] == s.disk[x])
    && (mat.sha !in s.disk ==> u in s.staging && t.disk[mat.sha] == s.staging[u])
    && t.staging == s.staging - {u} && t.ledger == s.ledger
  }

  /**
   * A commit, guard by guard in the order of the source.  The receipt of a committed session is given again; every
   * refusal leaves the tables and the sessions as they were.
   */
  lemma CommitAnswers(s: State, p: Principal, u: Id, mat: Material, now: nat, limits: Limits, fault: Fault)
    ensures var out := Commit(s, p, u, mat, now, limits, fault);
            if u !in s.uploads then out == Outcome(s, Err(NotFound))
            else
              var up := s.uploads[u];
              if up.createdBy != p.sub then out == Outcome(s, Err(NotOwner))
              else if up.status == Committed && up.result != None then
                out.after == s && out.reply == ReceiptAgain(s, up.result.value)
              else if up.status != Pending then out == Outcome(s, Err(UploadState))
              else if Executable(mat.mime) && !limits.allowExecutables then out == Outcome(s, Err(TypeRejected))
              else if OtherDigest(up, mat.sha) then out == Outcome(s, Err(Conflict))
              else if BelowHighWater(s, up) then out == Outcome(s.(next := s.next + 1), Err(StaleFencing))
              else if up.artifact !in s.ix.artifacts || OperationRow(s, up) then
                out.reply == Err(Constraint)
                  && out.after == s.(next := s.next + 1, journal := s.journal + [Aborted(s.next)])
              else if CannotPlace(s, u, mat.sha, fault) || fault == AtAudit then
                out.reply == Err(IoFailure) && out.after.ix == s.ix && out.after.uploads == s.uploads
              else out.reply.Ok? && Commits(s, out.after, u, mat, now, out.reply.value)
  {
    hide Clashes, MaxSeq, CommitTxn, Commits, OperationRow;
    if u in s.uploads {
      TxnAnswers(s, u, mat, now, fault);
    }
  }

  function ReceiptAgain(s: State, v: Id): Result<Receipt, DriveError> {
    if v !in s.ix.versions then Err(Internal)
    else
      var row := s.ix.versions[v];
      Ok(Receipt(row.artifact, v, row.seqNo, row.sha, row.mime, row.size))
  }

  /** A new row's number is fresh in its chain, so only its operation can be taken. */
  lemma ClashMeans(s: State, up: Upload, mat: Material, now: nat)
    ensures Clashes(s.ix.versions, NewRow(s.ix, up, mat, now)) <==> OperationRow(s, up)
  {
  }

  lemma RowMeans(s: State, up: Upload, mat: Material, now: nat)
    ensures Inserts(s, up, mat, now, NewRow(s.ix, up, mat, now))
  {
  }

  lemma TxnAnswers(s: State, u: Id, mat: Material, now: nat, fault: Fault)
    requires u in s.uploads
    ensures var out, up := CommitTxn(s, u, mat, now, fault), s.uploads[u];
            if BelowHighWater(s, up) then out == Outcome(s.(next := s.next + 1), Err(StaleFencing))
            else if up.artifact !in s.ix.artifacts || OperationRow(s, up) then
              out.reply == Err(Constraint)
                && out.after == s.(next := s.next + 1, journal := s.journal + [Aborted(s.next)])
            else if CannotPlace(s, u, mat.sha, fault) || fault == AtAudit then
              out.reply == Err(IoFailure) && out.after.ix == s.ix && out.after.uploads == s.uploads
            else out.reply.Ok? && Commits(s, out.after, u, mat, now, out.reply.value)
  {
    ClashMeans(s, s.uploads[u], mat, now);
    assert Stale(s.ix.fences, s.uploads[u].ticket, s.uploads[u].fence) <==> BelowHighWater(s, s.uploads[u]);
    hide Clashes, OperationRow, Settle, MaxSeq, Commits, Stale, BelowHighWater, CannotPlace;
    var up, row := s.uploads[u], NewRow(s.ix, s.uploads[u], mat, now);
    if !BelowHighWater(s, up) && up.artifact in s.ix.artifacts && !OperationRow(s, up) {
      RowMeans(s, up, mat, now);
      hide NewRow, Inserts;
      SettleAnswers(s,
                    s.(next := s.next + 1, journal := s.journal + [VersionCommitted(s.next, row.Journaled(), up.name)]),
                      u,
                    mat, now, row, fault);
    }
  }

  lemma SettleAnswers(s: State, lined: State, u: Id, mat: Material, now: nat, row: VersionRow, fault: Fault)
    requires u in s.uploads && Inserts(s, s.uploads[u], mat, now, row) && s.uploads[u].artifact in s.ix.artifacts
    requires lined == s.(next := s.next + 1, journal := lined.journal)
    ensures var out := Settle(lined, u, s.next, row, now, fault);
            if CannotPlace(s, u, mat.sha, fault) || fault == AtAudit then
              out.reply == Err(IoFailure) && out.after.ix == s.ix && out.after.uploads == s.uploads
            else out.reply.Ok? && Commits(s, out.after, u, mat, now, out.reply.value)
  {
    hide AddRef, RaiseFence;
    assert (s.staging - {u}) - {u} == s.staging - {u};
  }

  // ----- abort, expiry, sweep ------------------------------------------------------------------------------------

  /** The day's account less what the session had staged, not below zero; no other account moves. */
  ghost predicate Releases(s: State, t: State, k: Account, staged: nat) {
    && (forall j :: j in t.ledger <==> j in s.ledger)
    && (forall j | j in s.ledger ::
          t.ledger[j] == if j != k then s.ledger[j] else if s.ledger[j] <= staged then 0 else s.ledger[j] - staged)
  }

  lemma AbortAnswers(s: State, p: Principal, u: Id, now: nat, today: nat)
    ensures var out := Abort(s, p, u, now, today);
            if u !in s.uploads then out == Outcome(s, Err(NotFound))
            else if s.uploads[u].createdBy != p.sub then out == Outcome(s, Err(NotOwner))
            else if s.uploads[u].status == Committed then out == Outcome(s, Ok(()))
            else
              && out.reply == Ok(())
              && out.after == s.(uploads := out.after.uploads, ledger := out.after.ledger, staging := s.staging - {u})
              && out.after.uploads == s.uploads[u := s.uploads[u].(status := Discarded, lastActivity := now)]
              && Releases(s, out.after, Account(p.sub, today), s.uploads[u].staged)
  {
  }

  /** A session is expired exactly when it is pending and was not touched for longer than the limit. */
  lemma ExpireAnswers(s: State, u: Id, now: nat, today: nat, limits: Limits)
    ensures var t := Step(s, DoExpire(u, now, today), limits);
            if u in s.uploads && s.uploads[u].status == Pending
              && now > s.uploads[u].lastActivity + limits.uploadTtl then
              && t == s.(uploads := s.uploads[u := s.uploads[u].(status := Expired)], ledger := t.ledger)
              && Releases(s, t, Account(s.uploads[u].createdBy, today), s.uploads[u].staged)
            else t == s
  {
  }

  /** A touch renews the session's time: the sweeper lets it live for another limit. */
  lemma TouchRenews(s: State, u: Id, staged: nat, now: nat, later: nat, today: nat, limits: Limits)
    ensures var t := Step(s, DoTouch(u, staged, now), limits);
            && t == s.(uploads := t.uploads) && t.uploads.Keys == s.uploads.Keys
            && (forall w | w in s.uploads ::
                  t.uploads[w] == if w == u then s.uploads[w].(lastActivity := now, staged := staged) else s.uploads[w])
            && (later <= now + limits.uploadTtl ==> Step(t, DoExpire(u, later, today), limits) == t)
  {
  }

  ghost predicate ExpiredAmong(s: State, t: State, order: seq<Id>) {
    && t == s.(uploads := t.uploads, ledger := t.ledger) && t.uploads.Keys == s.uploads.Keys
    && forall u | u in s.uploads :: t.uploads[u] == if u in order then s.uploads[u].(status := Expired)
      else s.uploads[u]
  }

  lemma ExpiredOneMore(s: State, before: State, order: seq<Id>, today: nat)
    requires order != [] && ExpiredAmong(s, before, Front(order)) && Last(order) in before.uploads
    ensures ExpiredAmong(s, Expire(before, Last(order), today), order)
  {
    hide Release;
    assert order == Front(order) + [Last(order)];
    forall u | u in s.uploads
      ensures u in order <==> u in Front(order) || u == Last(order)
    {
    }
  }

  /** A sweep expires exactly the sessions it lists. */
  lemma {:induction false} SweepAnswers(s: State, order: seq<Id>, today: nat)
    requires forall u | u in order :: u in s.uploads
    ensures ExpiredAmong(s, ExpireEach(s, order, today), order)
  {
    if order != [] {
      hide Expire, ExpiredAmong;
      var before := ExpireEach(s, Front(order), today);
      assert forall u | u in Front(order) :: u in order;
      SweepAnswers(s, Front(order), today);
      SweptKeys(s, before, Front(order));
      assert Last(order) in order;
      ExpiredOneMore(s, before, order, today);
    }
  }

  lemma SweptKeys(s: State, t: State, order: seq<Id>)
    requires ExpiredAmong(s, t, order)
    ensures forall u | u in s.uploads :: u in t.uploads
  {
    assert forall u | u in s.uploads :: u in t.uploads.Keys;
  }

  lemma OverdueMeans(s: State, now: nat, limits: Limits, order: seq<Id>)
    requires Lists(order, OverdueUploads(s.uploads, now, limits.uploadTtl))
    ensures forall u :: u in order <==>
              u in s.uploads && s.uploads[u].status == Pending && now > s.uploads[u].lastActivity + limits.uploadTtl
  {
    assert forall u :: u in order <==> u in Elements(order);
  }

  lemma DeadMeans(s: State)
    ensures forall u :: u in DeadUploads(s.uploads) <==>
              u in s.uploads && (s.uploads[u].status == Discarded || s.uploads[u].status == Expired)
  {
  }

  // ----- operator operations -------------------------------------------------------------------------------------

  /** The subject's row already carries the marker operation of the id that is minted next. */
  ghost predicate MarkerTaken(s: State, sub: Sub) {
    exists w | w in s.ix.versions :: s.ix.versions[w].createdBy == sub && s.ix.versions[w].op == MarkerOp(s.next)
  }

  /** What a delete marker leaves: a row without bytes at the head of the chain, no pointer, and its line. */
  ghost predicate MarksDeleted(s: State, t: State, a: Id, sub: Sub, now: nat)
    requires a in s.ix.artifacts
  {
    && t == s.(ix := t.ix, journal := s.journal + [DeleteMarker(s.next, a)], next := s.next + 1)
    && s.next in t.ix.versions
    && t.ix == s.ix.(artifacts := s.ix.artifacts[a := s.ix.artifacts[a].(current := None)],
                     versions := s.ix.versions[s.next := t.ix.versions[s.next]])
    && var row := t.ix.versions[s.next];
       && row.artifact == a && row.sha == None && row.size == 0 && row.createdBy == sub && row.createdAt == now
       && row.ticket == s.ix.artifacts[a].ticket && row.mime == "application/x-delete-marker" && row.name == ""
       && row.fence == None && row.note == None && row.hint == None && row.op == MarkerOp(s.next)
       && (forall w | w in s.ix.versions && s.ix.versions[w].artifact == a :: s.ix.versions[w].seqNo < row.seqNo)
       && (row.seqNo == 1 ||
           exists w | w in s.ix.versions :: s.ix.versions[w].artifact == a && s.ix.versions[w].seqNo + 1 == row.seqNo)
  }

  lemma DeleteAnswers(s: State, p: Principal, a: Id, now: nat)
    ensures var out := Delete(s, p, a, now);
            if a !in s.ix.artifacts then out == Outcome(s, Err(NotFound))
            else if MarkerTaken(s, p.sub) then out == Outcome(s.(next := s.next + 1), Err(Constraint))
            else out.reply == Ok(s.next) && MarksDeleted(s, out.after, a, p.sub, now)
  {
    if a in s.ix.artifacts {
      var row := MarkerRow(s.ix, a, s.next, p.sub, now);
      assert Clashes(s.ix.versions, row) <==> MarkerTaken(s, p.sub);
      hide Clashes, MarkerTaken;
    }
  }

  /** A restore points an artifact at one of its own versions that holds bytes, and refuses anything else. */
  lemma RestoreAnswers(s: State, a: Id, v: Id)
    ensures var out := Restore(s, a, v);
            if a in s.ix.artifacts && v in s.ix.versions && s.ix.versions[v].artifact == a
              && s.ix.versions[v].sha != None then
              out == Outcome(s.(ix := s.ix.(artifacts := s.ix.artifacts[a := s.ix.artifacts[a].(current := Some(v))]),
                                journal := s.journal + [PointerMove(a, Some(v))]),
                             Ok(()))
            else out == Outcome(s, Err(NotFound))
  {
  }

  // ----- one replayed line ---------------------------------------------------------------------------------------

  /** The row is there, or another has its place in the chain or its operation. */
  ghost predicate Taken(ix: Index, v: Id, row: VersionRow) {
    || v in ix.versions
    || exists w | w in ix.versions ::
         || (ix.versions[w].artifact == row.artifact && ix.versions[w].seqNo == row.seqNo)
         || (ix.versions[w].createdBy == row.createdBy && ix.versions[w].op == row.op)
  }

  ghost predicate NameGone(ix: Index, ticket: Ticket, name: string) {
    exists a | a in ix.artifacts :: ix.artifacts[a].ticket == ticket && ix.artifacts[a].name == name
  }

  /** The pointer leads to a version at least as new; one that leads nowhere does not. */
  ghost predicate PointsPast(ix: Index, a: Id, seqNo: nat) {
    && a in ix.artifacts && ix.artifacts[a].current != None
    && ix.artifacts[a].current.value in ix.versions && ix.versions[ix.artifacts[a].current.value].seqNo >= seqNo
  }

  /** Rows, blobs and fences behind a replayed commit: INSERT OR IGNORE, and the larger high-water. */
  ghost predicate Replays(f: Index, g: Index, v: Id, row: VersionRow) {
    && g.versions == (if Taken(f, v, row) then f.versions else f.versions[v := row.(hint := None)])
    && g.blobs == (if row.sha == None || row.sha.value in f.blobs then f.blobs
                   else f.blobs[row.sha.value := BlobRow(row.size, 0, row.createdAt)])
    && g.fences == (match row.fence
                    case None => f.fences
                    case Some(n) =>
                      if row.ticket in f.fences && f.fences[row.ticket] >= n then f.fences
                        else f.fences[row.ticket := n])
  }

  /** Artifacts behind it: adopted under the line's name if absent, and pointed at the version unless past it. */
  ghost predicate Adopts(f: Index, g: Index, v: Id, row: VersionRow, name: string) {
    && (forall a | a in f.artifacts && a != row.artifact :: a in g.artifacts && g.artifacts[a] == f.artifacts[a])
    && (forall a | a in g.artifacts :: a in f.artifacts || a == row.artifact)
    && (row.artifact in f.artifacts ==>
          && row.artifact in g.artifacts
          && g.artifacts[row.artifact] ==
             if PointsPast(f.(versions := g.versions), row.artifact, row.seqNo) then f.artifacts[row.artifact]
             else f.artifacts[row.artifact].(current := Some(v)))
    && (row.artifact !in f.artifacts && !NameGone(f, row.ticket, name) ==>
          && row.artifact in g.artifacts
          && g.artifacts[row.artifact] == ArtifactRow(row.ticket, name, Some(v), row.createdBy, row.createdAt))
    && (row.artifact !in f.artifacts && NameGone(f, row.ticket, name) ==> row.artifact !in g.artifacts)
  }

  /**
   * What a replay makes of one line.  A commit fails only where its artifact is absent, its name is another's and its
   * row is not there either; a purge fails only where a row still names the blob; no other line fails.
   */
  lemma CommittedLineReplays(f: Index, v: Id, row: VersionRow, name: string)
    ensures var g := ApplyEvent(f, VersionCommitted(v, row, name));
            if row.artifact !in f.artifacts && NameGone(f, row.ticket, name) && !Taken(f, v, row) then g == None
            else g.Some? && Replays(f, g.value, v, row) && Adopts(f, g.value, v, row, name)
  {
    NameMeans(f, row.ticket, name);
    TakenMeans(f, v, row);
    hide NameGone, Taken, Clashes, NameTaken, Promote, Replays, Adopts;
    if !(row.artifact !in f.artifacts && NameGone(f, row.ticket, name) && !Taken(f, v, row)) {
      hide AdoptParents;
      RowsReplay(f, v, row, name);
    }
  }

  /** The tables before the pointer and the high-water move. */
  function Inserted(f: Index, v: Id, row: VersionRow, name: string): Index {
    var adopted := AdoptParents(f, row, name);
    if v in f.versions || Clashes(f.versions, row) then adopted
    else adopted.(versions := adopted.versions[v := row.Journaled()])
  }

  lemma InsertedMeans(f: Index, v: Id, row: VersionRow, name: string)
    ensures var h := Inserted(f, v, row, name);
            && h.versions == (if Taken(f, v, row) then f.versions else f.versions[v := row.(hint := None)])
            && h.blobs == (if row.sha == None || row.sha.value in f.blobs then f.blobs
                           else f.blobs[row.sha.value := BlobRow(row.size, 0, row.createdAt)])
            && h.fences == f.fences
            && h.artifacts == (if row.artifact in f.artifacts || NameGone(f, row.ticket, name) then f.artifacts
                               else f.artifacts[row.artifact :=
                                                ArtifactRow(row.ticket, name, None, row.createdBy, row.createdAt)])
  {
    NameMeans(f, row.ticket, name);
    TakenMeans(f, v, row);
    hide NameGone, Taken, Clashes, NameTaken;
  }

  lemma PromotedMeans(h: Index, v: Id, row: VersionRow)
    ensures var g := Promote(h, v, row);
            && g.versions == h.versions && g.blobs == h.blobs
            && g.fences == (match row.fence
                            case None => h.fences
                            case Some(n) =>
                              if row.ticket in h.fences && h.fences[row.ticket] >= n then h.fences
                              else h.fences[row.ticket := n])
            && g.artifacts == (if row.artifact in h.artifacts && !PointsPast(h, row.artifact, row.seqNo)
                               then h.artifacts[row.artifact := h.artifacts[row.artifact].(current := Some(v))]
                               else h.artifacts)
  {
  }

  lemma RowsReplay(f: Index, v: Id, row: VersionRow, name: string)
    ensures var g := Promote(Inserted(f, v, row, name), v, row); Replays(f, g, v, row) && Adopts(f, g, v, row, name)
  {
    InsertedMeans(f, v, row, name);
    var h := Inserted(f, v, row, name);
    PromotedMeans(h, v, row);
    hide Inserted, Promote, NameGone, Taken;
    AdoptedReplays(f, h, Promote(h, v, row), v, row, name);
  }

  lemma AdoptedReplays(f: Index, h: Index, g: Index, v: Id, row: VersionRow, name: string)
    requires h.artifacts == (if row.artifact in f.artifacts || NameGone(f, row.ticket, name) then f.artifacts
                             else f.artifacts[row.artifact :=
                                              ArtifactRow(row.ticket, name, None, row.createdBy, row.createdAt)])
    requires g.artifacts == (if row.artifact in h.artifacts && !PointsPast(h, row.artifact, row.seqNo)
                             then h.artifacts[row.artifact := h.artifacts[row.artifact].(current := Some(v))]
                             else h.artifacts)
    requires g.versions == h.versions
    ensures Adopts(f, g, v, row, name)
  {
    hide NameGone;
  }

  lemma NameMeans(f: Index, ticket: Ticket, name: string)
    ensures NameTaken(f.artifacts, ticket, name) <==> NameGone(f, ticket, name)
  {
  }

  lemma TakenMeans(f: Index, v: Id, row: VersionRow)
    ensures Taken(f, v, row) <==> v in f.versions || Clashes(f.versions, row)
  {
  }

  lemma OtherLineReplays(f: Index, e: Event)
    requires !e.VersionCommitted?
    ensures var g := ApplyEvent(f, e);
            match e
            case DeleteMarker(_, a) =>
              g ==
                Some(if a in f.artifacts then f.(artifacts := f.artifacts[a := f.artifacts[a].(current := None)])
                     else f)
            case PointerMove(a, to) =>
              g ==
                Some(if a in f.artifacts then f.(artifacts := f.artifacts[a := f.artifacts[a].(current := to)]) else f)
            case GcPurge(x) =>
              if x in f.blobs && exists v | v in f.versions :: f.versions[v].sha == Some(x) then g == None
              else g == Some(f.(blobs := f.blobs - {x}))
            case Aborted(v) => g == Some(f.(versions := f.versions - {v}))
            case _ => g == Some(f)
  {
    if e.GcPurge? {
      RefCountZero(f.versions, e.sha);
    }
  }
}
