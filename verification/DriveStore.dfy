/**
 * The Drive store as the object it is: tables, journal, disk and staging area updated in place by
 * the service operations, each proved to make exactly the step of the state machine it stands for.
 */
module DriveStore {
  import opened Prelude
  import opened DriveIndex
  import opened DriveMachine
  import opened DriveJournal
  import opened DriveLive
  import opened DriveAnswers

  /** The journal files read in order, concatenated; None when one of them is corrupt. */
  function AllLines(files: seq<string>, parse: string -> Option<Event>): Option<seq<Event>> {
    if files == [] then Some([])
    else
      match AllLines(Front(files), parse)
      case None => None
      case Some(lines) =>
        match ReadText(Last(files), parse)
        case Corrupt(_) => None
        case Lines(more, _) => Some(lines + more)
  }

  lemma AllLinesPrefix(files: seq<string>, i: nat, parse: string -> Option<Event>)
    requires i < |files|
    ensures AllLines(files[..i + 1], parse) ==
            match AllLines(files[..i], parse)
            case None => None
            case Some(lines) =>
              (match ReadText(files[i], parse)
               case Corrupt(_) => None
               case Lines(more, _) => Some(lines + more))
    ensures AllLines(files[..i], parse).None? ==> AllLines(files, parse).None?
    decreases |files| - i
  {
    assert Front(files[..i + 1]) == files[..i];
    if i + 1 < |files| {
      AllLinesPrefix(files, i + 1, parse);
    } else {
      assert files[..i + 1] == files;
    }
  }

  /** Disk and staging area after the rename was attempted. */
  datatype Placement = Placement(disk: map<Sha, Bytes>, staging: map<Id, Bytes>, ok: bool)

  function Placed(disk: map<Sha, Bytes>, staging: map<Id, Bytes>, u: Id, sha: Sha, fault: Fault): Placement {
    if sha in disk then Placement(disk, staging, true)
    else if u !in staging || fault.AtRename? then Placement(disk, staging, false)
    else Placement(disk[sha := staging[u]], staging - {u}, true)
  }

  lemma SettleCases(lined: State, u: Id, v: Id, row: VersionRow, now: nat, fault: Fault)
    requires u in lined.uploads && row.sha.Some?
    ensures var p := Placed(lined.disk, lined.staging, u, row.sha.value, fault);
            var moved := lined.(disk := p.disk, staging := p.staging);
            Settle(lined, u, v, row, now, fault) ==
            if !p.ok || fault.AtAudit? then Outcome(moved.(journal := lined.journal + [Aborted(v)]), Err(IoFailure))
            else Outcome(moved.(ix := CommitIndex(lined.ix, v, row),
                                uploads := lined.uploads[
                                  u := lined.uploads[u].(status := Committed, result := Some(v), lastActivity := now)],
                                staging := p.staging - {u}),
                         Ok(ReceiptOf(v, row)))
  {
    hide CommitIndex, ReceiptOf;
  }

  /** The blob tables differ in refcounts only. */
  ghost predicate SameFiles(a: map<Sha, BlobRow>, b: map<Sha, BlobRow>) {
    a.Keys == b.Keys && forall x | x in a :: b[x].size == a[x].size && b[x].createdAt == a[x].createdAt
  }

  /** `ix` is `was` without the chains in `gone`, its refcounts exact. */
  ghost predicate ChainsGone(was: Index, ix: Index, gone: set<Id>) {
    && RefsCounted(ix) && SameFiles(was.blobs, ix.blobs) && ix.fences == was.fences
    && ix.artifacts == was.artifacts - gone && ix.versions == Surviving(was.versions, gone)
  }

  /** The chains a collection is after: artifacts with rows whose pointer is NULL. */
  lemma MarkedMeans(ix: Index)
    ensures MarkedChains(ix) ==
            set a | a in ix.artifacts && ix.artifacts[a].current == None
                    && exists v | v in ix.versions :: ix.versions[v].artifact == a
  {
  }

  lemma SurvivingOne(versions: map<Id, VersionRow>, a: Id)
    ensures Surviving(versions, {a}) == versions - set v | v in versions && versions[v].artifact == a
  {
  }

  lemma NoChainGone(ix: Index)
    requires RefsCounted(ix)
    ensures ChainsGone(ix, ix, {})
  {
    assert ix.artifacts - {} == ix.artifacts;
    assert Surviving(ix.versions, {}) == ix.versions;
  }

  lemma ChainsGoneCounted(was: Index, ix: Index, gone: set<Id>)
    requires ChainsGone(was, ix, gone)
    ensures RefsCounted(ix)
  {
  }

  lemma OneMoreChainGone(was: Index, mid: Index, ix: Index, gone: set<Id>, a: Id)
    requires ChainsGone(was, mid, gone) && ChainsGone(mid, ix, {a})
    ensures ChainsGone(was, ix, gone + {a})
  {
    hide RefsCounted;
    assert was.artifacts - gone - {a} == was.artifacts - (gone + {a});
    assert Surviving(Surviving(was.versions, gone), {a}) == Surviving(was.versions, gone + {a});
  }

  /** Exact refcounts over the surviving rows are what a recount would write. */
  lemma GoneIsRecounted(was: Index, ix: Index, gone: set<Id>)
    requires ChainsGone(was, ix, gone)
    ensures ix == PurgeChains(was, gone)
  {
    hide Surviving, RefCount;
    assert ix.blobs == PurgeChains(was, gone).blobs;
  }

  class Store {
    var artifacts: map<Id, ArtifactRow>
    var versions: map<Id, VersionRow>
    var blobs: map<Sha, BlobRow>
    var fences: map<Ticket, nat>
    var uploads: map<Id, Upload>
    var ledger: map<Account, nat>
    var journal: seq<Event>
    var disk: map<Sha, Bytes>
    var staging: map<Id, Bytes>
    var next: Id
    const limits: Limits

    ghost function Tables(): Index
      reads this
    {
      Index(artifacts, versions, blobs, fences)
    }

    ghost function Now(): State
      reads this
    {
      State(Tables(), uploads, ledger, journal, disk, staging, next)
    }

    constructor (limits: Limits)
      ensures Now() == INIT && this.limits == limits
    {
      this.limits := limits;
      artifacts, versions, blobs, fences := map[], map[], map[], map[];
      uploads, ledger, journal, disk, staging, next := map[], map[], [], map[], map[], 0;
    }

    // ----- registration ---------------------------------------------------------------------------------

    method FindArtifact(ticket: Ticket, name: string) returns (found: Option<Id>)
      ensures match found
              case Some(a) => NamesArtifact(artifacts, a, ticket, name)
              case None => !NameTaken(artifacts, ticket, name)
    {
      if a :| a in artifacts && artifacts[a].ticket == ticket && artifacts[a].name == name {
        return Some(a);
      }
      return None;
    }

    method FindSession(sub: Sub, op: string) returns (session: Option<Id>)
      ensures match session
              case Some(u) => SessionOf(uploads, u, sub, op)
              case None => !HasSession(uploads, sub, op)
    {
      if u :| u in uploads && uploads[u].createdBy == sub && uploads[u].op == op {
        return Some(u);
      }
      return None;
    }

    method Register(p: Principal, intent: Intent, now: nat)
      returns (r: Result<Registration, DriveError>, ghost found: Option<Id>, ghost session: Option<Id>)
      modifies this
      ensures Looked(old(Now()), p, intent, found, session)
      ensures Outcome(Now(), r) == DriveMachine.Register(old(Now()), p, intent, found, session, now, limits)
    {
      var a := FindArtifact(intent.ticket, intent.name);
      var u := FindSession(p.sub, intent.op);
      found, session := a, u;
      if !WellFormed(intent) {
        return Err(MalformedId), found, session;
      }
      var fence := NormalizeFence(p.kind, intent.echo);
      if fence.Err? {
        return Err(fence.error), found, session;
      }
      if u.Some? {
        return Ok(Registration(uploads[u.value].artifact, u.value)), found, session;
      }
      if |PendingOf(uploads, p.sub)| >= limits.maxPending {
        return Err(QuotaExhausted), found, session;
      }
      var aid;
      if a.Some? {
        aid := a.value;
      } else {
        aid := next;
        next := next + 1;
        artifacts := artifacts[aid := ArtifactRow(intent.ticket, intent.name, None, p.sub, now)];
      }
      var uid := next;
      next := next + 1;
      uploads := uploads[uid := NewUpload(p, intent, fence.value, aid, now)];
      return Ok(Registration(aid, uid)), found, session;
    }

    // ----- quota ledger -----------------------------------------------------------------------------------

    method ChargeQuota(k: Account, delta: nat) returns (ok: bool)
      modifies this`ledger
      ensures ok <==> Balance(old(ledger), k) + delta <= limits.dailyQuota
      ensures ledger == if ok then old(ledger)[k := Balance(old(ledger), k) + delta] else old(ledger)
      ensures ok <==> (if k in old(ledger) then old(ledger)[k] else 0) + delta <= limits.dailyQuota
      ensures ok ==> ledger[k] == (if k in old(ledger) then old(ledger)[k] else 0) + delta
    {
      var cur := if k in ledger then ledger[k] else 0;
      if cur + delta > limits.dailyQuota {
        return false;
      }
      ledger := ledger[k := cur + delta];
      return true;
    }

    method ReleaseQuota(k: Account, delta: nat)
      modifies this`ledger
      ensures ledger == Release(old(ledger), k, delta)
    {
      if delta > 0 && k in ledger {
        ledger := ledger[k := Max(0, ledger[k] - delta)];
      }
    }

    method TouchUpload(u: Id, staged: nat, now: nat)
      modifies this`uploads
      ensures uploads == Touch(old(uploads), u, staged, now)
      ensures u in old(uploads) ==>
              uploads == old(uploads)[u := old(uploads)[u].(lastActivity := now, staged := staged)]
    {
      if u in uploads {
        uploads := uploads[u := uploads[u].(lastActivity := now, staged := staged)];
      }
    }

    // ----- commit -------------------------------------------------------------------------------------------

    /** Accepts a token at or above the high-water and raises it; refuses a stale one untouched. */
    method EnforceFencing(ticket: Ticket, token: Option<nat>) returns (ok: bool)
      modifies this`fences
      ensures ok <==> !Stale(old(fences), ticket, token)
      ensures fences == if ok then RaiseFence(old(fences), ticket, token) else old(fences)
    {
      if token.None? {
        return true;
      }
      var highWater: int := if ticket in fences then fences[ticket] else -1;
      if token.value < highWater {
        return false;
      }
      if token.value > highWater {
        fences := fences[ticket := token.value];
      }
      return true;
    }

    /** Moves the staged file to its address unless that is occupied; false when the rename throws. */
    method PlaceFile(u: Id, sha: Sha, fault: Fault) returns (ok: bool)
      modifies this`disk, this`staging
      ensures Placement(disk, staging, ok) == Placed(old(disk), old(staging), u, sha, fault)
    {
      if sha in disk {
        return true;
      }
      if u !in staging || fault.AtRename? {
        return false;
      }
      disk := disk[sha := staging[u]];
      staging := staging - {u};
      return true;
    }

    method Commit(p: Principal, u: Id, mat: Material, now: nat, fault: Fault) returns (r: Result<Receipt, DriveError>)
      modifies this
      ensures Outcome(Now(), r) == DriveMachine.Commit(old(Now()), p, u, mat, now, limits, fault)
    {
      if u !in uploads {
        return Err(NotFound);
      }
      var up := uploads[u];
      if up.createdBy != p.sub {
        return Err(NotOwner);
      }
      if up.status.Committed? && up.result.Some? {
        if up.result.value !in versions {
          return Err(Internal);
        }
        return Ok(ReceiptOf(up.result.value, versions[up.result.value]));
      }
      if !up.status.Pending? {
        return Err(UploadState);
      }
      if IsExecutable(mat.mime) && !limits.allowExecutables {
        return Err(TypeRejected);
      }
      if HashRefused(up.expected, mat.sha) {
        return Err(Conflict);
      }
      r := CommitPending(u, mat, now, fault);
    }

    /** Steps (c) to (e): the blob reference, the append-only row, the pointer. */
    method InsertVersion(v: Id, row: VersionRow)
      requires row.sha.Some? && row.artifact in artifacts
      modifies this`artifacts, this`versions, this`blobs
      ensures blobs == AddRef(old(blobs), row.sha.value, row.size, row.createdAt)
      ensures versions == old(versions)[v := row]
      ensures artifacts == old(artifacts)[row.artifact := old(artifacts)[row.artifact].(current := Some(v))]
    {
      var sha := row.sha.value;
      if sha in blobs {
        blobs := blobs[sha := blobs[sha].(refcount := blobs[sha].refcount + 1)];
      } else {
        blobs := blobs[sha := BlobRow(row.size, 1, row.createdAt)];
      }
      versions := versions[v := row];
      artifacts := artifacts[row.artifact := artifacts[row.artifact].(current := Some(v))];
    }

    /** The transaction body, rolling the tables back by hand where the source's throw does. */
    method CommitPending(u: Id, mat: Material, now: nat, fault: Fault) returns (r: Result<Receipt, DriveError>)
      requires u in uploads
      modifies this
      ensures Outcome(Now(), r) == CommitTxn(old(Now()), u, mat, now, fault)
    {
      hide Clashes, RaiseFence, Settle;
      var up := uploads[u];
      var v := next;
      next := next + 1;
      var savedFences := fences;

      var row :=
        VersionRow(up.artifact, MaxSeq(versions, up.artifact) + 1, Some(mat.sha), up.ticket, up.note, up.createdBy,
                            up.fence, ClientOp(up.op), mat.mime, up.hint, mat.size, mat.originalName, now);
      assert row == NewRow(old(Tables()), up, mat, now);
      var fenced := EnforceFencing(up.ticket, up.fence);
      if !fenced {
        r := Err(StaleFencing);
      } else if Clashes(versions, row) || row.artifact !in artifacts {
        fences := savedFences;
        journal := journal + [Aborted(v)];
        r := Err(Constraint);
      } else {
        r := CommitRow(u, v, row, now, fault, savedFences);
      }
    }

    /** Steps (c) to (f) once the fence has been raised over `savedFences`. */
    method CommitRow(u: Id, v: Id, row: VersionRow, now: nat, fault: Fault, savedFences: map<Ticket, nat>)
      returns (r: Result<Receipt, DriveError>)
      requires u in uploads && row.sha.Some? && row.artifact in artifacts
      requires fences == RaiseFence(savedFences, row.ticket, row.fence)
      modifies this
      ensures Outcome(Now(), r) ==
              Settle(old(Now()).(ix := old(Tables()).(fences := savedFences),
                                 journal :=
                                   old(journal) + [VersionCommitted(v, row.Journaled(), old(uploads)[u].name)]),
                     u, v, row, now, fault)
    {
      hide RaiseFence, AddRef, Settle;
      var savedArtifacts, savedVersions, savedBlobs, savedUploads := artifacts, versions, blobs, uploads;
      InsertVersion(v, row);
      assert Tables() == CommitIndex(Index(savedArtifacts, savedVersions, savedBlobs, savedFences), v, row);
      hide CommitIndex;
      uploads := uploads[u := uploads[u].(status := Committed, result := Some(v), lastActivity := now)];
      journal := journal + [VersionCommitted(v, row.Journaled(), savedUploads[u].name)];
      r := SettleCommit(u, v, row, now, fault, savedArtifacts, savedVersions, savedBlobs, savedFences, savedUploads);
    }

    /** Materialises the committed bytes; the saved tables are what a throw from here on rolls back to. */
    method SettleCommit(
        u: Id, v: Id, row: VersionRow, now: nat, fault: Fault, savedArtifacts: map<Id, ArtifactRow>,
        savedVersions: map<Id, VersionRow>, savedBlobs: map<Sha, BlobRow>, savedFences: map<Ticket, nat>,
          savedUploads: map<Id, Upload>)
      returns (r: Result<Receipt, DriveError>)
      requires u in savedUploads && row.sha.Some?
      requires Tables() == CommitIndex(Index(savedArtifacts, savedVersions, savedBlobs, savedFences), v, row)
      requires uploads ==
               savedUploads[u := savedUploads[u].(status := Committed, result := Some(v), lastActivity := now)]
      modifies this
      ensures Outcome(Now(), r) ==
              Settle(old(Now()).(ix := Index(savedArtifacts, savedVersions, savedBlobs, savedFences),
                                 uploads := savedUploads),
                     u, v, row, now, fault)
    {
      hide CommitIndex, Settle, ReceiptOf, Placed;
      ghost var lined :=
        Now().(ix := Index(savedArtifacts, savedVersions, savedBlobs, savedFences), uploads := savedUploads);
      SettleCases(lined, u, v, row, now, fault);
      var placed := PlaceFile(u, row.sha.value, fault);
      if !placed || fault.AtAudit? {
        RollBack(v, savedArtifacts, savedVersions, savedBlobs, savedFences, savedUploads);
        r := Err(IoFailure);
      } else {
        staging := staging - {u};
        r := Ok(ReceiptOf(v, row));
      }
    }

    /** The transaction's rollback and its compensation line. */
    method RollBack(v: Id, savedArtifacts: map<Id, ArtifactRow>, savedVersions: map<Id, VersionRow>,
                    savedBlobs: map<Sha, BlobRow>,
                    savedFences: map<Ticket, nat>, savedUploads: map<Id, Upload>)
      modifies this`artifacts, this`versions, this`blobs, this`fences, this`uploads, this`journal
      ensures Now() ==
              old(Now()).(ix := Index(savedArtifacts, savedVersions, savedBlobs, savedFences), uploads := savedUploads,
                                   journal := old(journal) + [Aborted(v)])
    {
      artifacts, versions, blobs, fences, uploads :=
        savedArtifacts, savedVersions, savedBlobs, savedFences, savedUploads;
      journal := journal + [Aborted(v)];
    }

    // ----- abort ----------------------------------------------------------------------------------------------

    method AbortUpload(p: Principal, u: Id, now: nat, today: nat) returns (r: Result<(), DriveError>)
      modifies this
      ensures Outcome(Now(), r) == Abort(old(Now()), p, u, now, today)
    {
      if u !in uploads {
        return Err(NotFound);
      }
      if uploads[u].createdBy != p.sub {
        return Err(NotOwner);
      }
      if uploads[u].status.Committed? {
        return Ok(());
      }
      uploads := uploads[u := uploads[u].(status := Discarded, lastActivity := now)];
      ReleaseQuota(Account(p.sub, today), uploads[u].staged);
      staging := staging - {u};
      return Ok(());
    }

    // ----- operator pointer operations ---------------------------------------------------------------------------

    method DeleteMarker(p: Principal, a: Id, now: nat) returns (r: Result<Id, DriveError>)
      modifies this
      ensures Outcome(Now(), r) == Delete(old(Now()), p, a, now)
    {
      if a !in artifacts {
        return Err(NotFound);
      }
      var v := next;
      next := next + 1;
      var seqNo := MaxSeq(versions, a) + 1;
      var row := VersionRow(a, seqNo, None, artifacts[a].ticket, None, p.sub, None, MarkerOp(v),
                            "application/x-delete-marker", None, 0, "", now);
      assert row == MarkerRow(Tables(), a, v, p.sub, now);
      hide Clashes, MarkerRow, MaxSeq;
      if Clashes(versions, row) {
        return Err(Constraint);
      }
      versions := versions[v := row];
      artifacts := artifacts[a := artifacts[a].(current := None)];
      journal := journal + [Event.DeleteMarker(v, a)];
      return Ok(v);
    }

    method Restore(a: Id, v: Id) returns (r: Result<(), DriveError>)
      modifies this
      ensures Outcome(Now(), r) == DriveMachine.Restore(old(Now()), a, v)
    {
      if a !in artifacts || v !in versions || versions[v].artifact != a || versions[v].IsMarker() {
        return Err(NotFound);
      }
      artifacts := artifacts[a := artifacts[a].(current := Some(v))];
      journal := journal + [PointerMove(a, Some(v))];
      return Ok(());
    }

    // ----- phase-1 sweep -------------------------------------------------------------------------------------------

    method Phase1Sweep(now: nat, today: nat) returns (swept: nat, expired: nat, ghost order: seq<Id>)
      modifies this
      ensures Lists(order, OverdueUploads(old(uploads), now, limits.uploadTtl)) && expired == |order|
      ensures var after := ExpireEach(old(Now()), order, today);
              Now() == after.(staging := after.staging - DeadUploads(after.uploads))
      ensures swept == |old(staging).Keys * DeadUploads(uploads)|
      ensures uploads.Keys == old(uploads).Keys
      ensures forall u | u in old(uploads) ::
                var up := old(uploads)[u];
                uploads[u] == if up.status == Pending
                  && now > up.lastActivity + limits.uploadTtl then up.(status := Expired)
                              else up
      ensures forall u :: u in staging <==>
                u in old(staging) && !(u in uploads && (uploads[u].status == Discarded || uploads[u].status == Expired))
    {
      ghost var before := Now();
      ExpiryKeepsStagingAlways();
      expired, order := ExpireOverdue(now, today);
      ghost var after := Now();
      swept := SweepStaging();
      OverdueMeans(before, now, limits, order);
      DeadMeans(after);
      hide Lists, OverdueUploads, DeadUploads, ExpireEach;
      SweepAnswers(before, order, today);
    }

    method ExpireUpload(u: Id, today: nat)
      requires u in uploads
      modifies this`uploads, this`ledger
      ensures Now() == Expire(old(Now()), u, today)
    {
      var up := uploads[u];
      uploads := uploads[u := up.(status := Expired)];
      ReleaseQuota(Account(up.createdBy, today), up.staged);
    }

    /** Expires every pending session that went inactive and releases what it had charged. */
    method ExpireOverdue(now: nat, today: nat) returns (expired: nat, ghost order: seq<Id>)
      modifies this`uploads, this`ledger
      ensures Lists(order, OverdueUploads(old(uploads), now, limits.uploadTtl)) && expired == |order|
      ensures Now() == ExpireEach(old(Now()), order, today)
    {
      hide Expire, ExpireEach, Lists, OverdueUploads, Sweeping;
      var todo := set u | u in uploads && uploads[u].status.Pending?;
      order, expired := [], 0;
      SweepStarts(Now(), now, limits.uploadTtl, today);
      while todo != {}
        invariant Sweeping(old(Now()), Now(), order, todo, now, limits.uploadTtl, today) && expired == |order|
        decreases |todo|
      {
        var u :| u in todo;
        SweepLooksAt(old(Now()), Now(), order, todo, now, limits.uploadTtl, today, u);
        if now > uploads[u].lastActivity + limits.uploadTtl {
          ExpireUpload(u, today);
          order := order + [u];
          expired := expired + 1;
        }
        todo := todo - {u};
      }
      SweepEnds(old(Now()), Now(), order, now, limits.uploadTtl, today);
    }

    /** Removes the staged files of discarded and expired sessions. */
    method SweepStaging() returns (swept: nat)
      modifies this`staging
      ensures staging == old(staging) - DeadUploads(uploads)
      ensures swept == |old(staging).Keys * DeadUploads(uploads)|
    {
      swept := 0;
      var files := staging.Keys;
      ghost var held, dead := staging, DeadUploads(uploads);
      while files != {}
        invariant files <= held.Keys
        invariant staging == held - (dead - files)
        invariant swept == |(held.Keys - files) * dead|
        decreases |files|
      {
        var f :| f in files;
        SweepOne(held, dead, files, f);
        files := files - {f};
        if f in uploads && (uploads[f].status.Discarded? || uploads[f].status.Expired?) {
          staging := staging - {f};
          swept := swept + 1;
        }
      }
      assert held.Keys - {} == held.Keys;
    }

    // ----- garbage collection ------------------------------------------------------------------------------------

    method GcPreview() returns (chains: nat, refless: nat, reclaimable: nat)
      ensures chains ==
              |set a | a in artifacts && artifacts[a].current == None
                && (exists v | v in versions :: versions[v].artifact == a)|
      ensures chains == |MarkedChains(Tables())|
      ensures refless == |set x | x in blobs && blobs[x].refcount == 0| == |Unreferenced(Tables())|
      ensures reclaimable == TotalBytes(map x | x in Unreferenced(Tables()) :: blobs[x])
    {
      MarkedMeans(Tables());
      chains := |set a | a in artifacts && artifacts[a].current.None? && HasVersion(versions, a)|;
      var rows := map x | x in blobs && blobs[x].refcount == 0 :: blobs[x];
      assert rows.Keys == Unreferenced(Tables());
      refless := |rows.Keys|;
      reclaimable := SumSizes(rows);
      assert rows == map x | x in Unreferenced(Tables()) :: blobs[x];
    }

    /** Drops one version row of a doomed chain and its blob reference, clamped at zero as the source does. */
    method DropVersion(v: Id)
      requires v in versions && RefsCounted(Tables())
      modifies this`versions, this`blobs
      ensures versions == old(versions) - {v}
      ensures RefsCounted(Tables()) && SameFiles(old(blobs), blobs)
      ensures forall x | x in blobs && old(versions)[v].sha == Some(x) ::
              blobs[x].refcount + 1 == old(blobs)[x].refcount
    {
      forall x | x in blobs
        ensures RefCount(versions, x) == RefCount(versions - {v}, x) + (if versions[v].sha == Some(x) then 1 else 0)
      {
        RefCountRemove(versions, v, x);
      }
      var sha := versions[v].sha;
      if sha.Some? && sha.value in blobs {
        blobs := blobs[sha.value := blobs[sha.value].(refcount := Max(0, blobs[sha.value].refcount - 1))];
      }
      versions := versions - {v};
    }

    /** One chain's transaction: every version row, then the artifact. */
    method PurgeChain(a: Id)
      requires RefsCounted(Tables())
      modifies this`versions, this`blobs, this`artifacts
      ensures ChainsGone(old(Tables()), Tables(), {a})
    {
      var chain := set v | v in versions && versions[v].artifact == a;
      ghost var doomed := chain;
      while chain != {}
        invariant chain <= doomed && versions == old(versions) - (doomed - chain) && artifacts == old(artifacts)
        invariant RefsCounted(Tables()) && SameFiles(old(blobs), blobs)
        decreases |chain|
      {
        var v :| v in chain;
        ghost var rest := chain - {v};
        assert old(versions) - (doomed - chain) - {v} == old(versions) - (doomed - rest);
        DropVersion(v);
        chain := chain - {v};
      }
      assert doomed - chain == doomed;
      SurvivingOne(old(versions), a);
      artifacts := artifacts - {a};
    }

    /**
     * The operator's purge.  `order` is the order in which the second query returned the blobs; the
     * refcounts must be exact, which every reachable state is proved to satisfy.
     */
    method GcPhase2(backupInProgress: bool) returns (purgedBlobs: nat, purgedChains: nat, reclaimed: nat,
                                                     ghost order: seq<Sha>)
      requires RefsCounted(Tables())
      modifies this
      ensures backupInProgress ==> purgedBlobs == purgedChains == reclaimed == 0 && Now() == old(Now())
      ensures !backupInProgress ==>
                && Lists(order, Unreferenced(PurgeChains(old(Tables()), MarkedChains(old(Tables())))))
                && Now() == Collect(old(Now()), order)
                && purgedChains == |MarkedChains(old(Tables()))|
                && purgedBlobs == |order|
                && TotalBytes(old(blobs)) == TotalBytes(blobs) + reclaimed
      ensures !backupInProgress ==>
              RowsExact(old(Now()), Now()) && BlobsExact(old(Now()), Now()) && DiskExact(old(Now()), Now())
      ensures !backupInProgress ==>
                purgedChains == |set a | a in old(artifacts) && old(artifacts)[a].current == None
                                         && (exists v | v in old(versions) :: old(versions)[v].artifact == a)|
    {
      order := [];
      if backupInProgress {
        return 0, 0, 0, [];
      }
      hide RowsExact, BlobsExact, DiskExact, Reclaimed, Lists, Unreferenced;
      ghost var before := Now();
      purgedChains := PurgeMarkedChains();
      purgedBlobs, reclaimed, order := PurgeBlobs();
      CollectConserves(before, order);
      CollectRemovesExactly(before, order);
      MarkedMeans(before.ix);
      ReclaimedSame(before.ix.blobs, PurgeChains(before.ix, MarkedChains(before.ix)).blobs, order);
    }

    method PurgeMarkedChains() returns (purged: nat)
      requires RefsCounted(Tables())
      modifies this`versions, this`blobs, this`artifacts
      ensures Tables() == PurgeChains(old(Tables()), MarkedChains(old(Tables())))
      ensures purged == |MarkedChains(old(Tables()))|
      ensures forall a | a in old(artifacts) ::
                a in artifacts <==> old(artifacts)[a].current != None
                                    || forall v | v in old(versions) :: old(versions)[v].artifact != a
    {
      var chains := set a | a in artifacts && artifacts[a].current.None? && HasVersion(versions, a);
      ghost var marked, gone := chains, {};
      hide ChainsGone, PurgeChains;
      NoChainGone(Tables());
      purged := 0;
      while chains != {}
        invariant marked == chains + gone && chains !! gone && purged == |gone|
        invariant ChainsGone(old(Tables()), Tables(), gone)
        decreases |chains|
      {
        var a :| a in chains;
        ghost var before := Tables();
        MoveOne(marked, chains, gone, a);
        ChainsGoneCounted(old(Tables()), before, gone);
        PurgeChain(a);
        OneMoreChainGone(old(Tables()), before, Tables(), gone, a);
        chains := chains - {a};
        gone := gone + {a};
        purged := purged + 1;
      }
      assert gone == marked;
      GoneIsRecounted(old(Tables()), Tables(), marked);
    }

    /** Relative to where the purge loop started, exactly `order` is gone from table and disk, and journaled. */
    ghost predicate PurgedSoFar(b: map<Sha, BlobRow>, d: map<Sha, Bytes>, j: seq<Event>, order: seq<Sha>,
                                gone: set<Sha>)
      reads this
    {
      Lists(order, gone) && blobs == b - gone && disk == d - gone && journal == j + PurgeLines(order)
    }

    /** One blob's purge: the row first, the journal line, then the file. */
    method PurgeBlob(
        x: Sha, ghost b: map<Sha, BlobRow>, ghost d: map<Sha, Bytes>, ghost j: seq<Event>, ghost order: seq<Sha>,
          ghost gone: set<Sha>)
      returns (size: nat)
      requires PurgedSoFar(b, d, j, order, gone) && x in b && x !in gone
      modifies this`blobs, this`journal, this`disk
      ensures PurgedSoFar(b, d, j, order + [x], gone + {x})
      ensures size == b[x].size
    {
      hide Lists, PurgeLines;
      PurgeOneMore(order, gone, x);
      DropOne(b, gone, x);
      DropOne(d, gone, x);
      AppendOne(j, PurgeLines(order), GcPurge(x));
      size := blobs[x].size;
      blobs := blobs - {x};
      journal := journal + [GcPurge(x)];
      disk := disk - {x};
    }

    method PurgeBlobs() returns (purged: nat, reclaimed: nat, ghost order: seq<Sha>)
      modifies this`blobs, this`journal, this`disk
      ensures Lists(order, Unreferenced(old(Tables()))) && purged == |order|
      ensures blobs == old(blobs) - Elements(order) && disk == old(disk) - Elements(order)
      ensures journal == old(journal) + PurgeLines(order)
      ensures reclaimed == Reclaimed(old(blobs), order)
    {
      var refless := set x | x in blobs && blobs[x].refcount == 0;
      assert refless == Unreferenced(Tables());
      purged, reclaimed, order := PurgeEach(refless);
    }

    /** The purge loop over the blobs the query returned. */
    method PurgeEach(refless: set<Sha>) returns (purged: nat, reclaimed: nat, ghost order: seq<Sha>)
      requires refless <= blobs.Keys
      modifies this`blobs, this`journal, this`disk
      ensures Lists(order, refless) && purged == |order|
      ensures blobs == old(blobs) - Elements(order) && disk == old(disk) - Elements(order)
      ensures journal == old(journal) + PurgeLines(order)
      ensures reclaimed == Reclaimed(old(blobs), order)
    {
      hide Lists, PurgeLines, Reclaimed, Elements, PurgedSoFar;
      ghost var gone: set<Sha> := {};
      var todo := refless;
      order, purged, reclaimed := [], 0, 0;
      PurgeNone(blobs);
      PurgeStarts();
      while todo != {}
        invariant refless == todo + gone && todo !! gone
        invariant PurgedSoFar(old(blobs), old(disk), old(journal), order, gone)
        invariant purged == |order| && reclaimed == Reclaimed(old(blobs), order)
        decreases |todo|
      {
        var x :| x in todo;
        MoveOne(refless, todo, gone, x);
        ReclaimOneMore(order, x, old(blobs));
        var size := PurgeBlob(x, old(blobs), old(disk), old(journal), order, gone);
        reclaimed := reclaimed + size;
        order := order + [x];
        gone := gone + {x};
        todo := todo - {x};
        purged := purged + 1;
      }
      assert gone == refless;
      PurgeEnds(old(blobs), old(disk), old(journal), order, gone);
    }

    lemma PurgeStarts()
      ensures PurgedSoFar(blobs, disk, journal, [], {})
    {
    }

    lemma PurgeEnds(b: map<Sha, BlobRow>, d: map<Sha, Bytes>, j: seq<Event>, order: seq<Sha>, gone: set<Sha>)
      requires PurgedSoFar(b, d, j, order, gone)
      ensures Lists(order, gone) && blobs == b - Elements(order) && disk == d - Elements(order)
              && journal == j + PurgeLines(order)
    {
    }

    // ----- rebuild -----------------------------------------------------------------------------------------------

    method AdoptRows(row: VersionRow, logicalName: string)
      modifies this`artifacts, this`blobs
      ensures Tables() == AdoptParents(old(Tables()), row, logicalName)
    {
      if row.artifact !in artifacts && !NameTaken(artifacts, row.ticket, logicalName) {
        artifacts :=
          artifacts[row.artifact := ArtifactRow(row.ticket, logicalName, None, row.createdBy, row.createdAt)];
      }
      if row.sha.Some? && row.sha.value !in blobs {
        blobs := blobs[row.sha.value := BlobRow(row.size, 0, row.createdAt)];
      }
    }

    /** The guarded pointer move and the raised high-water of a committed line. */
    method PromoteVersion(v: Id, row: VersionRow)
      modifies this`artifacts, this`fences
      ensures Tables() == Promote(old(Tables()), v, row)
    {
      var cur: int := -1;
      if row.artifact in artifacts && artifacts[row.artifact].current.Some?
        && artifacts[row.artifact].current.value in versions {
        cur := versions[artifacts[row.artifact].current.value].seqNo;
      }
      if row.seqNo > cur && row.artifact in artifacts {
        artifacts := artifacts[row.artifact := artifacts[row.artifact].(current := Some(v))];
      }
      if row.fence.Some? {
        fences :=
          fences[row.ticket := if row.ticket in fences then Max(fences[row.ticket], row.fence.value)
                 else row.fence.value];
      }
      assert fences == RaiseFence(old(fences), row.ticket, row.fence);
    }

    /** One journal line; false is a foreign-key error. */
    method ApplyVersionEvent(e: Event) returns (ok: bool)
      modifies this`artifacts, this`versions, this`blobs, this`fences
      ensures ok <==> ApplyEvent(old(Tables()), e).Some?
      ensures ok ==> Some(Tables()) == ApplyEvent(old(Tables()), e)
    {
      match e {
        case VersionCommitted(v, row, logicalName) =>
          AdoptRows(row, logicalName);
          if !(v in versions || Clashes(versions, row)) {
            if row.artifact !in artifacts {
              return false;
            }
            versions := versions[v := row.Journaled()];
          }
          PromoteVersion(v, row);
        case DeleteMarker(_, a) =>
          if a in artifacts {
            artifacts := artifacts[a := artifacts[a].(current := None)];
          }
        case PointerMove(a, to) =>
          if a in artifacts {
            artifacts := artifacts[a := artifacts[a].(current := to)];
          }
        case GcPurge(x) =>
          if x in blobs && RefCount(versions, x) > 0 {
            return false;
          }
          blobs := blobs - {x};
        case TicketStateChange(_) =>
        case Aborted(v) => versions := versions - {v};
      }
      return true;
    }

    /** The replay transaction over every journal file: all of it or, when it throws, none of it. */
    method RebuildIndex(files: seq<string>, parse: string -> Option<Event>) returns (r: Result<(nat, nat), DriveError>)
      modifies this`artifacts, this`versions, this`blobs, this`fences
      ensures r.Ok? <==> AllLines(files, parse).Some? && Rebuild(old(Tables()), AllLines(files, parse).value).Some?
      ensures r.Ok? ==> Some(Tables()) == Rebuild(old(Tables()), AllLines(files, parse).value)
      ensures r.Ok? ==> r.value.0 == |AllLines(files, parse).value| && r.value.1 == TornTails(files, parse)
      ensures r.Err? ==> Tables() == old(Tables())
    {
      var savedArtifacts, savedVersions, savedBlobs, savedFences := artifacts, versions, blobs, fences;
      var replayed, torn, i := 0, 0, 0;
      while i < |files|
        invariant 0 <= i <= |files|
        invariant AllLines(files[..i], parse).Some? && replayed == |AllLines(files[..i], parse).value|
        invariant torn == TornTails(files[..i], parse)
        invariant ReplayLines(old(Tables()), AllLines(files[..i], parse).value) == Some(Tables())
      {
        ghost var sofar := AllLines(files[..i], parse).value;
        AllLinesPrefix(files, i, parse);
        assert Front(files[..i + 1]) == files[..i];
        var read := ReadNdjson(Some(files[i]), parse);
        var ok := read.Lines?;
        if ok {
          ok := ApplyLines(read.lines, old(Tables()), sofar);
        }
        if !ok {
          RebuildFails(old(Tables()), files, i, parse);
          artifacts, versions, blobs, fences := savedArtifacts, savedVersions, savedBlobs, savedFences;
          return Err(Internal);
        }
        replayed := replayed + |read.lines|;
        torn := torn + (if read.torn then 1 else 0);
        i := i + 1;
      }
      assert files[..i] == files;
      blobs := map x | x in blobs :: blobs[x].(refcount := RefCount(versions, x));
      return Ok((replayed, torn));
    }

    /** The lines of one file, after `sofar` was already replayed from `start`. */
    method ApplyLines(lines: seq<Event>, ghost start: Index, ghost sofar: seq<Event>) returns (ok: bool)
      requires ReplayLines(start, sofar) == Some(Tables())
      modifies this`artifacts, this`versions, this`blobs, this`fences
      ensures ok ==> ReplayLines(start, sofar + lines) == Some(Tables())
      ensures !ok ==> ReplayLines(start, sofar + lines).None?
    {
      hide ApplyEvent;
      var i := 0;
      assert sofar + lines[..0] == sofar;
      while i < |lines|
        invariant 0 <= i <= |lines|
        invariant ReplayLines(start, sofar + lines[..i]) == Some(Tables())
      {
        ReplayAppend(start, sofar + lines[..i], lines[i]);
        assert sofar + lines[..i] + [lines[i]] == sofar + lines[..i + 1];
        ok := ApplyVersionEvent(lines[i]);
        if !ok {
          ReplayStuck(start, sofar + lines[..i + 1], lines[i + 1..]);
          assert sofar + lines[..i + 1] + lines[i + 1..] == sofar + lines;
          return false;
        }
        i := i + 1;
      }
      assert lines[..i] == lines;
      return true;
    }
  }

  lemma DropOne<K, V>(m: map<K, V>, gone: set<K>, x: K)
    ensures m - gone - {x} == m - (gone + {x})
  {
  }

  lemma MoveOne<T>(all: set<T>, todo: set<T>, done: set<T>, x: T)
    requires all == todo + done && todo !! done && x in todo
    ensures all == (todo - {x}) + (done + {x}) && (todo - {x}) !! (done + {x})
  {
  }

  lemma PurgeNone(blobs: map<Sha, BlobRow>)
    ensures Lists<Sha>([], {}) && PurgeLines([]) == [] && Reclaimed(blobs, []) == 0
  {
  }

  lemma AppendOne<T>(a: seq<T>, b: seq<T>, x: T)
    ensures a + b + [x] == a + (b + [x])
  {
  }

  lemma ReclaimOneMore(order: seq<Sha>, x: Sha, blobs: map<Sha, BlobRow>)
    requires x in blobs
    ensures Reclaimed(blobs, order + [x]) == Reclaimed(blobs, order) + blobs[x].size
  {
    assert Front(order + [x]) == order;
  }

  lemma PurgeOneMore(order: seq<Sha>, done: set<Sha>, x: Sha)
    requires Lists(order, done) && x !in done
    ensures Lists(order + [x], done + {x}) && Front(order + [x]) == order && Last(order + [x]) == x
    ensures PurgeLines(order + [x]) == PurgeLines(order) + [GcPurge(x)]
            && Elements(order + [x]) == Elements(order) + {x}
  {
    ListsOneMore(order, done, x);
  }

  lemma {:induction false} ReclaimedSame(a: map<Sha, BlobRow>, b: map<Sha, BlobRow>, order: seq<Sha>)
    requires a.Keys == b.Keys && forall x | x in a :: a[x].size == b[x].size
    ensures Reclaimed(a, order) == Reclaimed(b, order)
  {
    if order != [] {
      ReclaimedSame(a, b, Front(order));
      assert Last(order) in a.Keys <==> Last(order) in b.Keys;
    }
  }

  method SumSizes(rows: map<Sha, BlobRow>) returns (sum: nat)
    ensures sum == TotalBytes(rows)
  {
    sum := 0;
    var todo := rows.Keys;
    var left := rows;
    while todo != {}
      invariant todo == left.Keys
      invariant sum + TotalBytes(left) == TotalBytes(rows)
      decreases |todo|
    {
      var x :| x in todo;
      TotalWithout(left, x);
      sum := sum + left[x].size;
      left := left - {x};
      todo := todo - {x};
    }
    assert left == map[];
  }

  function TornTails(files: seq<string>, parse: string -> Option<Event>): nat {
    if files == [] then 0
    else
      TornTails(Front(files), parse) +
      (match ReadText(Last(files), parse) case Corrupt(_) => 0 case Lines(_, torn) => if torn then 1 else 0)
  }

  /** A file that cannot be read, or lines that cannot be replayed, fail the whole rebuild. */
  lemma RebuildFails(start: Index, files: seq<string>, i: nat, parse: string -> Option<Event>)
    requires i < |files| && AllLines(files[..i], parse).Some?
    requires AllLines(files[..i + 1], parse).None? || ReplayLines(start, AllLines(files[..i + 1], parse).value).None?
    ensures AllLines(files, parse).None? || Rebuild(start, AllLines(files, parse).value).None?
    decreases |files| - i
  {
    if i + 1 < |files| {
      AllLinesPrefix(files, i + 1, parse);
      if AllLines(files[..i + 1], parse).Some? && AllLines(files[..i + 2], parse).Some? {
        var lines := AllLines(files[..i + 1], parse).value;
        var more := ReadText(files[i + 1], parse).lines;
        ReplayStuck(start, lines, more);
        RebuildFails(start, files, i + 1, parse);
      } else if AllLines(files[..i + 1], parse).Some? {
        RebuildFails(start, files, i + 1, parse);
      }
    } else {
      assert files[..i + 1] == files;
    }
  }

  /**
   * The sweep so far: the sessions in `order` are expired, those in `todo` are pending and as the sweep found
   * them, and every overdue session is in one or the other.
   */
  ghost predicate Sweeping(was: State, s: State, order: seq<Id>, todo: set<Id>, now: nat, ttl: nat, today: nat) {
    && s == ExpireEach(was, order, today)
    && (forall u | u in todo ::
        u in s.uploads && u in was.uploads && s.uploads[u] == was.uploads[u] && was.uploads[u].status.Pending?)
    && Lists(order, OverdueUploads(was.uploads, now, ttl) - todo)
  }

  lemma SweepStarts(was: State, now: nat, ttl: nat, today: nat)
    ensures Sweeping(was, was, [], (set u | u in was.uploads && was.uploads[u].status.Pending?), now, ttl, today)
  {
    assert Elements<Id>([]) == {};
  }

  lemma SweepLooksAt(was: State, s: State, order: seq<Id>, todo: set<Id>, now: nat, ttl: nat, today: nat, u: Id)
    requires Sweeping(was, s, order, todo, now, ttl, today) && u in todo
    ensures u in s.uploads
    ensures if now > s.uploads[u].lastActivity + ttl
            then Sweeping(was, Expire(s, u, today), order + [u], todo - {u}, now, ttl, today)
            else Sweeping(was, s, order, todo - {u}, now, ttl, today)
  {
    hide Lists;
    var overdue := OverdueUploads(was.uploads, now, ttl);
    if u in overdue {
      assert overdue - (todo - {u}) == (overdue - todo) + {u};
      ExpireOneMore(was, order, overdue - todo, u, today);
    } else {
      assert overdue - (todo - {u}) == overdue - todo;
    }
  }

  lemma SweepEnds(was: State, s: State, order: seq<Id>, now: nat, ttl: nat, today: nat)
    requires Sweeping(was, s, order, {}, now, ttl, today)
    ensures Lists(order, OverdueUploads(was.uploads, now, ttl)) && s == ExpireEach(was, order, today)
  {
    assert OverdueUploads(was.uploads, now, ttl) - {} == OverdueUploads(was.uploads, now, ttl);
  }

  lemma ExpireOneMore(s: State, order: seq<Id>, done: set<Id>, u: Id, today: nat)
    requires Lists(order, done) && u !in done && u in ExpireEach(s, order, today).uploads
    ensures Lists(order + [u], done + {u})
    ensures ExpireEach(s, order + [u], today) == Expire(ExpireEach(s, order, today), u, today)
  {
    ListsOneMore(order, done, u);
  }

  lemma ListsOneMore<T>(order: seq<T>, done: set<T>, x: T)
    requires Lists(order, done) && x !in done
    ensures Lists(order + [x], done + {x})
    ensures Front(order + [x]) == order && Last(order + [x]) == x
  {
    assert forall i | 0 <= i < |order| :: order[i] in Elements(order);
    forall y | y in Elements(order + [x])
      ensures y in done + {x}
    {
      assert y == x || y in order;
    }
    forall y | y in done + {x}
      ensures y in Elements(order + [x])
    {
      assert y == x || y in Elements(order);
    }
  }

  /** How far a sweep that still has `files` to look at has come, one file later. */
  lemma SweepOne(held: map<Id, Bytes>, dead: set<Id>, files: set<Id>, f: Id)
    requires files <= held.Keys && f in files
    ensures f in dead ==> held - (dead - files) - {f} == held - (dead - (files - {f}))
    ensures f !in dead ==> held - (dead - files) == held - (dead - (files - {f}))
    ensures |(held.Keys - (files - {f})) * dead| == |(held.Keys - files) * dead| + (if f in dead then 1 else 0)
  {
    var before, after := (held.Keys - files) * dead, (held.Keys - (files - {f})) * dead;
    assert after == if f in dead then before + {f} else before;
  }

  lemma ExpiryKeepsStagingAlways()
    ensures forall s: State, order: seq<Id>, today: nat :: ExpireEach(s, order, today).staging == s.staging
  {
    forall s: State, order: seq<Id>, today: nat
      ensures ExpireEach(s, order, today).staging == s.staging
    {
      ExpiryKeepsStaging(s, order, today);
    }
  }

  lemma ExpiryKeepsStaging(s: State, order: seq<Id>, today: nat)
    ensures ExpireEach(s, order, today).staging == s.staging
  {
    if order != [] {
      ExpiryKeepsStaging(s, Front(order), today);
    }
  }
}
