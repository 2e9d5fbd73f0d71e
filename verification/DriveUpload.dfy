/**
 * The byte stream of one upload: quota charged as bytes arrive, released when anything fails
 * (apps/drive/src/http/server.ts, PUT /api/uploads/:id).
 */
module DriveUpload {
  import opened Prelude
  import opened DriveIndex
  import opened DriveMachine
  import opened DriveRuns
  import opened DriveDisk
  import opened DriveStore

  const FLUSH_BYTES := 8 * 1024 * 1024

  /** A chunk of the request body, with the day, the clock and the volume watermark as they stood when it came. */
  datatype Chunk = Chunk(bytes: Bytes, day: nat, now: nat, room: bool)

  /** How the stream ended: broken off or complete, and the surroundings of what follows. */
  datatype Ending = Ending(broken: bool, day: nat, now: nat, room: bool, mime: string, originalName: string,
                           fault: Fault)

  /** One charge against the ledger. */
  datatype Flush = Flush(day: nat, bytes: nat)

  function ChargedOn(flushes: seq<Flush>, day: nat): nat {
    if flushes == [] then 0
    else ChargedOn(Front(flushes), day) + (if Last(flushes).day == day then Last(flushes).bytes else 0)
  }

  function Charged(flushes: seq<Flush>): nat {
    if flushes == [] then 0 else Charged(Front(flushes)) + Last(flushes).bytes
  }

  function Body(chunks: seq<Chunk>): Bytes {
    if chunks == [] then [] else Body(Front(chunks)) + Last(chunks).bytes
  }

  /** The principal's account has grown by exactly the flushes, day by day, and no other account has moved. */
  ghost predicate LedgerGrew(before: map<Account, nat>, after: map<Account, nat>, sub: Sub, flushes: seq<Flush>) {
    && (forall day: nat ::
        Balance(after, Account(sub, day)) == Balance(before, Account(sub, day)) + ChargedOn(flushes, day))
    && (forall k: Account | k.sub != sub :: Balance(after, k) == Balance(before, k))
  }

  /** After a failure: the flushes less one release of their sum, clamped at zero, on the releasing day. */
  ghost predicate LedgerReleased(before: map<Account, nat>, after: map<Account, nat>, sub: Sub, flushes: seq<Flush>,
                                 today: nat) {
    && (forall day: nat :: Balance(after, Account(sub, day)) ==
          if day == today then Max(0, Balance(before, Account(sub, day)) + ChargedOn(flushes, day) - Charged(flushes))
          else Balance(before, Account(sub, day)) + ChargedOn(flushes, day))
    && (forall k: Account | k.sub != sub :: Balance(after, k) == Balance(before, k))
  }

  /** No account is pushed past the daily quota. */
  ghost predicate WithinQuota(before: map<Account, nat>, after: map<Account, nat>, quota: nat) {
    forall k: Account :: Balance(after, k) <= Max(Balance(before, k), quota)
  }

  /** Every flush stands for at least one byte. */
  ghost predicate Flushed(flushes: seq<Flush>) {
    forall i | 0 <= i < |flushes| :: flushes[i].bytes > 0
  }

  /** What streaming does to the ledger: exactly the flushes, each of at least a byte, never past the quota. */
  ghost predicate Accounted(before: map<Account, nat>, after: map<Account, nat>, sub: Sub, flushes: seq<Flush>,
                            quota: nat) {
    LedgerGrew(before, after, sub, flushes) && Flushed(flushes) && WithinQuota(before, after, quota)
  }

  lemma FlushGrows(before: map<Account, nat>, mid: map<Account, nat>, sub: Sub, flushes: seq<Flush>, f: Flush,
                   quota: nat)
    requires Accounted(before, mid, sub, flushes, quota) && f.bytes > 0
    requires Balance(mid, Account(sub, f.day)) + f.bytes <= quota
    ensures Accounted(before, mid[Account(sub, f.day) := Balance(mid, Account(sub, f.day)) + f.bytes], sub,
                      flushes + [f], quota)
    ensures Charged(flushes + [f]) == Charged(flushes) + f.bytes
  {
    assert Front(flushes + [f]) == flushes;
  }

  lemma {:induction false} OneDaysCharge(flushes: seq<Flush>, day: nat)
    ensures ChargedOn(flushes, day) <= Charged(flushes)
    ensures (forall i | 0 <= i < |flushes| :: flushes[i].day == day) ==> ChargedOn(flushes, day) == Charged(flushes)
    ensures forall i | 0 <= i < |flushes| && flushes[i].day == day :: flushes[i].bytes <= ChargedOn(flushes, day)
    ensures (forall i | 0 <= i < |flushes| :: flushes[i].day != day) ==> ChargedOn(flushes, day) == 0
  {
    if flushes != [] {
      OneDaysCharge(Front(flushes), day);
      forall i | 0 <= i < |flushes| && flushes[i].day == day
        ensures flushes[i].bytes <= ChargedOn(flushes, day)
      {
        if i < |flushes| - 1 {
          assert Front(flushes)[i] == flushes[i];
        }
      }
    }
  }

  /**
   * A failed upload returns the principal's ledger to where it started, on every day, if and only
   * if every charge was made on the day it is released.
   */
  lemma ReleaseExactIff(before: map<Account, nat>, after: map<Account, nat>, sub: Sub, flushes: seq<Flush>, today: nat)
    requires LedgerReleased(before, after, sub, flushes, today) && Flushed(flushes)
    ensures (forall day: nat :: Balance(after, Account(sub, day)) == Balance(before, Account(sub, day))) <==>
            forall i | 0 <= i < |flushes| :: flushes[i].day == today
  {
    if forall i | 0 <= i < |flushes| :: flushes[i].day == today {
      forall day: nat
        ensures Balance(after, Account(sub, day)) == Balance(before, Account(sub, day))
      {
        OneDaysCharge(flushes, day);
      }
    } else {
      var i :| 0 <= i < |flushes| && flushes[i].day != today;
      OneDaysCharge(flushes, flushes[i].day);
      assert Balance(after, Account(sub, flushes[i].day)) > Balance(before, Account(sub, flushes[i].day));
    }
  }

  /** The session stays the pending one the handler opened; only its activity and staged bytes move. */
  ghost predicate SessionOpen(before: map<Id, Upload>, after: map<Id, Upload>, u: Id) {
    && u in before && u in after
    && after == before[u := before[u].(lastActivity := after[u].lastActivity, staged := after[u].staged)]
  }

  /** Mid-stream: `body` is staged, exactly `flushes` is charged, the session is open, and all else is as it was. */
  ghost predicate Streaming(before: State, after: State, sub: Sub, u: Id, body: Bytes, flushes: seq<Flush>,
                            quota: nat) {
    && after == before.(uploads := after.uploads, ledger := after.ledger, staging := before.staging[u := body])
    && SessionOpen(before.uploads, after.uploads, u)
    && Accounted(before.ledger, after.ledger, sub, flushes, quota)
  }

  lemma StreamStarts(before: State, sub: Sub, u: Id, quota: nat)
    requires u in before.uploads
    ensures Streaming(before, before.(staging := before.staging[u := []]), sub, u, [], [], quota)
  {
  }

  method WriteChunk(store: Store, ghost before: State, sub: Sub, u: Id, ghost body: Bytes, ghost flushes: seq<Flush>,
                    bytes: Bytes)
    requires Streaming(before, store.Now(), sub, u, body, flushes, store.limits.dailyQuota)
    modifies store`staging
    ensures Streaming(before, store.Now(), sub, u, body + bytes, flushes, store.limits.dailyQuota)
  {
    hide Accounted;
    store.staging := store.staging[u := store.staging[u] + bytes];
    assert store.staging == before.staging[u := body + bytes];
  }

  /** Charges what has arrived since the last flush and keeps the session's record of it fresh. */
  method FlushQuota(store: Store, ghost before: State, sub: Sub, u: Id, ghost body: Bytes, ghost flushes: seq<Flush>,
                    total: nat, charged: nat, day: nat, now: nat, room: bool)
    returns (r: Result<(), DriveError>)
    requires charged < total
    requires Streaming(before, store.Now(), sub, u, body, flushes, store.limits.dailyQuota)
    modifies store`ledger, store`uploads
    ensures r.Ok? <==>
            room && Balance(old(store.ledger), Account(sub, day)) + (total - charged) <= store.limits.dailyQuota
    ensures r.Err? ==> r.error == if room then QuotaExhausted else DiskWatermark
    ensures r.Ok? ==>
            Streaming(before, store.Now(), sub, u, body, flushes + [Flush(day, total - charged)],
                          store.limits.dailyQuota)
    ensures r.Ok? ==> Charged(flushes + [Flush(day, total - charged)]) == Charged(flushes) + (total - charged)
    ensures r.Err? ==> store.Now() == old(store.Now())
  {
    hide Accounted, Charged;
    if !room {
      return Err(DiskWatermark);
    }
    ghost var mid := store.Now();
    var ok := store.ChargeQuota(Account(sub, day), total - charged);
    if !ok {
      return Err(QuotaExhausted);
    }
    store.TouchUpload(u, total, now);
    StreamFlushed(before, mid, sub, u, body, flushes, Flush(day, total - charged), total, now, store.limits.dailyQuota);
    return Ok(());
  }

  lemma StreamFlushed(before: State, mid: State, sub: Sub, u: Id, body: Bytes, flushes: seq<Flush>, f: Flush,
                      staged: nat, now: nat, quota: nat)
    requires Streaming(before, mid, sub, u, body, flushes, quota) && f.bytes > 0
    requires Balance(mid.ledger, Account(sub, f.day)) + f.bytes <= quota
    ensures var k := Account(sub, f.day);
            var after :=
              mid.(ledger := mid.ledger[k := Balance(mid.ledger, k) + f.bytes],
                   uploads := Touch(mid.uploads, u, staged, now));
            Streaming(before, after, sub, u, body, flushes + [f], quota)
    ensures Charged(flushes + [f]) == Charged(flushes) + f.bytes
  {
    hide Accounted, Charged;
    FlushGrows(before.ledger, mid.ledger, sub, flushes, f, quota);
  }

  // ----- which chunk is refused, and why ----------------------------------------------------------------------------

  /** What a stream that was not refused has charged: everything up to the last chunk that filled eight megabytes. */
  function ChargedBy(chunks: seq<Chunk>): nat {
    if chunks == [] then 0
    else if |Body(chunks)| - ChargedBy(Front(chunks)) >= 8388608 then |Body(chunks)|
    else ChargedBy(Front(chunks))
  }

  /** The charges that made it up. */
  function FlushesOf(chunks: seq<Chunk>): seq<Flush> {
    if chunks == [] then []
    else if |Body(chunks)| - ChargedBy(Front(chunks)) >= 8388608 then
      FlushesOf(Front(chunks)) + [Flush(Last(chunks).day, |Body(chunks)| - ChargedBy(Front(chunks)))]
    else FlushesOf(Front(chunks))
  }

  /** What charging `bytes` on a day meets behind these charges. */
  function ChargeRefused(ledger: map<Account, nat>, sub: Sub, flushes: seq<Flush>, day: nat, room: bool, bytes: nat,
                         quota: nat): Option<DriveError> {
    if !room then Some(DiskWatermark)
    else if Balance(ledger, Account(sub, day)) + ChargedOn(flushes, day) + bytes > quota then Some(QuotaExhausted)
    else None
  }

  /** Why the last of these chunks is refused when none before it was. */
  function Refusal(ledger: map<Account, nat>, sub: Sub, chunks: seq<Chunk>, limits: Limits): Option<DriveError>
    requires chunks != []
  {
    var bytes := |Body(chunks)| - ChargedBy(Front(chunks));
    if |Body(chunks)| > limits.maxBytes then Some(OverSizeCap)
    else if bytes < 8388608 then None
    else ChargeRefused(ledger, sub, FlushesOf(Front(chunks)), Last(chunks).day, Last(chunks).room, bytes,
                       limits.dailyQuota)
  }

  /** The first refusal decides. */
  function FirstRefusal(ledger: map<Account, nat>, sub: Sub, chunks: seq<Chunk>, limits: Limits): Option<DriveError> {
    if chunks == [] then None
    else if FirstRefusal(ledger, sub, Front(chunks), limits).Some? then FirstRefusal(ledger, sub, Front(chunks), limits)
    else Refusal(ledger, sub, chunks, limits)
  }

  lemma {:induction false} ChargedByFlushes(chunks: seq<Chunk>)
    ensures Charged(FlushesOf(chunks)) == ChargedBy(chunks) <= |Body(chunks)|
    ensures |Body(chunks)| - ChargedBy(chunks) < 8388608
    ensures Flushed(FlushesOf(chunks))
  {
    if chunks != [] {
      ChargedByFlushes(Front(chunks));
      var f := Flush(Last(chunks).day, |Body(chunks)| - ChargedBy(Front(chunks)));
      assert Front(FlushesOf(Front(chunks)) + [f]) == FlushesOf(Front(chunks));
    }
  }

  lemma {:induction false} RefusedEarly(ledger: map<Account, nat>, sub: Sub, chunks: seq<Chunk>, k: nat, limits: Limits)
    requires k <= |chunks| && FirstRefusal(ledger, sub, chunks[..k], limits).Some?
    ensures FirstRefusal(ledger, sub, chunks, limits) == FirstRefusal(ledger, sub, chunks[..k], limits)
    decreases |chunks|
  {
    hide Refusal;
    if k == |chunks| {
      assert chunks[..k] == chunks;
    } else {
      assert Front(chunks)[..k] == chunks[..k];
      RefusedEarly(ledger, sub, Front(chunks), k, limits);
    }
  }

  /** One chunk further, unrefused so far. */
  lemma ChunkGoes(ledger: map<Account, nat>, sub: Sub, chunks: seq<Chunk>, i: nat, limits: Limits)
    requires i < |chunks| && FirstRefusal(ledger, sub, chunks[..i], limits).None?
    ensures var bytes := |Body(chunks[..i + 1])| - ChargedBy(chunks[..i]);
            && |Body(chunks[..i + 1])| == |Body(chunks[..i])| + |chunks[i].bytes|
            && FirstRefusal(ledger, sub, chunks[..i + 1], limits) ==
               (if |Body(chunks[..i + 1])| > limits.maxBytes then Some(OverSizeCap)
                else if bytes < 8388608 then None
                else ChargeRefused(ledger, sub, FlushesOf(chunks[..i]), chunks[i].day, chunks[i].room, bytes,
                                   limits.dailyQuota))
            && ChargedBy(chunks[..i + 1]) ==
              (if bytes >= 8388608 then |Body(chunks[..i + 1])| else ChargedBy(chunks[..i]))
            && FlushesOf(chunks[..i + 1]) ==
               if bytes >= 8388608 then FlushesOf(chunks[..i]) + [Flush(chunks[i].day, bytes)]
                 else FlushesOf(chunks[..i])
  {
    hide ChargeRefused, Body;
    assert Front(chunks[..i + 1]) == chunks[..i] && Last(chunks[..i + 1]) == chunks[i];
    BodyGrows(chunks, i);
  }

  lemma ChargeMeets(before: map<Account, nat>, mid: map<Account, nat>, sub: Sub, flushes: seq<Flush>, quota: nat,
                    day: nat, room: bool, bytes: nat)
    requires Accounted(before, mid, sub, flushes, quota)
    ensures ChargeRefused(before, sub, flushes, day, room, bytes, quota) ==
            if !room then Some(DiskWatermark)
            else if Balance(mid, Account(sub, day)) + bytes > quota then Some(QuotaExhausted) else None
  {
  }

  lemma StreamAccounted(before: State, after: State, sub: Sub, u: Id, body: Bytes, flushes: seq<Flush>, quota: nat)
    requires Streaming(before, after, sub, u, body, flushes, quota)
    ensures Accounted(before.ledger, after.ledger, sub, flushes, quota)
  {
  }

  /**
   * A stream within the cap, with room on the volume throughout and a day's allowance that covers the whole body on
   * each of its days, is not refused.
   */
  lemma {:induction false} ModestStream(ledger: map<Account, nat>, sub: Sub, chunks: seq<Chunk>, limits: Limits)
    requires |Body(chunks)| <= limits.maxBytes && forall i | 0 <= i < |chunks| :: chunks[i].room
    requires forall i | 0 <= i < |chunks| ::
               Balance(ledger, Account(sub, chunks[i].day)) + |Body(chunks)| <= limits.dailyQuota
    ensures FirstRefusal(ledger, sub, chunks, limits) == None
  {
    if chunks != [] {
      var front := Front(chunks);
      assert |Body(front)| <= |Body(chunks)|;
      assert forall i | 0 <= i < |front| :: front[i] == chunks[i];
      ModestStream(ledger, sub, front, limits);
      ChargedByFlushes(front);
      OneDaysCharge(FlushesOf(front), Last(chunks).day);
      assert chunks[|chunks| - 1] == Last(chunks);
    }
  }

  /** Reads the stream to its end or to the first refusal. */
  method ReadStream(store: Store, p: Principal, u: Id, chunks: seq<Chunk>)
    returns (total: nat, charged: nat, failure: Option<DriveError>, ghost flushes: seq<Flush>, ghost body: Bytes)
    requires u in store.uploads && store.uploads[u].status.Pending?
    modifies store
    ensures Streaming(old(store.Now()), store.Now(), p.sub, u, body, flushes, store.limits.dailyQuota)
    ensures charged == Charged(flushes) && charged <= total
    ensures failure == FirstRefusal(old(store.ledger), p.sub, chunks, store.limits)
    ensures failure.None? ==>
              && body == Body(chunks) && total == |body| <= store.limits.maxBytes
              && charged == ChargedBy(chunks) && flushes == FlushesOf(chunks)
  {
    hide Streaming, Charged, FirstRefusal, Refusal, ChargeRefused, ChargedBy, FlushesOf, Accounted;
    ghost var before := store.Now();
    ghost var ledger, limits := store.ledger, store.limits;
    NothingRead(ledger, p.sub, limits);
    StreamStarts(before, p.sub, u, store.limits.dailyQuota);
    store.staging := store.staging[u := []];
    total, charged, failure, flushes, body := 0, 0, None, [], [];
    NothingCharged();
    var i := 0;
    while i < |chunks|
      invariant 0 <= i <= |chunks| && 0 <= total - charged < FLUSH_BYTES
      invariant Streaming(before, store.Now(), p.sub, u, body, flushes, store.limits.dailyQuota)
                && charged == Charged(flushes)
      invariant body == Body(chunks[..i]) && total == |body| <= store.limits.maxBytes
      invariant FirstRefusal(ledger, p.sub, chunks[..i], limits) == None
      invariant charged == ChargedBy(chunks[..i]) && flushes == FlushesOf(chunks[..i])
    {
      var c := chunks[i];
      total := total + |c.bytes|;
      ChunkGoes(ledger, p.sub, chunks, i, limits);
      if total > store.limits.maxBytes {
        failure := Some(OverSizeCap);
        RefusedEarly(ledger, p.sub, chunks, i + 1, limits);
        return;
      }
      WriteChunk(store, before, p.sub, u, body, flushes, c.bytes);
      BodyGrows(chunks, i);
      body := body + c.bytes;
      if total - charged >= FLUSH_BYTES {
        StreamAccounted(before, store.Now(), p.sub, u, body, flushes, limits.dailyQuota);
        ChargeMeets(ledger, store.ledger, p.sub, flushes, limits.dailyQuota, c.day, c.room, total - charged);
        var flushed := FlushQuota(store, before, p.sub, u, body, flushes, total, charged, c.day, c.now, c.room);
        if flushed.Err? {
          failure := Some(flushed.error);
          RefusedEarly(ledger, p.sub, chunks, i + 1, limits);
          return;
        }
        flushes := flushes + [Flush(c.day, total - charged)];
        charged := total;
      }
      i := i + 1;
    }
    assert chunks[..i] == chunks;
  }

  lemma NothingRead(ledger: map<Account, nat>, sub: Sub, limits: Limits)
    ensures FirstRefusal(ledger, sub, [], limits) == None && ChargedBy([]) == 0 && FlushesOf([]) == []
  {
  }

  lemma NothingCharged()
    ensures Charged([]) == 0
  {
  }

  lemma BodyGrows(chunks: seq<Chunk>, i: nat)
    requires i < |chunks|
    ensures Body(chunks[..i + 1]) == Body(chunks[..i]) + chunks[i].bytes
  {
    assert Front(chunks[..i + 1]) == chunks[..i] && Last(chunks[..i + 1]) == chunks[i];
  }

  // ----- the whole request -----------------------------------------------------------------------------------

  /**
   * What a request that reached the stream leaves behind.  A success has charged exactly the body's size and
   * committed it under its own hash; a failure has released exactly what it had charged and closed the session.
   */
  ghost predicate Settled(before: State, after: State, sub: Sub, u: Id, body: Bytes, flushes: seq<Flush>, today: nat,
                          r: Result<Receipt, DriveError>, quota: nat, hash: Bytes -> Sha) {
    match r
    case Ok(receipt) =>
      && LedgerGrew(before.ledger, after.ledger, sub, flushes)
      && WithinQuota(before.ledger, after.ledger, quota)
      && Charged(flushes) == |body|
      && CommittedAs(after, u, receipt, hash(body), |body|)
    case Err(_) =>
      && LedgerReleased(before.ledger, after.ledger, sub, flushes, today)
      && WithinQuota(before.ledger, after.ledger, quota)
      && Flushed(flushes)
      && u in after.uploads && after.uploads[u].status.Discarded? && u !in after.staging
      && after.ix == before.ix
  }

  lemma ReleasedLedger(before: map<Account, nat>, mid: map<Account, nat>, sub: Sub, flushes: seq<Flush>, today: nat)
    requires LedgerGrew(before, mid, sub, flushes)
    ensures LedgerReleased(before, Release(mid, Account(sub, today), Charged(flushes)), sub, flushes, today)
  {
    OneDaysCharge(flushes, today);
  }

  lemma ReleaseWithin(before: map<Account, nat>, mid: map<Account, nat>, k: Account, delta: nat, quota: nat)
    requires WithinQuota(before, mid, quota)
    ensures WithinQuota(before, Release(mid, k, delta), quota)
  {
    var after := Release(mid, k, delta);
    assert forall j: Account :: Balance(after, j) <= Balance(mid, j) <= Max(Balance(before, j), quota);
  }

  /** The failure path: record what was charged, then abort, which releases exactly that. */
  method FailUpload(store: Store, ghost before: State, p: Principal, u: Id, charged: nat, end: Ending,
                    ghost flushes: seq<Flush>)
    requires u in before.uploads && before.uploads[u].createdBy == p.sub && before.uploads[u].status.Pending?
    requires u in store.uploads && store.uploads[u].createdBy == p.sub && store.uploads[u].status.Pending?
    requires Accounted(before.ledger, store.ledger, p.sub, flushes, store.limits.dailyQuota)
             && charged == Charged(flushes)
    modifies store
    ensures LedgerReleased(before.ledger, store.ledger, p.sub, flushes, end.day)
    ensures WithinQuota(before.ledger, store.ledger, store.limits.dailyQuota)
    ensures u in store.uploads && store.uploads[u].status.Discarded? && u !in store.staging
    ensures store.Tables() == old(store.Tables()) && store.journal == old(store.journal)
            && store.disk == old(store.disk)
  {
    ReleasedLedger(before.ledger, store.ledger, p.sub, flushes, end.day);
    ReleaseWithin(before.ledger, store.ledger, Account(p.sub, end.day), charged, store.limits.dailyQuota);
    hide LedgerReleased, Accounted, Charged, WithinQuota;
    store.TouchUpload(u, charged, end.now);
    var _ := store.AbortUpload(p, u, end.now, end.day);
  }

  /** The receipt's version is a row of the table with that hash and size, and the session's result. */
  ghost predicate CommittedAs(s: State, u: Id, r: Receipt, sha: Sha, size: nat) {
    && r.sha == Some(sha) && r.size == size
    && r.version in s.ix.versions && ReceiptOf(r.version, s.ix.versions[r.version]) == r
    && r.artifact == s.ix.versions[r.version].artifact && r.seqNo == s.ix.versions[r.version].seqNo
    && r.mime == s.ix.versions[r.version].mime && s.ix.versions[r.version].sha == r.sha
    && u in s.uploads && s.uploads[u].status.Committed? && s.uploads[u].result == Some(r.version)
  }

  /** A pending session's commit: on success its row has the material's hash and size; on failure no table moved. */
  lemma PendingCommit(s: State, p: Principal, u: Id, mat: Material, now: nat, limits: Limits, fault: Fault)
    requires u in s.uploads && s.uploads[u].status.Pending? && s.uploads[u].createdBy == p.sub
    ensures var out := Commit(s, p, u, mat, now, limits, fault);
            && out.after.ledger == s.ledger
            && (out.reply.Ok? ==> CommittedAs(out.after, u, out.reply.value, mat.sha, mat.size))
            && (out.reply.Err? ==> out.after.ix == s.ix && out.after.uploads == s.uploads)
  {
    hide CommitTxn, Clashes, MaxSeq;
    CommitEffect(s, u, mat, now, fault);
  }

  /** The answer to a commit looks neither at the ledger nor at the session's activity and staged bytes. */
  lemma CommitReply(s: State, t: State, p: Principal, u: Id, mat: Material, now: nat, limits: Limits, fault: Fault)
    requires u in s.uploads && s.ix == t.ix && s.disk == t.disk && s.staging == t.staging && s.next == t.next
    requires u in t.uploads
             && t.uploads[u] == s.uploads[u].(lastActivity := t.uploads[u].lastActivity, staged := t.uploads[u].staged)
    ensures Commit(s, p, u, mat, now, limits, fault).reply == Commit(t, p, u, mat, now, limits, fault).reply
  {
    hide Clashes, MaxSeq, CommitIndex;
  }

  /** No commit answers that the stream broke off. */
  lemma CommitNeverBroken(s: State, p: Principal, u: Id, mat: Material, now: nat, limits: Limits, fault: Fault)
    ensures Commit(s, p, u, mat, now, limits, fault).reply != Err(BrokenStream)
  {
    hide Clashes, MaxSeq, CommitIndex;
  }

  /** What a complete body is answered: the last charge may be refused, and then the commit decides. */
  function FinishAnswer(before: State, p: Principal, u: Id, body: Bytes, charged: nat, flushes: seq<Flush>, end: Ending,
                        limits: Limits, hash: Bytes -> Sha): Result<Receipt, DriveError>
    requires charged <= |body|
  {
    var refused := ChargeRefused(before.ledger, p.sub, flushes, end.day, end.room, |body| - charged, limits.dailyQuota);
    if charged < |body| && refused.Some? then Err(refused.value)
    else
      Commit(before.(staging := before.staging[u := body]), p, u,
             Material(hash(body), |body|, end.mime, end.originalName), end.now, limits, end.fault).reply
  }

  /** What a request that reached its body is answered. */
  function StreamAnswer(before: State, p: Principal, u: Id, chunks: seq<Chunk>, end: Ending, limits: Limits,
                        hash: Bytes -> Sha): Result<Receipt, DriveError> {
    var refused := FirstRefusal(before.ledger, p.sub, chunks, limits);
    if refused.Some? then Err(refused.value)
    else if end.broken then Err(BrokenStream)
    else
      ChargedByFlushes(chunks);
      FinishAnswer(before, p, u, Body(chunks), ChargedBy(chunks), FlushesOf(chunks), end, limits, hash)
  }

  /** It answers that the stream broke off exactly if it did, behind chunks none of which was refused. */
  lemma BrokenIff(before: State, p: Principal, u: Id, chunks: seq<Chunk>, end: Ending, limits: Limits,
                  hash: Bytes -> Sha)
    ensures StreamAnswer(before, p, u, chunks, end, limits, hash) == Err(BrokenStream) <==>
            end.broken && FirstRefusal(before.ledger, p.sub, chunks, limits) == None
  {
    hide Commit;
    NeverBroken(before.ledger, p.sub, chunks, limits);
    ChargedByFlushes(chunks);
    CommitNeverBroken(before.(staging := before.staging[u := Body(chunks)]), p, u,
                      Material(hash(Body(chunks)), |Body(chunks)|, end.mime, end.originalName), end.now, limits,
                      end.fault);
  }

  lemma {:induction false} NeverBroken(ledger: map<Account, nat>, sub: Sub, chunks: seq<Chunk>, limits: Limits)
    ensures FirstRefusal(ledger, sub, chunks, limits) in
            {None, Some(OverSizeCap), Some(DiskWatermark), Some(QuotaExhausted)}
  {
    if chunks != [] {
      NeverBroken(ledger, sub, Front(chunks), limits);
    }
  }

  /** Charges what the loop left uncharged, if anything, and commits the staged bytes under their own hash. */
  method FinishUpload(store: Store, ghost before: State, p: Principal, u: Id, total: nat, charged: nat, end: Ending,
                      ghost body: Bytes, ghost flushes0: seq<Flush>, hash: Bytes -> Sha)
    returns (r: Result<Receipt, DriveError>, nowCharged: nat, ghost flushes: seq<Flush>)
    requires u in before.uploads && before.uploads[u].status.Pending? && before.uploads[u].createdBy == p.sub
    requires Streaming(before, store.Now(), p.sub, u, body, flushes0, store.limits.dailyQuota)
    requires charged == Charged(flushes0) <= total == |body|
    modifies store
    ensures r == FinishAnswer(before, p, u, body, charged, flushes0, end, store.limits, hash)
    ensures Accounted(before.ledger, store.ledger, p.sub, flushes, store.limits.dailyQuota)
            && nowCharged == Charged(flushes)
    ensures r.Ok? ==> nowCharged == total && CommittedAs(store.Now(), u, r.value, hash(body), |body|)
    ensures r.Err? ==> store.Tables() == before.ix && SessionOpen(before.uploads, store.uploads, u)
  {
    hide Accounted, Charged;
    flushes, nowCharged := flushes0, charged;
    ghost var limits := store.limits;
    StreamAccounted(before, store.Now(), p.sub, u, body, flushes, limits.dailyQuota);
    ChargeMeets(before.ledger, store.ledger, p.sub, flushes, limits.dailyQuota, end.day, end.room, total - charged);
    hide ChargeRefused;
    if total - charged > 0 {
      var flushed := FlushQuota(store, before, p.sub, u, body, flushes, total, charged, end.day, end.now, end.room);
      if flushed.Err? {
        r := Err(flushed.error);
        return;
      }
      flushes, nowCharged := flushes + [Flush(end.day, total - charged)], total;
    }
    assert store.staging[u] == body;
    var mat := Material(hash(store.staging[u]), total, end.mime, end.originalName);
    PendingCommit(store.Now(), p, u, mat, end.now, store.limits, end.fault);
    ghost var ready := store.Now();
    CommitReply(before.(staging := before.staging[u := body]), ready, p, u, mat, end.now, limits, end.fault);
    assert HonestOp(ready, DoCommit(p, u, mat, end.now, end.fault), hash);
    r := store.Commit(p, u, mat, end.now, end.fault);
    assert store.ledger == ready.ledger;
  }

  /**
   * What a request that does not reach its body is answered; a committed session is answered with its receipt again.
   */
  function EarlyAnswer(s: State, p: Principal, u: Id): Result<Receipt, DriveError> {
    if u !in s.uploads then Err(NotFound)
    else if s.uploads[u].createdBy != p.sub then Err(NotOwner)
    else
      match s.uploads[u].status
      case Committed =>
        var v := s.uploads[u].result;
        if v.None? then Err(UploadState)
        else if v.value !in s.ix.versions then Err(Internal)
        else Ok(ReceiptOf(v.value, s.ix.versions[v.value]))
      case Expired => Err(UploadExpired)
      case Discarded => Err(UploadState)
      case Pending => Err(DiskWatermark)
  }

  /** The PUT request.  `streamed` says the guards let it reach the body. */
  method PutUpload(store: Store, p: Principal, u: Id, room: bool, chunks: seq<Chunk>, end: Ending, hash: Bytes -> Sha)
    returns (r: Result<Receipt, DriveError>, ghost streamed: bool, ghost body: Bytes, ghost flushes: seq<Flush>)
    modifies store
    ensures streamed <==>
            room && u in old(store.uploads) && old(store.uploads)[u].createdBy == p.sub
              && old(store.uploads)[u].status.Pending?
    ensures !streamed ==> store.Now() == old(store.Now())
    ensures streamed ==>
            Settled(old(store.Now()), store.Now(), p.sub, u, body, flushes, end.day, r, store.limits.dailyQuota,
                        hash)
    ensures r.Ok? && streamed ==> body == Body(chunks) && !end.broken && |body| <= store.limits.maxBytes
    ensures streamed ==> r == StreamAnswer(old(store.Now()), p, u, chunks, end, store.limits, hash)
    ensures !streamed ==> r == EarlyAnswer(old(store.Now()), p, u)
  {
    hide LedgerGrew, LedgerReleased, Charged, FirstRefusal, ChargedBy, FlushesOf;
    streamed, body, flushes := false, [], [];
    if u !in store.uploads {
      return Err(NotFound), false, [], [];
    }
    var up := store.uploads[u];
    if up.createdBy != p.sub {
      return Err(NotOwner), false, [], [];
    }
    if up.status.Committed? && up.result.Some? {
      r := store.Commit(p, u, Material("", 0, "", ""), end.now, end.fault);
      return r, false, [], [];
    }
    if up.status.Expired? {
      return Err(UploadExpired), false, [], [];
    }
    if !up.status.Pending? {
      return Err(UploadState), false, [], [];
    }
    if !room {
      return Err(DiskWatermark), false, [], [];
    }
    streamed := true;
    ghost var before := store.Now();
    var total, charged, failure;
    total, charged, failure, flushes, body := ReadStream(store, p, u, chunks);
    if failure.Some? {
      r := Err(failure.value);
    } else if end.broken {
      r := Err(BrokenStream);
    } else {
      r, charged, flushes := FinishUpload(store, before, p, u, total, charged, end, body, flushes, hash);
    }
    if r.Err? {
      FailUpload(store, before, p, u, charged, end, flushes);
    }
  }

  /**
   * Aborting a session that was aborted or expired before releases its staged bytes once more, and the day's
   * ledger is left as it was exactly when there was nothing to take.
   */
  lemma SecondAbortReleases(s: State, p: Principal, u: Id, now: nat, today: nat)
    requires u in s.uploads && s.uploads[u].createdBy == p.sub
    requires s.uploads[u].status.Discarded? || s.uploads[u].status.Expired?
    ensures var t, k := Abort(s, p, u, now, today).after, Account(p.sub, today);
            && Balance(t.ledger, k) == Max(0, Balance(s.ledger, k) - s.uploads[u].staged)
            && (t.ledger == s.ledger <==> s.uploads[u].staged == 0 || Balance(s.ledger, k) == 0)
            && (forall other | other != k :: Balance(t.ledger, other) == Balance(s.ledger, other))
  {
    var t, k := Abort(s, p, u, now, today).after, Account(p.sub, today);
    if t.ledger == s.ledger && k in s.ledger {
      assert t.ledger[k] == s.ledger[k];
    }
    if k in s.ledger && s.ledger[k] == 0 {
      assert s.ledger[k := 0] == s.ledger;
    }
  }
}
