/**
 * Garbage collection: what it removes, what it reclaims, and the invariant that every step of a live process keeps,
 * I/O faults and collections included (apps/drive/src/storage/gc.ts, store.ts).
 */
module DriveLive {
  import opened Prelude
  import opened DriveIndex
  import opened DriveMachine
  import opened DriveSafety
  import opened DriveRuns

  /** The process never stops: no boot replays the journal. */
  predicate BootFree(op: Op) { !op.DoReboot? && !op.DoCrash? }

  ghost predicate BootFreeRun(ops: seq<Op>) {
    forall i | 0 <= i < |ops| :: BootFree(ops[i])
  }

  ghost predicate IdsMinted(s: State) {
    && (forall a | a in s.ix.artifacts :: a < s.next)
    && (forall v | v in s.ix.versions :: v < s.next)
    && (forall u | u in s.uploads :: u < s.next)
  }

  /** (created_by, op_id) names one session. */
  ghost predicate SessionsUnique(uploads: map<Id, Upload>) {
    forall u, w | u in uploads && w in uploads && u != w ::
      !(uploads[u].createdBy == uploads[w].createdBy && uploads[u].op == uploads[w].op)
  }

  ghost predicate Live(s: State) {
    && Consistent(s.ix)
    && NoOrphans(s.ix)
    && MarkersKeyed(s.ix.versions)
    && IdsMinted(s)
    && SessionsLinked(s)
    && SessionsUnique(s.uploads)
  }

  // ----- garbage collection ---------------------------------------------------------------------------

  lemma PurgedRowsConsistent(ix: Index, purged: set<Id>)
    requires Consistent(ix) && purged <= MarkedChains(ix)
    ensures Consistent(PurgeChains(ix, purged))
  {
    var g := PurgeChains(ix, purged);
    forall b | b in g.artifacts
      ensures PointerValid(g, b)
    {
      assert PointerValid(ix, b);
    }
  }

  lemma DroppedBlobsConsistent(g: Index)
    requires Consistent(g)
    ensures Consistent(g.(blobs := g.blobs - Unreferenced(g))) && NoOrphans(g.(blobs := g.blobs - Unreferenced(g)))
  {
    var h := g.(blobs := g.blobs - Unreferenced(g));
    forall v | v in h.versions && h.versions[v].sha.Some?
      ensures h.versions[v].sha.value in h.blobs
    {
      RefCountZero(g.versions, h.versions[v].sha.value);
    }
    forall b | b in h.artifacts
      ensures PointerValid(h, b)
    {
      assert PointerValid(g, b);
    }
  }

  lemma CollectLive(s: State, order: seq<Sha>)
    requires Live(s) && Lists(order, Unreferenced(PurgeChains(s.ix, MarkedChains(s.ix))))
    ensures Live(Collect(s, order))
  {
    hide Consistent;
    PurgedRowsConsistent(s.ix, MarkedChains(s.ix));
    DroppedBlobsConsistent(PurgeChains(s.ix, MarkedChains(s.ix)));
  }

  ghost predicate Named(versions: map<Id, VersionRow>, x: Sha) {
    exists v | v in versions :: versions[v].sha == Some(x)
  }

  /** The blobs that survive are exactly those a surviving version names, with exactly that count. */
  ghost predicate BlobsExact(s: State, t: State) {
    && (forall x | x in s.ix.blobs :: x in t.ix.blobs <==> Named(t.ix.versions, x))
    && (forall x | x in t.ix.blobs ::
          x in s.ix.blobs && t.ix.blobs[x] == s.ix.blobs[x].(refcount := RefCount(t.ix.versions, x)))
  }

  /**
   * The version rows that go are exactly those of artifacts whose pointer is NULL, which go with them if they had any.
   */
  ghost predicate RowsExact(s: State, t: State) {
    && (forall v | v in s.ix.versions ::
          v in t.ix.versions <==>
          !(s.ix.versions[v].artifact in s.ix.artifacts && s.ix.artifacts[s.ix.versions[v].artifact].current == None))
    && (forall v | v in t.ix.versions :: v in s.ix.versions && t.ix.versions[v] == s.ix.versions[v])
    && (forall a | a in s.ix.artifacts ::
          a in t.ix.artifacts <==>
          s.ix.artifacts[a].current != None || forall v | v in s.ix.versions :: s.ix.versions[v].artifact != a)
    && (forall a | a in t.ix.artifacts :: a in s.ix.artifacts && t.ix.artifacts[a] == s.ix.artifacts[a])
    && t.ix.fences == s.ix.fences
  }

  /** A file leaves the store exactly when its blob row does. */
  ghost predicate DiskExact(s: State, t: State) {
    && (forall x | x in s.disk :: x in t.disk <==> x !in s.ix.blobs || x in t.ix.blobs)
    && (forall x | x in t.disk :: x in s.disk && t.disk[x] == s.disk[x])
  }

  lemma CollectBlobsExact(s: State, order: seq<Sha>)
    requires Lists(order, Unreferenced(PurgeChains(s.ix, MarkedChains(s.ix))))
    ensures BlobsExact(s, Collect(s, order))
  {
    var g := PurgeChains(s.ix, MarkedChains(s.ix));
    forall x | x in g.blobs
      ensures g.blobs[x].refcount == 0 <==> !Named(g.versions, x)
    {
      RefCountZero(g.versions, x);
    }
  }

  lemma CollectRemovesExactly(s: State, order: seq<Sha>)
    requires Lists(order, Unreferenced(PurgeChains(s.ix, MarkedChains(s.ix))))
    ensures BlobsExact(s, Collect(s, order)) && RowsExact(s, Collect(s, order)) && DiskExact(s, Collect(s, order))
  {
    CollectBlobsExact(s, order);
  }

  // ----- bytes reclaimed ------------------------------------------------------------------------------

  /** The bytes the blob table accounts for. */
  ghost function TotalBytes(blobs: map<Sha, BlobRow>): nat
    decreases |blobs|
  {
    if blobs == map[] then 0
    else
      var x :| x in blobs;
      assert |blobs - {x}| < |blobs| by { Shrinks(blobs, x); }
      blobs[x].size + TotalBytes(blobs - {x})
  }

  lemma Shrinks(blobs: map<Sha, BlobRow>, x: Sha)
    requires x in blobs
    ensures |blobs - {x}| == |blobs| - 1
  {
    assert (blobs - {x}).Keys == blobs.Keys - {x};
    assert |(blobs - {x}).Keys| == |blobs.Keys| - 1;
  }

  lemma {:induction false} TotalWithout(blobs: map<Sha, BlobRow>, x: Sha)
    requires x in blobs
    ensures TotalBytes(blobs) == blobs[x].size + TotalBytes(blobs - {x})
    decreases |blobs|
  {
    var y :| y in blobs && TotalBytes(blobs) == blobs[y].size + TotalBytes(blobs - {y});
    if y != x {
      Shrinks(blobs, y);
      TotalWithout(blobs - {y}, x);
      Shrinks(blobs, x);
      TotalWithout(blobs - {x}, y);
      assert blobs - {x} - {y} == blobs - {y} - {x};
    }
  }

  function Reclaimed(blobs: map<Sha, BlobRow>, order: seq<Sha>): nat {
    if order == [] then 0
    else Reclaimed(blobs, Front(order)) + (if Last(order) in blobs then blobs[Last(order)].size else 0)
  }

  lemma {:induction false} ReclaimedBytes(blobs: map<Sha, BlobRow>, order: seq<Sha>)
    requires Distinct(order) && forall i | 0 <= i < |order| :: order[i] in blobs
    ensures TotalBytes(blobs) == TotalBytes(blobs - Elements(order)) + Reclaimed(blobs, order)
  {
    if order == [] {
      assert blobs - Elements(order) == blobs;
    } else {
      ReclaimedBytes(blobs, Front(order));
      var rest := blobs - Elements(Front(order));
      assert Last(order) !in Elements(Front(order));
      TotalWithout(rest, Last(order));
      assert Elements(order) == Elements(Front(order)) + {Last(order)};
      assert rest - {Last(order)} == blobs - Elements(order);
    }
  }

  lemma {:induction false} TotalIgnoresCounts(a: map<Sha, BlobRow>, b: map<Sha, BlobRow>)
    requires a.Keys == b.Keys && forall x | x in a :: a[x].size == b[x].size
    ensures TotalBytes(a) == TotalBytes(b)
    decreases |a|
  {
    if a != map[] {
      var x :| x in a;
      Shrinks(a, x);
      TotalIgnoresCounts(a - {x}, b - {x});
      TotalWithout(a, x);
      TotalWithout(b, x);
    } else {
      assert b == map[];
    }
  }

  /** No bytes are lost: what the table held is what it holds plus what the purge reports reclaimed. */
  lemma CollectConserves(s: State, order: seq<Sha>)
    requires Lists(order, Unreferenced(PurgeChains(s.ix, MarkedChains(s.ix))))
    ensures TotalBytes(s.ix.blobs) == TotalBytes(Collect(s, order).ix.blobs) + Reclaimed(s.ix.blobs, order)
  {
    var g := PurgeChains(s.ix, MarkedChains(s.ix));
    forall i | 0 <= i < |order|
      ensures order[i] in g.blobs && order[i] in s.ix.blobs
    {
      assert order[i] in Elements(order);
    }
    ReclaimedBytes(s.ix.blobs, order);
    TotalIgnoresCounts(s.ix.blobs - Elements(order), g.blobs - Elements(order));
  }

  // ----- every step of a live process keeps it ------------------------------------------------------------------

  lemma RegisterLive(s: State, p: Principal, intent: Intent, found: Option<Id>, session: Option<Id>, now: nat,
                     limits: Limits)
    requires Live(s) && Looked(s, p, intent, found, session)
    ensures Live(Register(s, p, intent, found, session, now, limits).after)
  {
    hide Consistent;
    if found.None? {
      RegisterConsistent(s.ix, s.next, ArtifactRow(intent.ticket, intent.name, None, p.sub, now));
    } else {
      assert s.ix.(artifacts := s.ix.artifacts) == s.ix;
    }
  }

  lemma LiveAdmits(s: State, u: Id, mat: Material, now: nat)
    requires Live(s) && u in s.uploads
    requires !Stale(s.ix.fences, s.uploads[u].ticket, s.uploads[u].fence)
    requires s.uploads[u].artifact in s.ix.artifacts
    requires !Clashes(s.ix.versions, NewRow(s.ix, s.uploads[u], mat, now))
    ensures Admitted(s.ix, s.next, NewRow(s.ix, s.uploads[u], mat, now), s.uploads[u].name)
  {
    hide Consistent;
    assert NamesArtifact(s.ix.artifacts, s.uploads[u].artifact, s.uploads[u].ticket, s.uploads[u].name);
  }

  lemma CommitLive(s: State, p: Principal, u: Id, mat: Material, now: nat, limits: Limits, fault: Fault)
    requires Live(s)
    ensures Live(Commit(s, p, u, mat, now, limits, fault).after)
  {
    hide Consistent, Clashes, Commit, CommitTxn;
    var t := Commit(s, p, u, mat, now, limits, fault).after;
    if t != s {
      CommitIsTxn(s, p, u, mat, now, limits, fault);
      CommitEffect(s, u, mat, now, fault);
      if t.ix != s.ix {
        LiveAdmits(s, u, mat, now);
        CommitConsistent(s.ix, s.next, NewRow(s.ix, s.uploads[u], mat, now), s.uploads[u].name);
      }
    }
  }

  lemma DeleteLive(s: State, p: Principal, a: Id, now: nat)
    requires Live(s)
    ensures Live(Delete(s, p, a, now).after)
  {
    hide Consistent, Clashes, MaxSeq;
    if Delete(s, p, a, now).reply.Ok? {
      var e, row := DeleteMarker(s.next, a), MarkerRow(s.ix, a, s.next, p.sub, now);
      PointerConsistent(s.ix, a, None, e);
      MarkerConsistent(SetPointer(s.ix, a, None), [e], s.next, row);
    }
  }

  lemma RestoreLive(s: State, a: Id, v: Id)
    requires Live(s)
    ensures Live(Restore(s, a, v).after)
  {
    hide Consistent;
    if Restore(s, a, v).reply.Ok? {
      PointerConsistent(s.ix, a, Some(v), PointerMove(a, Some(v)));
    }
  }

  /** Staging, charging, touching, aborting, expiring, sweeping. */
  lemma QuietLive(s: State, op: Op, limits: Limits)
    requires Live(s) && BootFree(op)
    requires !op.DoRegister? && !op.DoCommit? && !op.DoDelete? && !op.DoRestore? && !op.DoCollect?
    ensures Live(Step(s, op, limits))
  {
    hide Consistent, NoOrphans, MarkersKeyed, Register, Commit, Delete, Restore, Collect, Reboot, Interrupted;
  }

  lemma StepLive(s: State, op: Op, limits: Limits)
    requires Live(s) && BootFree(op)
    ensures Live(Step(s, op, limits))
  {
    hide Live, Register, Commit, Delete, Restore, Collect, Looked;
    match op {
      case DoRegister(p, intent, found, session, now) =>
        if Looked(s, p, intent, found, session) {
          RegisterLive(s, p, intent, found, session, now, limits);
        }
      case DoCommit(p, u, mat, now, fault) => CommitLive(s, p, u, mat, now, limits, fault);
      case DoDelete(p, a, now) => DeleteLive(s, p, a, now);
      case DoRestore(a, v) => RestoreLive(s, a, v);
      case DoCollect(order) =>
        if Lists(order, Unreferenced(PurgeChains(s.ix, MarkedChains(s.ix)))) {
          CollectLive(s, order);
        }
      case _ => QuietLive(s, op, limits);
    }
  }

  /** Every blob has a row naming it, and loses the last one only to the purge. */
  lemma OnlyMarkedName(s: State)
    requires Live(s)
    ensures Unreferenced(s.ix) == {}
    ensures forall x | x in Unreferenced(PurgeChains(s.ix, MarkedChains(s.ix))) ::
              && x in s.ix.blobs
              && forall v | v in s.ix.versions && s.ix.versions[v].sha == Some(x) ::
                  s.ix.versions[v].artifact in MarkedChains(s.ix)
  {
    forall x | x in s.ix.blobs
      ensures s.ix.blobs[x].refcount > 0
    {
      RefCountZero(s.ix.versions, x);
    }
    forall x, v | x in Unreferenced(PurgeChains(s.ix, MarkedChains(s.ix))) && v in s.ix.versions
           && s.ix.versions[v].sha == Some(x)
      ensures s.ix.versions[v].artifact in MarkedChains(s.ix)
    {
      RefCountZero(Surviving(s.ix.versions, MarkedChains(s.ix)), x);
      assert v !in Surviving(s.ix.versions, MarkedChains(s.ix));
    }
  }
}
