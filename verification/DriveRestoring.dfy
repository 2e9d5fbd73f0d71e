/**
 * What a replay makes of tables from which whole chains are missing, while no committed line was rolled back: with
 * nothing missing from the live tables any part of them is completed from the journal, and behind a boot that comes up
 * nothing is missing (apps/drive/src/storage/maintenance.ts, rebuildIndex).
 */
module DriveRestoring {
  import opened Prelude
  import opened DriveIndex
  import opened DriveMachine
  import opened DriveReplay
  import opened DriveSafety
  import opened DriveRuns
  import opened DriveLive
  import opened DriveFencing
  import opened DriveFacts
  import opened DriveAlways
  import opened DriveFaults
  import opened DriveBoots
  import opened DrivePurge
  import opened DriveRevival

  // ----- while nothing is missing --------------------------------------------------------------------------------

  lemma RememberedSucceeds(s: State)
    requires Facts(s) && Recorded(s) && NothingForgotten(s.ix, s.journal)
    ensures PurgeFree(s.journal)
  {
    hide NamesTold, PointersTold, RowsTold, LinesWhole, Live, Trail;
    forall v
      ensures !Forgotten(s, v)
    {
      if HasLine(s.journal, v) {
        var i :| 0 <= i < |s.journal| && IsLineOf(s.journal[i], v);
        assert s.journal[i].version in s.ix.versions;
      }
    }
  }

  /** What the journal says of a version that is there. */
  lemma CommittedHolds(s: State, i: nat)
    requires Facts(s) && Chronicle(s) && HighWaterIsMax(s.ix.fences, s.journal)
    requires i < |s.journal| && s.journal[i].VersionCommitted? && s.journal[i].version in s.ix.versions
    ensures LineHolds(s.journal[i], s.ix)
  {
    hide RowsUnique, NamesUnique, RefsCounted, LinesApart, NoneAborted, RowsTold, PointersTold;
    var e := s.journal[i];
    assert LineKnown(s, e) && s.ix.versions[e.version].Journaled().artifact == e.row.artifact;
    assert LineNames(e, e.row.artifact, e.row.ticket, e.logicalName);
    assert NamedAs(s, e.row.artifact, e.row.ticket, e.logicalName);
    var at := s.ix.artifacts[e.row.artifact];
    assert NamesArtifact(s.ix.artifacts, e.row.artifact, at.ticket, at.name);
    assert NamedAs(s, e.row.artifact, at.ticket, at.name);
    assert e.row.fence.Some? ==> Carries(e, e.row.ticket);
  }

  lemma MoveHolds(s: State, i: nat)
    requires Facts(s) && MovesLined(s.journal) && NothingForgotten(s.ix, s.journal)
    requires i < |s.journal| && s.journal[i].PointerMove?
    ensures LineHolds(s.journal[i], s.ix)
  {
    hide Sound, LinesWhole, RowsTold, NamesTold;
    var e := s.journal[i];
    assert MoveLined(s.journal, i);
    var k :| 0 <= k < i && IsLineOf(s.journal[k], e.to.value);
    assert s.journal[k].version in s.ix.versions;
    assert LinePoints(e, e.artifact, e.to.value);
    assert Pointed(s, e.artifact, e.to.value);
    assert Owns(s, e.artifact, e.to.value);
  }

  lemma RememberedHolds(s: State)
    requires Facts(s) && Recorded(s) && Fenced(s) && NothingForgotten(s.ix, s.journal)
    ensures LinesHold(s.journal, s.ix) && TipsHold(s.journal, s.ix) && Consistent(s.ix)
  {
    RememberedSucceeds(s);
    hide Facts, Chronicle, Consistent, LineHolds, TipsHold, MovesLined, LinesAscend, PrintsKept, TokensSorted,
      HighWaterIsMax, PurgesForget, PurgesNamed;
    forall i | 0 <= i < |s.journal|
      ensures LineHolds(s.journal[i], s.ix)
    {
      if s.journal[i].VersionCommitted? {
        CommittedHolds(s, i);
      } else if s.journal[i].PointerMove? {
        MoveHolds(s, i);
      } else {
        OtherHolds(s, i);
      }
    }
  }

  lemma OtherHolds(s: State, i: nat)
    requires PurgeFree(s.journal) && AbortedGone(s.ix, s.journal)
    requires i < |s.journal| && !s.journal[i].VersionCommitted? && !s.journal[i].PointerMove?
    ensures LineHolds(s.journal[i], s.ix)
  {
  }

  /** A boot changes nothing exactly when nothing is missing. */
  lemma FixedIff(s: State)
    requires Facts(s) && Recorded(s) && Fenced(s)
    ensures Rebuild(s.ix, s.journal) == Some(s.ix) <==> NothingForgotten(s.ix, s.journal)
  {
    hide Facts, Recorded, Fenced, Consistent, LinesHold, TipsHold, NothingForgotten;
    if Rebuild(s.ix, s.journal) == Some(s.ix) {
      BootRevives(s);
    }
    if NothingForgotten(s.ix, s.journal) {
      RememberedHolds(s);
      ReplayOverLive(s.ix, s.journal);
    }
  }

  // ----- replaying over any part of such tables ------------------------------------------------------------------

  /**
   * The byte-holding rows, the blobs with their refcounts, the fences, and the artifacts with bytes are all there
   * again.
   */
  ghost predicate Restored(r: Index, ix: Index) {
    && ByteRows(r.versions) == ByteRows(ix.versions)
    && r.blobs == ix.blobs
    && r.fences == ix.fences
    && ArtifactsAgree(r, ix)
    && forall a | a in r.artifacts :: a in ix.artifacts
  }

  lemma PartClear(s: State, ix: Index)
    requires StartsFrom(s, ix) && LinesHold(s.journal, s.ix)
    ensures NamesClear(ix, s.journal)
  {
    FactsSound(s);
    hide Facts, Recorded, RowsLinked, RowsUnique, RefsCounted, ShasLinked;
    forall i | 0 <= i < |s.journal| && s.journal[i].VersionCommitted?
      ensures NamesArtifact(s.ix.artifacts, s.journal[i].row.artifact, s.journal[i].row.ticket,
                            s.journal[i].logicalName)
    {
      assert LineHolds(s.journal[i], s.ix);
    }
  }

  lemma PartRows(s: State, ix: Index, f: Index)
    requires StartsFrom(s, ix) && NothingForgotten(s.ix, s.journal) && ReplayLines(ix, s.journal) == Some(f)
    ensures ByteRows(f.versions) == ByteRows(s.ix.versions)
  {
    hide ReplayLines, PurgeFree, Sourced, ByteRows, NothingForgotten;
    ReplayedAll(s, ix);
    ReplaySourced(ix, s.journal);
    RecordedRows(s);
    PartIsPart(s, ix);
    hide StartsFrom, HasLine, PartOf;
    PartRowsBack(s, ix, f);
    PartRowsThere(s, f);
    SameByteRows(f.versions, s.ix.versions);
  }

  lemma PartIsPart(s: State, ix: Index)
    requires StartsFrom(s, ix)
    ensures PartOf(ix, s.ix)
  {
    hide Facts, Recorded;
  }

  lemma RecordedRows(s: State)
    requires Facts(s) && Recorded(s)
    ensures RowsJournaled(s.ix, s.journal)
    ensures forall i | 0 <= i < |s.journal| && s.journal[i].VersionCommitted? :: Whole(s.ix, s.journal[i])
  {
    LinesWholeHere(s);
    hide Facts, Live, Trail;
  }

  lemma SameByteRows(a: map<Id, VersionRow>, b: map<Id, VersionRow>)
    requires forall w | w in a :: w in b && a[w].Journaled() == b[w].Journaled()
    requires forall w | w in b && !b[w].IsMarker() :: w in a
    ensures ByteRows(a) == ByteRows(b)
  {
    assert forall w | w in a :: a[w].Journaled().sha == b[w].Journaled().sha;
  }

  lemma PartRowsThere(s: State, f: Index)
    requires RowsJournaled(s.ix, s.journal)
    requires forall i | 0 <= i < |s.journal| && s.journal[i].VersionCommitted? :: s.journal[i].version in f.versions
    ensures forall w | w in s.ix.versions && !s.ix.versions[w].IsMarker() :: w in f.versions
  {
    forall w | w in s.ix.versions && !s.ix.versions[w].IsMarker()
      ensures w in f.versions
    {
      assert HasLine(s.journal, w);
      var i :| 0 <= i < |s.journal| && IsLineOf(s.journal[i], w);
      assert s.journal[i].version in f.versions;
    }
  }

  lemma PartRowsBack(s: State, ix: Index, f: Index)
    requires PartOf(ix, s.ix) && Sourced(f, ix, s.journal) && NothingForgotten(s.ix, s.journal)
    requires forall i | 0 <= i < |s.journal| && s.journal[i].VersionCommitted? :: Whole(s.ix, s.journal[i])
    ensures forall w | w in f.versions ::
            w in s.ix.versions && f.versions[w].Journaled() == s.ix.versions[w].Journaled()
  {
    hide ShasLinked;
    forall w | w in f.versions
      ensures w in s.ix.versions && f.versions[w].Journaled() == s.ix.versions[w].Journaled()
    {
      assert RowSourced(f, ix, s.journal, w);
      if i :| 0 <= i < |s.journal| && IsLineOf(s.journal[i], w) && s.journal[i].row.Journaled() == f.versions[w] {
        assert Whole(s.ix, s.journal[i]);
      }
    }
  }

  lemma PartArtifacts(s: State, ix: Index, f: Index)
    requires StartsFrom(s, ix) && LinesHold(s.journal, s.ix) && ReplayLines(ix, s.journal) == Some(f)
    ensures ArtifactsAgree(f, s.ix)
    ensures forall a | a in f.artifacts :: a in ix.artifacts || (a in s.ix.artifacts && HasBytes(s.ix.versions, a))
  {
    ReplayedTips(s, ix);
    ReplaySourced(ix, s.journal);
    hide ReplayLines, Facts, Live, LinesApart, NoneAborted, LinesKnown, PurgesForget, PurgesNamed, MovesLined,
      LinesAscend, PrintsKept;
    forall a | a in s.ix.artifacts && HasBytes(s.ix.versions, a)
      ensures SameArtifact(f, s.ix, a)
    {
      PartArtifact(s, ix, f, a);
      assert TipHolds(s.journal, s.ix, a);
    }
    forall a | a in f.artifacts && a !in ix.artifacts
      ensures a in s.ix.artifacts && HasBytes(s.ix.versions, a)
    {
      AdoptedHasBytes(s, ix, f, a);
    }
  }

  lemma AdoptedHasBytes(s: State, ix: Index, f: Index, a: Id)
    requires Sourced(f, ix, s.journal) && LinesHold(s.journal, s.ix) && a in f.artifacts && a !in ix.artifacts
    ensures a in s.ix.artifacts && HasBytes(s.ix.versions, a)
  {
    assert NamesArtifact(f.artifacts, a, f.artifacts[a].ticket, f.artifacts[a].name);
    assert NameSourced(ix, s.journal, a, f.artifacts[a].ticket, f.artifacts[a].name);
    var i :| 0 <= i < |s.journal| && LineNames(s.journal[i], a, f.artifacts[a].ticket, f.artifacts[a].name);
    hide Sourced, LinesHold, HasBytes;
    LineHasBytes(s, i);
  }

  lemma LineHasBytes(s: State, i: nat)
    requires LinesHold(s.journal, s.ix) && i < |s.journal| && s.journal[i].VersionCommitted?
    ensures s.journal[i].row.artifact in s.ix.artifacts && HasBytes(s.ix.versions, s.journal[i].row.artifact)
  {
    assert LineHolds(s.journal[i], s.ix);
    assert s.ix.versions[s.journal[i].version].Journaled().sha.Some?;
    assert s.ix.versions[s.journal[i].version].Journaled().artifact == s.journal[i].row.artifact;
  }

  /** An artifact with bytes is back under its name. */
  lemma PartArtifact(s: State, ix: Index, f: Index, a: Id)
    requires StartsFrom(s, ix) && LinesHold(s.journal, s.ix) && ReplayLines(ix, s.journal) == Some(f)
    requires a in s.ix.artifacts && HasBytes(s.ix.versions, a)
    ensures NamesArtifact(f.artifacts, a, s.ix.artifacts[a].ticket, s.ix.artifacts[a].name)
  {
    hide ReplayLines, Facts, Live, Trail, LinesApart, NoneAborted, LinesKnown, PurgesForget, PurgesNamed;
    var w :| w in s.ix.versions && s.ix.versions[w].artifact == a && !s.ix.versions[w].IsMarker();
    assert HasLine(s.journal, w);
    var i :| 0 <= i < |s.journal| && IsLineOf(s.journal[i], w);
    assert LineHolds(s.journal[i], s.ix) && s.ix.versions[w].Journaled().artifact == a;
    ReplayedNames(s, ix, i);
  }

  lemma PartFences(f: map<Ticket, nat>, start: map<Ticket, nat>, live: map<Ticket, nat>, lines: seq<Event>)
    requires ReplayedFences(f, start, lines) && HighWaterIsMax(live, lines)
    requires forall t | t in start :: t in live && start[t] == live[t]
    ensures f == live
  {
    forall t | t in live
      ensures t in f && live[t] <= f[t]
    {
      var i :| 0 <= i < |lines| && Carries(lines[i], t) && lines[i].row.fence.value == live[t];
    }
    forall t | t in f
      ensures t in live && f[t] <= live[t]
    {
      if Carried(lines, t, f[t]) {
        var i :| 0 <= i < |lines| && Carries(lines[i], t) && lines[i].row.fence.value == f[t];
      }
    }
  }

  lemma PartPrints(s: State, ix: Index, f: Index)
    requires PartOf(ix, s.ix) && PrintsKept(s.ix, s.journal) && PurgeFree(s.journal) && WalkBlobs(f, ix, s.journal)
    ensures forall x: Sha :: PrintIn(f.blobs, x) == PrintIn(s.ix.blobs, x)
  {
    hide FirstPrint, ShasLinked;
    forall x: Sha
      ensures PrintIn(f.blobs, x) == PrintIn(s.ix.blobs, x)
    {
      assert PrintIn(s.ix.blobs, x) == FirstPrint(s.journal, x);
      assert x in ix.blobs ==> PrintIn(f.blobs, x) == PrintIn(ix.blobs, x);
    }
  }

  lemma CountsAgree(f: Index, ix: Index)
    requires ByteRows(f.versions) == ByteRows(ix.versions) && RefsCounted(ix)
    requires forall x: Sha :: PrintIn(f.blobs, x) == PrintIn(ix.blobs, x)
    ensures Recount(f).blobs == ix.blobs
  {
    hide RefCount, ByteRows;
    forall x: Sha
      ensures x in f.blobs <==> x in ix.blobs
      ensures RefCount(f.versions, x) == RefCount(ix.versions, x)
    {
      assert PrintIn(f.blobs, x) == PrintIn(ix.blobs, x);
      RefCountByteRows(f.versions, x);
      RefCountByteRows(ix.versions, x);
    }
    forall x | x in ix.blobs
      ensures Recount(f).blobs[x] == ix.blobs[x]
    {
      assert PrintIn(f.blobs, x) == PrintIn(ix.blobs, x);
    }
  }

  /** While nothing is missing, a replay over any part of the tables succeeds and restores the rest. */
  lemma PartRestored(s: State, ix: Index)
    requires StartsFrom(s, ix) && Fenced(s) && NothingForgotten(s.ix, s.journal)
    ensures Rebuild(ix, s.journal).Some? && Restored(Rebuild(ix, s.journal).value, s.ix)
    ensures forall a | a in Rebuild(ix, s.journal).value.artifacts ::
              a in ix.artifacts || (a in s.ix.artifacts && HasBytes(s.ix.versions, a))
  {
    RememberedSucceeds(s);
    RememberedHolds(s);
    PartClear(s, ix);
    assert s.journal[..|s.journal|] == s.journal;
    ReplaySucceeds(ix, s.journal, |s.journal|);
    var f := ReplayLines(ix, s.journal).value;
    PartTables(s, ix, f);
    hide ReplayLines, StartsFrom, Fenced, NothingForgotten, PurgeFree, NamesClear, ByteRows, RefCount, LinesHold,
      TipsHold, Consistent;
    PartArtifacts(s, ix, f);
    PartAgrees(f, s.ix);
    PartInside(s, ix);
  }

  lemma PartInside(s: State, ix: Index)
    requires StartsFrom(s, ix)
    ensures forall a | a in ix.artifacts :: a in s.ix.artifacts
  {
  }

  lemma PartAgrees(f: Index, ix: Index)
    requires ArtifactsAgree(f, ix)
    ensures ArtifactsAgree(Recount(f), ix)
  {
    forall a | a in ix.artifacts && HasBytes(ix.versions, a)
      ensures SameArtifact(Recount(f), ix, a)
    {
      assert SameArtifact(f, ix, a);
    }
  }

  lemma PartTables(s: State, ix: Index, f: Index)
    requires StartsFrom(s, ix) && Fenced(s) && NothingForgotten(s.ix, s.journal) && PurgeFree(s.journal)
    requires ReplayLines(ix, s.journal) == Some(f)
    ensures ByteRows(f.versions) == ByteRows(s.ix.versions) && f.fences == s.ix.fences
    ensures Recount(f).blobs == s.ix.blobs
  {
    PartRows(s, ix, f);
    ReplayFences(ix, s.journal);
    ReplayBlobs(ix, s.journal);
    FactsSound(s);
    hide ReplayLines, Facts, Live, Chronicle, NothingForgotten, ByteRows, ReplayedFences, HighWaterIsMax, WalkBlobs,
      PurgeFree, MovesLined, LinesAscend, PrintsKept, RefsCounted, RowsLinked, RowsUnique, Recount, PrintIn, ShasLinked;
    PartFences(f.fences, ix.fences, s.ix.fences, s.journal);
    PartPrints(s, ix, f);
    CountsAgree(f, s.ix);
  }

  /** Nothing but lines: every row holds bytes and lacks the hint. */
  lemma FromNothing(s: State)
    requires Facts(s) && Rebuild(EMPTY, s.journal).Some?
    ensures var r := Rebuild(EMPTY, s.journal).value; ByteRows(r.versions) == r.versions
  {
    ReplaySourced(EMPTY, s.journal);
    hide ReplayLines, Sound, RowsTold, NamesTold, PointersTold;
    var r := Rebuild(EMPTY, s.journal).value;
    forall w | w in r.versions
      ensures !r.versions[w].IsMarker() && r.versions[w].Journaled() == r.versions[w]
    {
      assert RowSourced(ReplayLines(EMPTY, s.journal).value, EMPTY, s.journal, w);
      var i :| 0 <= i < |s.journal| && IsLineOf(s.journal[i], w) && s.journal[i].row.Journaled() == r.versions[w];
      assert LineWhole(s.journal[i]);
    }
  }

  /** The journal alone rebuilds the live tables exactly when nothing it committed is missing from them. */
  lemma RebuildableIffRemembered(s: State)
    requires Facts(s) && Recorded(s) && Fenced(s)
    ensures Rebuildable(s) <==> NothingForgotten(s.ix, s.journal)
  {
    if NothingForgotten(s.ix, s.journal) {
      StartsItself(s);
      PartRestored(s, EMPTY);
      FromNothing(s);
      hide Facts, Recorded, Fenced, Rebuild, ByteRows, ArtifactsAgree;
    } else {
      var i :| 0 <= i < |s.journal| && s.journal[i].VersionCommitted? && s.journal[i].version !in s.ix.versions;
      FactsMinted(s);
      assert About(s.journal[i], s.journal[i].version) && IsLineOf(s.journal[i], s.journal[i].version);
      hide Facts, Live, Chronicle, Trail, Rebuild, Fenced, Rebuildable;
      ForgottenBreaks(s, s.journal[i].version);
    }
  }

  // ----- a boot that comes up keeps everything recorded, and nothing is missing behind it ------------------------

  /** The state behind such a boot. */
  ghost predicate Awake(s: State, t: State) {
    && Facts(s) && Recorded(s) && Facts(t) && t == s.(ix := t.ix) && Revived(t.ix, s) && PurgeFree(s.journal)
  }

  /** A row that came back is its line's. */
  lemma RevivedRow(s: State, t: State, w: Id)
    requires Awake(s, t) && w in t.ix.versions && w !in s.ix.versions
    ensures HasLine(s.journal, w) && t.ix.versions[w].sha.Some? && t.ix.versions[w].op.ClientOp?
  {
    hide Recorded, Sound, NamesTold, PointersTold, RefCount, Tip;
    var i :| 0 <= i < |s.journal| && IsLineOf(s.journal[i], w);
    assert t.ix.versions[w].Journaled() == t.journal[i].row && LineWhole(t.journal[i]);
  }

  lemma AwakePointers(s: State, t: State)
    requires Awake(s, t)
    ensures PointersValid(t.ix)
  {
    FactsPointers(t);
    hide Facts, Live, Chronicle, Trail, RefCount;
    forall a | a in t.ix.artifacts
      ensures PointerValid(t.ix, a)
    {
      assert t.ix.artifacts[a].current == Tip(s.journal, a);
      if t.ix.artifacts[a].current.Some? {
        var i := LastMoveFound(s.journal, a);
        var j := TargetLine(s, i, a, t.ix.artifacts[a].current.value);
        assert s.journal[j].version in t.ix.versions;
      }
    }
  }

  lemma AwakeOrphans(s: State, t: State)
    requires Awake(s, t)
    ensures NoOrphans(t.ix)
  {
    hide Facts, Chronicle, Trail, Tip, HasLine, CommittedTo, NothingForgotten;
    forall x | x in t.ix.blobs
      ensures t.ix.blobs[x].refcount >= 1
    {
      LiveCounts(s, x);
      RefCountZero(s.ix.versions, x);
      var v :| v in s.ix.versions && s.ix.versions[v].sha == Some(x);
      assert t.ix.versions[v] == s.ix.versions[v];
      RefCountZero(t.ix.versions, x);
    }
  }

  lemma AwakeKeyed(s: State, t: State)
    requires Awake(s, t)
    ensures MarkersKeyed(t.ix.versions) && OpsTyped(t.ix.versions)
  {
    hide Facts, Chronicle, Trail, Tip, HasLine, CommittedTo, NothingForgotten, RefCount, Consistent;
    forall w | w in t.ix.versions
      ensures t.ix.versions[w].op.MarkerOp? ==> t.ix.versions[w].op.marker == w
      ensures t.ix.versions[w].op.MarkerOp? <==> t.ix.versions[w].IsMarker()
    {
      if w !in s.ix.versions {
        RevivedRow(s, t, w);
      }
    }
  }

  lemma AwakeIds(s: State, t: State)
    requires Awake(s, t)
    ensures IdsMinted(t) && SessionsLinked(t)
  {
    hide Chronicle, Trail, Tip, HasLine, CommittedTo, NothingForgotten, RefCount, Sound, LinesWhole, RowsTold,
      PointersTold, Consistent;
    forall a | a in t.ix.artifacts
      ensures a < t.next
    {
      assert NamesArtifact(t.ix.artifacts, a, t.ix.artifacts[a].ticket, t.ix.artifacts[a].name);
      assert NamedAs(t, a, t.ix.artifacts[a].ticket, t.ix.artifacts[a].name);
    }
    forall u | u in t.uploads && t.uploads[u].artifact in t.ix.artifacts
      ensures NamesArtifact(t.ix.artifacts, t.uploads[u].artifact, t.uploads[u].ticket, t.uploads[u].name)
    {
      SessionArtifact(t, u);
    }
  }

  lemma AwakeLive(s: State, t: State)
    requires Awake(s, t)
    ensures Live(t) && OpsTyped(t.ix.versions)
  {
    AwakePointers(s, t);
    AwakeOrphans(s, t);
    AwakeKeyed(s, t);
    AwakeIds(s, t);
    FactsSound(t);
    AwakeSessions(s, t);
    hide Awake, Facts, PointersValid, NoOrphans, MarkersKeyed, IdsMinted, SessionsLinked, SessionsUnique;
  }

  lemma AwakeSessions(s: State, t: State)
    requires Awake(s, t)
    ensures SessionsUnique(t.uploads)
  {
    hide Facts, Chronicle, Trail, Consistent, Revived;
  }

  lemma AwakeChronicle(s: State, t: State)
    requires Awake(s, t)
    ensures Chronicle(t)
  {
    hide Live, Trail, Tip, CommittedTo, RefCount, Sound, NamesTold, PointersTold, LinesApart, NoneAborted;
    forall i | 0 <= i < |t.journal|
      ensures LineKnown(t, t.journal[i])
    {
      assert LineKnown(s, s.journal[i]);
    }
    forall v | v in t.ix.versions && !t.ix.versions[v].IsMarker()
      ensures HasLine(t.journal, v)
    {
      if v in s.ix.versions {
        assert t.ix.versions[v] == s.ix.versions[v];
      }
    }
  }

  /** Behind the boot the tip of an artifact is the highest of its rows when it was committed last. */
  lemma AwakeTip(s: State, t: State, a: Id, w: Id, e: Event)
    requires Awake(s, t) && a in t.ix.artifacts && LastMove(s.journal, a) == Some(e) && e.VersionCommitted?
    requires w in t.ix.versions && t.ix.versions[w].artifact == a
    ensures t.ix.versions[w].seqNo <= e.row.seqNo
  {
    hide Facts, Live, Chronicle, RefCount, Tip, CommittedTo, NothingForgotten;
    if w in s.ix.versions {
      RowHasArtifact(s, w);
      assert t.ix.versions[w] == s.ix.versions[w];
      assert TipHolds(s.journal, s.ix, a);
    } else {
      RevivedBelow(s, t, a, w, e);
    }
  }

  lemma RevivedBelow(s: State, t: State, a: Id, w: Id, e: Event)
    requires Facts(t) && t.journal == s.journal && LinesAscend(s.journal) && HasLine(s.journal, w)
    requires LastMove(s.journal, a) == Some(e) && e.VersionCommitted?
    requires w in t.ix.versions && t.ix.versions[w].artifact == a
    ensures t.ix.versions[w].seqNo <= e.row.seqNo
  {
    hide Sound, LinesWhole, NamesTold, PointersTold;
    var j :| 0 <= j < |s.journal| && IsLineOf(s.journal[j], w);
    assert t.ix.versions[w].Journaled() == t.journal[j].row;
    var i := LastMoveFound(s.journal, a);
    assert Moves(s.journal[j], a);
  }

  lemma RowHasArtifact(s: State, w: Id)
    requires Recorded(s) && w in s.ix.versions
    ensures s.ix.versions[w].artifact in s.ix.artifacts
  {
  }

  lemma AwakeTips(s: State, t: State)
    requires Awake(s, t)
    ensures TipsHold(t.journal, t.ix)
  {
    forall a | a in t.ix.artifacts
      ensures TipHolds(t.journal, t.ix, a)
    {
      assert t.ix.artifacts[a].current == Tip(s.journal, a);
      if LastMove(s.journal, a).Some? && LastMove(s.journal, a).value.VersionCommitted? {
        forall w | w in t.ix.versions && t.ix.versions[w].artifact == a
          ensures t.ix.versions[w].seqNo <= LastMove(s.journal, a).value.row.seqNo
        {
          AwakeTip(s, t, a, w, LastMove(s.journal, a).value);
        }
      }
      hide Awake;
    }
  }

  lemma LinedNotAborted(lines: seq<Event>, v: Id)
    requires NoneAborted(lines) && HasLine(lines, v)
    ensures forall i | 0 <= i < |lines| :: lines[i] != Aborted(v)
  {
    var k :| 0 <= k < |lines| && IsLineOf(lines[k], v);
  }

  lemma AwakeTrail(s: State, t: State)
    requires Awake(s, t)
    ensures Trail(t.ix, t.journal)
  {
    AwakeTips(s, t);
    hide Facts, Live, TipsHold, MovesLined, LinesAscend, LinesApart, LinesKnown, FirstPrint, Tip, CommittedTo, RefCount,
      NothingForgotten, HasLine;
    forall v | v in t.ix.versions
      ensures forall i | 0 <= i < |t.journal| :: t.journal[i] != Aborted(v)
    {
      if v !in s.ix.versions {
        LinedNotAborted(s.journal, v);
      }
    }
    forall x: Sha
      ensures PrintIn(t.ix.blobs, x) == PrintIn(s.ix.blobs, x)
    {
    }
  }

  lemma AwakeRecorded(s: State, t: State)
    requires Awake(s, t)
    ensures Recorded(t) && NothingForgotten(t.ix, t.journal)
  {
    AwakeLive(s, t);
    AwakeChronicle(s, t);
    AwakeTrail(s, t);
    AwakeRest(s, t);
    hide Awake, Live, Chronicle, Trail, LinesMinted, PurgesForget, PurgesNamed, OpsTyped;
  }

  lemma AwakeRest(s: State, t: State)
    requires Awake(s, t)
    ensures LinesMinted(t) && PurgesForget(t) && PurgesNamed(t.journal) && NothingForgotten(t.ix, t.journal)
  {
    hide Facts, Live, Chronicle, Trail;
  }

  lemma BootRecorded(s: State)
    requires Facts(s) && Recorded(s) && Fenced(s)
    ensures Recorded(Reboot(s))
    ensures Rebuild(s.ix, s.journal).Some? ==>
              Revived(Reboot(s).ix, s) && NothingForgotten(Reboot(s).ix, s.journal)
  {
    hide Facts, Recorded, Fenced, Revived, PurgeFree;
    if Rebuild(s.ix, s.journal).Some? {
      StartsItself(s);
      hide StartsFrom;
      SucceedsIff(s, s.ix);
      BootRevives(s);
      BootFacts(s);
      hide Rebuild;
      AwakeRecorded(s, Reboot(s));
    }
  }
}
