/**
 * Crash atomicity of the index: whatever prefix of a journal line survives a crash, booting gives
 * exactly the tables from before the operation or those from after it.
 */
module DriveCrash {
  import opened Prelude
  import opened DriveIndex
  import opened DriveMachine
  import opened DriveReplay
  import opened DriveSafety
  import opened DriveRuns
  import opened DriveJournal

  /** Equal on everything a boot can restore: all but delete-marker rows and client MIME hints. */
  ghost predicate SameTables(x: Index, y: Index) {
    && ByteRows(x.versions) == ByteRows(y.versions)
    && x.artifacts == y.artifacts
    && x.blobs == y.blobs
    && x.fences == y.fences
  }

  /** The file a crash leaves when `k` characters of the operation's own line reached it. */
  function CrashFile(lines: seq<Event>, e: Event, k: nat, encode: Event -> string): string
    requires k <= |encode(e) + "\n"|
  {
    FileOf(lines, encode) + (encode(e) + "\n")[..k]
  }

  lemma CrashReads(lines: seq<Event>, e: Event, k: nat, encode: Event -> string, parse: string -> Option<Event>)
    requires Codec(encode, parse) && k <= |encode(e) + "\n"|
    ensures ReadText(CrashFile(lines, e, k, encode), parse).Lines?
    ensures ReadText(CrashFile(lines, e, k, encode), parse).lines == if k < |encode(e)| then lines else lines + [e]
    ensures ReadText(CrashFile(lines, e, k, encode), parse).torn <==> 0 < k < |encode(e)|
  {
    var tail := (encode(e) + "\n")[..k];
    ReadAfter(lines, tail, encode, parse);
    assert FileOf([e], encode) == encode(e) + "\n" + FileOf([e][1..], encode);
    assert FileOf([e], encode) == encode(e) + "\n";
    ReadsPrefix([e], encode, parse, k);
    assert lines + [] == lines && [e][..1] == [e] && [e][..0] == [];
  }

  /** The operations that journal exactly one line when they succeed. */
  ghost predicate Lined(s: State, op: Op, limits: Limits, e: Event) {
    && Interruptible(op)
    && Step(s, op, limits).journal == s.journal + [e]
    && !e.Aborted?
  }

  lemma CommitRedone(s: State, p: Principal, u: Id, mat: Material, now: nat, limits: Limits, fault: Fault, e: Event)
    requires SafeState(s) && Commit(s, p, u, mat, now, limits, fault).after.journal == s.journal + [e] && !e.Aborted?
    ensures var t := Commit(s, p, u, mat, now, limits, fault).after;
            && s.next !in s.ix.versions
            && Rebuild(s.ix, s.journal + [e]).Some?
            && SameTables(Rebuild(s.ix, s.journal + [e]).value, t.ix)
            && s.next in Rebuild(s.ix, s.journal + [e]).value.versions
  {
    hide Safe, Commit, CommitTxn, CommitIndex;
    CommitIsTxn(s, p, u, mat, now, limits, fault);
    CommitFirstLine(s, u, mat, now, fault);
    NothingAborted(s);
    var v, up, row := s.next, s.uploads[u], NewRow(s.ix, s.uploads[u], mat, now);
    var t := Commit(s, p, u, mat, now, limits, fault).after;
    assert t.journal[|s.journal|] == e;
    SessionAdmits(s, u, mat, now);
    CommitLineReboots(s.ix, s.journal, v, row, up.name);
    CommitSucceeds(s, u, mat, now, fault);
    HintsDiffer(s.ix, v, row);
  }

  lemma CommitSucceeds(s: State, u: Id, mat: Material, now: nat, fault: Fault)
    requires u in s.uploads && |CommitTxn(s, u, mat, now, fault).after.journal| == |s.journal| + 1
    requires !Last(CommitTxn(s, u, mat, now, fault).after.journal).Aborted?
    ensures CommitTxn(s, u, mat, now, fault).after.ix == CommitIndex(s.ix, s.next, NewRow(s.ix, s.uploads[u], mat, now))
  {
    hide Clashes, CommitIndex;
  }

  lemma HintRows(versions: map<Id, VersionRow>, v: Id, row: VersionRow)
    ensures ByteRows(versions[v := row.Journaled()]) == ByteRows(versions[v := row])
  {
  }

  lemma HintsDiffer(ix: Index, v: Id, row: VersionRow)
    requires row.sha.Some?
    ensures SameTables(CommitIndex(ix, v, row.Journaled()), CommitIndex(ix, v, row))
    ensures v in CommitIndex(ix, v, row.Journaled()).versions
  {
    HintRows(ix.versions, v, row);
    hide ByteRows, AddRef, RaiseFence;
  }

  lemma MarkerInvisible(s: State, p: Principal, a: Id, now: nat, e: Event)
    requires s.next !in s.ix.versions && Delete(s, p, a, now).after.journal == s.journal + [e]
    ensures e == DeleteMarker(s.next, a)
    ensures SameTables(SetPointer(s.ix, a, None), Delete(s, p, a, now).after.ix)
  {
    hide Clashes, MaxSeq, ByteRows;
    var t := Delete(s, p, a, now).after;
    assert t.journal[|s.journal|] == e;
    MarkerNotByteRow(s.ix.versions, s.next, MarkerRow(s.ix, a, s.next, p.sub, now));
  }

  lemma MarkerNotByteRow(versions: map<Id, VersionRow>, v: Id, row: VersionRow)
    requires v !in versions && row.IsMarker()
    ensures ByteRows(versions[v := row]) == ByteRows(versions)
  {
  }

  lemma DeleteRedone(s: State, p: Principal, a: Id, now: nat, e: Event)
    requires SafeState(s) && Delete(s, p, a, now).after.journal == s.journal + [e]
    ensures Rebuild(s.ix, s.journal + [e]).Some?
    ensures SameTables(Rebuild(s.ix, s.journal + [e]).value, Delete(s, p, a, now).after.ix)
  {
    hide Safe, Delete, SameTables;
    NothingAborted(s);
    MarkerInvisible(s, p, a, now, e);
    MintingKeepsSafe(s.ix, s.journal, s.next, s.next + 1);
    DeleteExists(s, p, a, now);
    PointerReboots(s.ix, s.journal, s.next + 1, a, None, e);
  }

  lemma DeleteExists(s: State, p: Principal, a: Id, now: nat)
    requires Delete(s, p, a, now).after != s
    ensures a in s.ix.artifacts
  {
  }

  lemma RestoreRedone(s: State, a: Id, v: Id, e: Event)
    requires SafeState(s) && Restore(s, a, v).after.journal == s.journal + [e]
    ensures Rebuild(s.ix, s.journal + [e]) == Some(Restore(s, a, v).after.ix)
  {
    assert Restore(s, a, v).after.journal[|s.journal|] == e;
    SafeMeans(s.ix, s.journal, s.next);
    PointerReplayed(s.ix, s.journal, a, Some(v), e);
  }

  /** What a boot makes of a surviving journal file, starting from the index the database kept. */
  function BootFrom(kept: Index, file: string, parse: string -> Option<Event>): Option<Index> {
    match ReadText(file, parse)
    case Corrupt(_) => None
    case Lines(lines, _) => Rebuild(kept, lines)
  }

  /** Nothing of the operation survives a crash that lost part of its line. */
  ghost predicate CrashUndoes(s: State, e: Event, k: nat, encode: Event -> string, parse: string -> Option<Event>)
    requires k <= |encode(e) + "\n"|
  {
    BootFrom(s.ix, CrashFile(s.journal, e, k, encode), parse) == Some(s.ix)
  }

  /** All of the operation survives a crash that kept its line. */
  ghost predicate CrashRedoes(s: State, after: State, e: Event, k: nat, encode: Event -> string,
                              parse: string -> Option<Event>)
    requires k <= |encode(e) + "\n"|
  {
    var booted := BootFrom(s.ix, CrashFile(s.journal, e, k, encode), parse);
    booted.Some? && SameTables(booted.value, after.ix) && (e.VersionCommitted? ==> booted != Some(s.ix))
  }

  /**
   * A commit, delete marker or restore interrupted anywhere in a safe run: if its transaction is
   * lost, booting restores exactly the tables before it when any character of its line's text is
   * missing, and the tables after it when none is.
   */
  lemma CrashAtomic(ops: seq<Op>, op: Op, limits: Limits, s: State, e: Event, k: nat,
                    encode: Event -> string, parse: string -> Option<Event>)
    requires SafeRun(ops, limits) && s == Run(ops, limits) && Lined(s, op, limits, e)
    requires Codec(encode, parse) && k <= |encode(e) + "\n"|
    ensures k < |encode(e)| ==> CrashUndoes(s, e, k, encode, parse)
    ensures k >= |encode(e)| ==> CrashRedoes(s, Step(s, op, limits), e, k, encode, parse)
  {
    hide SafeState, SafeRun, Run, Commit, Delete, Restore, SameTables;
    SafeRuns(ops, limits);
    CrashReads(s.journal, e, k, encode, parse);
    if k < |encode(e)| {
      RebootIsNoOp(ops, limits, s);
    } else {
      match op {
        case DoCommit(p, u, mat, now, fault) => CommitRedone(s, p, u, mat, now, limits, fault, e);
        case DoDelete(p, a, now) =>
          DeleteRedone(s, p, a, now, e);
          DeleteLine(s, p, a, now, e);
        case DoRestore(a, v) =>
          RestoreRedone(s, a, v, e);
          RestoreLine(s, a, v, e);
          SameTablesReflexive(Restore(s, a, v).after.ix);
      }
    }
  }

  lemma DeleteLine(s: State, p: Principal, a: Id, now: nat, e: Event)
    requires Delete(s, p, a, now).after.journal == s.journal + [e]
    ensures e.DeleteMarker?
  {
    assert Delete(s, p, a, now).after.journal[|s.journal|] == e;
  }

  lemma SameTablesReflexive(x: Index)
    ensures SameTables(x, x)
  {
  }

  lemma RestoreLine(s: State, a: Id, v: Id, e: Event)
    requires Restore(s, a, v).after.journal == s.journal + [e]
    ensures e.PointerMove?
  {
    assert Restore(s, a, v).after.journal[|s.journal|] == e;
  }

  /** When the transaction itself reached the database, booting over the complete line keeps it exactly. */
  lemma CommittedSurvives(ops: seq<Op>, op: Op, limits: Limits, s: State, e: Event,
                          encode: Event -> string, parse: string -> Option<Event>)
    requires SafeRun(ops, limits) && s == Run(ops, limits) && SafeOp(s, op, limits) && Lined(s, op, limits, e)
    requires Codec(encode, parse)
    ensures BootFrom(Step(s, op, limits).ix, CrashFile(s.journal, e, |encode(e) + "\n"|, encode), parse) ==
            Some(Step(s, op, limits).ix)
  {
    hide SafeOp, Step;
    CrashReads(s.journal, e, |encode(e) + "\n"|, encode, parse);
    assert Front(ops + [op]) == ops;
    RebootIsNoOp(ops + [op], limits, Step(s, op, limits));
  }
}
