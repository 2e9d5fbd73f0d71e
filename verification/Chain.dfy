/**
 * The hash-chained policy change log (apps/cmdb/backend/app/chainlog.py).  The hash is a parameter; where a
 * theorem needs SHA-256 not to collide it says that the parameter is injective.
 */
module Chain {
  import opened Prelude

  /** What a row's hash covers: its position, the previous row's hash and the recorded edit. */
  datatype Payload = Payload(
    seqNo: int, prev: string, ts: string, sub: string, jti: Option<string>, editKind: string, weakening: bool,
    diffHash: Option<string>, gitCommit: string)

  /** A stored row; `weakening` is an INTEGER column, `session` and `confirmToken` are outside the hash. */
  datatype Row = Row(
    seqNo: int, prev: string, hash: string, ts: string, sub: string, jti: Option<string>, session: Option<string>,
    editKind: string, weakening: int, diffHash: Option<string>, gitCommit: string, confirmToken: Option<string>)
  {
    function Hashed(): Payload {
      Payload(seqNo, prev, ts, sub, jti, editKind, weakening != 0, diffHash, gitCommit)
    }
  }

  /** What the caller of append supplies, and the clock. */
  datatype Edit = Edit(
    ts: string, sub: string, jti: Option<string>, session: Option<string>, editKind: string, weakening: bool,
    diffHash: Option<string>, gitCommit: string, confirmToken: Option<string>)

  datatype Verdict = Intact | SeqGap(at: nat) | PrevBreak(at: nat) | HashMismatch(at: nat)

  function Zeros(n: nat): (s: string)
    ensures |s| == n && forall i | 0 <= i < n :: s[i] == '0'
  {
    seq(n, i => '0')
  }

  const GENESIS_PREV := Zeros(64)

  // ----- what an intact chain is ----------------------------------------------------------------------------

  /** The link row `i` must carry. */
  function LinkAt(rows: seq<Row>, i: nat): string
    requires i <= |rows|
  {
    if i == 0 then GENESIS_PREV else rows[i - 1].hash
  }

  ghost predicate Linked(rows: seq<Row>, i: nat, h: Payload -> string)
    requires i < |rows|
  {
    rows[i].seqNo == i && rows[i].prev == LinkAt(rows, i) && rows[i].hash == h(rows[i].Hashed())
  }

  ghost predicate Chained(rows: seq<Row>, h: Payload -> string) {
    forall i | 0 <= i < |rows| :: Linked(rows, i, h)
  }

  ghost predicate Injective(h: Payload -> string) {
    forall x, y :: h(x) == h(y) ==> x == y
  }

  function Appended(rows: seq<Row>, e: Edit, h: Payload -> string): Row {
    var seqNo := if rows == [] then 0 else Last(rows).seqNo + 1;
    var prev := LinkAt(rows, |rows|);
    Row(seqNo, prev, h(Payload(seqNo, prev, e.ts, e.sub, e.jti, e.editKind, e.weakening, e.diffHash, e.gitCommit)),
        e.ts, e.sub, e.jti, e.session, e.editKind, if e.weakening then 1 else 0, e.diffHash, e.gitCommit,
        e.confirmToken)
  }

  // ----- the log --------------------------------------------------------------------------------------------

  class ChainLog {
    const hash: Payload -> string
    /** The table in primary-key order. */
    var rows: seq<Row>

    constructor (hash: Payload -> string, rows: seq<Row>)
      ensures this.hash == hash && this.rows == rows
    {
      this.hash, this.rows := hash, rows;
    }

    /** Links one row to the tip.  Appending neither repairs a broken chain nor breaks an intact one. */
    method Append(e: Edit) returns (row: Row)
      modifies this`rows
      ensures rows == old(rows) + [row] && row == Appended(old(rows), e, hash)
      ensures Chained(rows, hash) <==> Chained(old(rows), hash)
    {
      var seqNo, prev := 0, GENESIS_PREV;
      if rows != [] {
        var tip := rows[|rows| - 1];
        seqNo, prev := tip.seqNo + 1, tip.hash;
      }
      var digest := hash(Payload(seqNo, prev, e.ts, e.sub, e.jti, e.editKind, e.weakening, e.diffHash, e.gitCommit));
      row := Row(seqNo, prev, digest, e.ts, e.sub, e.jti, e.session, e.editKind, if e.weakening then 1 else 0,
                 e.diffHash, e.gitCommit, e.confirmToken);
      AppendKeeps(rows, e, hash);
      rows := rows + [row];
    }

    /** Intact exactly on a chain; otherwise it names the first bad row and the first check that row fails. */
    method Verify() returns (v: Verdict)
      ensures v == Intact <==> Chained(rows, hash)
      ensures v != Intact ==>
                && v.at < |rows| && Chained(rows[..v.at], hash)
                && (v.SeqGap? <==> rows[v.at].seqNo != v.at)
                && (v.PrevBreak? <==> rows[v.at].seqNo == v.at && rows[v.at].prev != LinkAt(rows, v.at))
    {
      var prev, i := GENESIS_PREV, 0;
      while i < |rows|
        invariant 0 <= i <= |rows|
        invariant prev == LinkAt(rows, i)
        invariant forall k | 0 <= k < i :: Linked(rows, k, hash)
      {
        var r := rows[i];
        PrefixChained(rows, i, hash);
        assert Chained(rows, hash) ==> Linked(rows, i, hash);
        if r.seqNo != i {
          return SeqGap(i);
        }
        if r.prev != prev {
          return PrevBreak(i);
        }
        if hash(r.Hashed()) != r.hash {
          return HashMismatch(i);
        }
        prev, i := r.hash, i + 1;
      }
      return Intact;
    }
  }

  lemma PrefixChained(rows: seq<Row>, k: nat, h: Payload -> string)
    requires k <= |rows| && forall i | 0 <= i < k :: Linked(rows, i, h)
    ensures Chained(rows[..k], h)
  {
    forall i | 0 <= i < k
      ensures Linked(rows[..k], i, h)
    {
      assert Linked(rows, i, h);
    }
  }

  lemma AppendKeeps(rows: seq<Row>, e: Edit, h: Payload -> string)
    ensures Chained(rows + [Appended(rows, e, h)], h) <==> Chained(rows, h)
  {
    var all := rows + [Appended(rows, e, h)];
    assert forall i | 0 <= i < |rows| :: Linked(all, i, h) <==> Linked(rows, i, h);
    if rows != [] && Chained(rows, h) {
      assert Linked(rows, |rows| - 1, h);
    }
    if Chained(rows, h) {
      assert Linked(all, |rows|, h);
    }
  }

  // ----- every log that only ever appended ------------------------------------------------------------------

  function AppendAll(edits: seq<Edit>, h: Payload -> string): seq<Row> {
    if edits == [] then []
    else
      var rows := AppendAll(Front(edits), h);
      rows + [Appended(rows, Last(edits), h)]
  }

  ghost predicate Records(r: Row, e: Edit) {
    && r.ts == e.ts && r.sub == e.sub && r.jti == e.jti && r.session == e.session && r.editKind == e.editKind
    && (r.weakening != 0 <==> e.weakening) && r.diffHash == e.diffHash && r.gitCommit == e.gitCommit
    && r.confirmToken == e.confirmToken
  }

  /** A log built by appends verifies and holds exactly the edits, in order. */
  lemma {:induction false} AppendsVerify(edits: seq<Edit>, h: Payload -> string)
    ensures Chained(AppendAll(edits, h), h)
    ensures |AppendAll(edits, h)| == |edits|
    ensures forall i | 0 <= i < |edits| :: Records(AppendAll(edits, h)[i], edits[i])
  {
    if edits != [] {
      AppendsVerify(Front(edits), h);
      AppendKeeps(AppendAll(Front(edits), h), Last(edits), h);
    }
  }

  /** In an intact log rows are numbered from zero, and each carries the hash before it, the first 64 zeros. */
  lemma ChainMeans(rows: seq<Row>, h: Payload -> string)
    requires Chained(rows, h)
    ensures forall i | 0 <= i < |rows| :: rows[i].seqNo == i && (i > 0 ==> rows[i].prev == rows[i - 1].hash)
    ensures rows != [] ==> |rows[0].prev| == 64 && forall i | 0 <= i < 64 :: rows[0].prev[i] == '0'
  {
    forall i | 0 <= i < |rows|
      ensures rows[i].seqNo == i && rows[i].prev == if i == 0 then GENESIS_PREV else rows[i - 1].hash
    {
      assert Linked(rows, i, h);
    }
    if rows != [] {
      assert Linked(rows, 0, h) && LinkAt(rows, 0) == GENESIS_PREV == Zeros(64);
    }
  }

  // ----- tamper evidence ------------------------------------------------------------------------------------

  /** The columns a hash covers, of `weakening` only whether it is zero. */
  predicate SameColumns(r: Row, q: Row) {
    && r.seqNo == q.seqNo && r.prev == q.prev && r.ts == q.ts && r.sub == q.sub && r.jti == q.jti
    && r.editKind == q.editKind && (r.weakening == 0 <==> q.weakening == 0) && r.diffHash == q.diffHash
    && r.gitCommit == q.gitCommit
  }

  /** The two logs agree on every covered column, and on the hashes. */
  ghost predicate SameHashed(a: seq<Row>, b: seq<Row>) {
    |a| == |b| && forall i | 0 <= i < |a| :: SameColumns(a[i], b[i]) && a[i].hash == b[i].hash
  }

  /** Walking back from equal hashes at row `k`: everything before agrees too. */
  lemma {:induction false} AgreeBackwards(a: seq<Row>, b: seq<Row>, k: nat, h: Payload -> string)
    requires Injective(h) && Chained(a, h) && Chained(b, h)
    requires k < |a| && k < |b| && a[k].hash == b[k].hash
    ensures forall i | 0 <= i <= k :: SameColumns(a[i], b[i]) && a[i].hash == b[i].hash
  {
    assert Linked(a, k, h) && Linked(b, k, h);
    assert a[k].Hashed() == b[k].Hashed();
    if k > 0 {
      assert a[k].Hashed().prev == b[k].Hashed().prev;
      AgreeBackwards(a, b, k - 1, h);
    }
  }

  /**
   * Tamper evidence.  Beside an intact log, another log verifies with the same tip hash exactly when it agrees
   * on every covered field of every row; the lengths need not be compared, the covered position decides them.
   */
  lemma TamperEvident(a: seq<Row>, b: seq<Row>, h: Payload -> string)
    requires Injective(h) && Chained(a, h) && a != []
    ensures Chained(b, h) && b != [] && Last(b).hash == Last(a).hash <==> SameHashed(a, b)
  {
    if Chained(b, h) && b != [] && Last(b).hash == Last(a).hash {
      assert Linked(a, |a| - 1, h) && Linked(b, |b| - 1, h);
      assert Last(a).Hashed() == Last(b).Hashed();
      assert Last(a).Hashed().seqNo == Last(b).Hashed().seqNo;
      AgreeBackwards(a, b, |a| - 1, h);
    }
    if SameHashed(a, b) {
      forall i | 0 <= i < |b|
        ensures Linked(b, i, h)
      {
        assert Linked(a, i, h);
        assert a[i].Hashed().seqNo == b[i].Hashed().seqNo && a[i].Hashed().prev == b[i].Hashed().prev;
        assert LinkAt(a, i) == LinkAt(b, i);
      }
    }
  }

  /**
   * Rewriting a covered field of one row, with or without a recomputed hash, escapes the verifier only at the
   * tip, where a correctly relinked row is a new tip: the tip hash has changed.
   */
  lemma EditDetectedIff(a: seq<Row>, i: nat, r: Row, h: Payload -> string)
    requires Injective(h) && Chained(a, h) && i < |a| && !SameColumns(r, a[i])
    ensures Chained(a[i := r], h) <==> i == |a| - 1 && Linked(a[i := r], i, h)
    ensures Chained(a[i := r], h) ==> Last(a[i := r]).hash != Last(a).hash
  {
    var b := a[i := r];
    TamperEvident(a, b, h);
    assert !SameHashed(a, b);
    if i == |a| - 1 && Linked(b, i, h) {
      forall k | 0 <= k < |b|
        ensures Linked(b, k, h)
      {
        assert Linked(a, k, h);
      }
    }
  }

  /** Cutting rows off the end always verifies; only the tip gives it away. */
  lemma TruncationShowsAtTheTip(a: seq<Row>, k: nat, h: Payload -> string)
    requires Injective(h) && Chained(a, h) && 0 < k < |a|
    ensures Chained(a[..k], h) && Last(a[..k]).hash != Last(a).hash
  {
    PrefixChained(a, k, h);
    TamperEvident(a, a[..k], h);
  }

  /** Columns no hash covers can be rewritten at will. */
  lemma UncoveredColumns(a: seq<Row>, i: nat, session: Option<string>, confirmToken: Option<string>, w: int,
                         h: Payload -> string)
    requires i < |a| && (w != 0 <==> a[i].weakening != 0)
    ensures Chained(a[i := a[i].(session := session, confirmToken := confirmToken, weakening := w)], h) <==>
            Chained(a, h)
  {
    var b := a[i := a[i].(session := session, confirmToken := confirmToken, weakening := w)];
    forall k | 0 <= k < |a|
      ensures Linked(b, k, h) <==> Linked(a, k, h)
    {
    }
  }
}
