/**
 * The Board's boot reconciliation of a restored database and the fencing counter it protects
 * (apps/board/server/src: service/backup.js, service/claim.js, service/approval.js, core/state-machine.js,
 * db/schema.js).  A restored Board is older than the world: tokens minted after the snapshot are out there,
 * but the rows that would remember them are gone.
 */
module BoardRestore {
  import opened Prelude

  // ----- tables -------------------------------------------------------------------------------------------

  type Id = nat

  datatype HoldKind = ClaimHold | ExecutionHold

  datatype Lock = Lock(holder: Option<Id>, agent: Option<string>, hold: Option<HoldKind>, expires: Option<int>,
                       generation: int)

  datatype Status =
    Todo | InProgress | AwaitingApproval | Approved | Executing | Verifying | NeedsReview | Blocked
    | Done | Failed | Cancelled

  datatype Ticket = Ticket(status: Status, claimedBy: Option<string>, expires: Option<int>, token: Option<int>,
                           reason: Option<string>, updatedAt: string)

  datatype ApprovalStatus = Granted | Consumed | Revoked | Expired

  datatype Approval = Approval(ticket: Id, status: ApprovalStatus)

  datatype HuddleStatus = Open | Converged | Escalated

  datatype Tables = Tables(locks: map<string, Lock>, tickets: map<Id, Ticket>, approvals: map<Id, Approval>,
                           huddles: map<Id, HuddleStatus>)

  /** One audit row of the reconciliation. */
  datatype Marker = Marker(floor: int, revoked: nat, requeued: nat, escalated: nat)

  function Legal(from: Status): set<Status> {
    match from
    case Todo => {InProgress, Cancelled}
    case InProgress => {Todo, AwaitingApproval, NeedsReview, Blocked}
    case AwaitingApproval => {Approved, Cancelled}
    case Approved => {Executing, Cancelled, AwaitingApproval}
    case Executing => {Verifying, NeedsReview, Failed}
    case Verifying => {Done, Failed}
    case NeedsReview => {Done, Todo}
    case Blocked => {Todo, Cancelled}
    case Done => {}
    case Failed => {}
    case Cancelled => {}
  }

  // ----- what one row becomes -----------------------------------------------------------------------------

  /** A lease the reconciliation force-expires: a claim hold that still names a ticket. */
  predicate StaleClaim(l: Lock) {
    l.hold == Some(ClaimHold) && l.holder.Some?
  }

  function Floored(l: Lock, now: int): Lock {
    l.(generation := Max(l.generation, now))
  }

  function Freed(l: Lock): Lock {
    Lock(None, None, None, None, l.generation + 1)
  }

  function Requeued(t: Ticket, iso: string): Ticket {
    t.(status := if t.status == InProgress then Todo else t.status,
       claimedBy := None, expires := None, token := None, updatedAt := iso)
  }

  function Ungranted(t: Ticket, iso: string): Ticket {
    t.(status := if t.status == Approved then AwaitingApproval else t.status, updatedAt := iso)
  }

  /** The escalation leaves the lease deadline in the row. */
  function SentToReview(t: Ticket, iso: string): Ticket {
    t.(status := NeedsReview, reason := Some("restore_reconcile"), claimedBy := None, token := None, updatedAt := iso)
  }

  // ----- what the tables become ---------------------------------------------------------------------------

  function StaleRows(locks: map<string, Lock>): set<string> {
    set rid | rid in locks && StaleClaim(locks[rid])
  }

  function Claimants(locks: map<string, Lock>, rids: set<string>): set<Id> {
    set rid | rid in rids && rid in locks && locks[rid].holder.Some? :: locks[rid].holder.value
  }

  function GrantedIds(approvals: map<Id, Approval>): set<Id> {
    set a | a in approvals && approvals[a].status == Granted
  }

  function Grantees(approvals: map<Id, Approval>, ids: set<Id>): set<Id> {
    set a | a in ids && a in approvals :: approvals[a].ticket
  }

  function InFlight(huddles: map<Id, HuddleStatus>, tickets: map<Id, Ticket>): set<Id> {
    set id | id in huddles && id in tickets && huddles[id] == Open && tickets[id].status == InProgress
  }

  /** UPDATE … WHERE key IN rows: `f` on those rows, the others as they were. */
  function Updated<K(==), V>(table: map<K, V>, rows: set<K>, f: V -> V): map<K, V> {
    map k | k in table :: if k in rows then f(table[k]) else table[k]
  }

  function RestoredLocks(locks: map<string, Lock>, now: int): map<string, Lock> {
    map rid | rid in locks ::
      if StaleClaim(locks[rid]) then Freed(Floored(locks[rid], now)) else Floored(locks[rid], now)
  }

  /** Tickets after their claims were expired and their grants revoked: what the huddle query then sees. */
  function RequeuedTickets(db: Tables, iso: string): map<Id, Ticket> {
    Updated(
      Updated(db.tickets, Claimants(db.locks, StaleRows(db.locks)), t => Requeued(t, iso)),
      Grantees(db.approvals, GrantedIds(db.approvals)), t => Ungranted(t, iso))
  }

  function Restored(db: Tables, now: int, iso: string): Tables {
    var requeued := RequeuedTickets(db, iso);
    var flight := InFlight(db.huddles, requeued);
    Tables(
      RestoredLocks(db.locks, now),
      Updated(requeued, flight, t => SentToReview(t, iso)),
      Updated(db.approvals, GrantedIds(db.approvals), (a: Approval) => a.(status := Revoked)),
      Updated(db.huddles, flight, h => Escalated))
  }

  // ----- the reconciliation itself ------------------------------------------------------------------------

  /** Updating one more row of a table, whether or not it was updated before or exists. */
  lemma OneMore<K, V>(table: map<K, V>, done: set<K>, k: K, f: V -> V)
    requires k in table ==> f(f(table[k])) == f(table[k])
    ensures k in table ==> Updated(table, done, f)[k := f(Updated(table, done, f)[k])] == Updated(table, done + {k}, f)
    ensures k !in table ==> Updated(table, done, f) == Updated(table, done + {k}, f)
  {
  }

  /** Flooring does not change which claims are stale; flooring, then freeing those, is the restored lock table. */
  lemma FloorThenFree(locks: map<string, Lock>, now: int)
    ensures var floored := map rid | rid in locks :: Floored(locks[rid], now);
            && StaleRows(floored) == StaleRows(locks)
            && Claimants(floored, StaleRows(floored)) == Claimants(locks, StaleRows(locks))
            && Updated(floored, StaleRows(floored), Freed) == RestoredLocks(locks, now)
  {
    var floored := map rid | rid in locks :: Floored(locks[rid], now);
    assert StaleRows(floored) == StaleRows(locks);
    assert forall rid | rid in locks :: floored[rid].holder == locks[rid].holder;
    assert Claimants(floored, StaleRows(floored)) == Claimants(locks, StaleRows(locks));
  }

  class Board {
    var locks: map<string, Lock>
    var tickets: map<Id, Ticket>
    var approvals: map<Id, Approval>
    var huddles: map<Id, HuddleStatus>
    var audit: seq<Marker>
    var lastReconcile: Option<int>

    constructor (db: Tables)
      ensures View() == db && audit == [] && lastReconcile == None
    {
      locks, tickets, approvals, huddles := db.locks, db.tickets, db.approvals, db.huddles;
      audit, lastReconcile := [], None;
    }

    function View(): Tables
      reads this
    {
      Tables(locks, tickets, approvals, huddles)
    }

    /** Frees every stale claim and requeues its ticket, one selected row at a time. */
    method ExpireClaims(iso: string) returns (count: nat)
      modifies this`locks, this`tickets
      ensures locks == Updated(old(locks), StaleRows(old(locks)), Freed)
      ensures tickets == Updated(old(tickets), Claimants(old(locks), StaleRows(old(locks))), t => Requeued(t, iso))
      ensures count == |StaleRows(old(locks))|
    {
      ghost var was, wasTickets := locks, tickets;
      var stale := StaleRows(locks);
      var rows := map rid | rid in stale :: locks[rid].holder.value;
      var pending := stale;
      var requeue := t => Requeued(t, iso);
      while pending != {}
        invariant pending <= stale
        invariant locks == Updated(was, stale - pending, Freed)
        invariant tickets == Updated(wasTickets, Claimants(was, stale - pending), requeue)
      {
        var rid :| rid in pending;
        var id := rows[rid];
        OneMore(wasTickets, Claimants(was, stale - pending), id, requeue);
        locks := locks[rid := Freed(locks[rid])];
        if id in tickets {
          tickets := tickets[id := requeue(tickets[id])];
        }
        assert Claimants(was, stale - (pending - {rid})) == Claimants(was, stale - pending) + {id};
        pending := pending - {rid};
      }
      assert stale - pending == stale;
      count := |stale|;
    }

    /** Revokes every granted approval and sends its approved ticket back to await one. */
    method RevokeGrants(iso: string) returns (count: nat)
      modifies this`approvals, this`tickets
      ensures approvals == Updated(old(approvals), GrantedIds(old(approvals)), (a: Approval) => a.(status := Revoked))
      ensures tickets ==
              Updated(old(tickets), Grantees(old(approvals), GrantedIds(old(approvals))), t => Ungranted(t, iso))
      ensures count == |GrantedIds(old(approvals))|
    {
      ghost var was, wasTickets := approvals, tickets;
      var granted := GrantedIds(approvals);
      var pending := granted;
      var ungrant, revoke := t => Ungranted(t, iso), (a: Approval) => a.(status := Revoked);
      while pending != {}
        invariant pending <= granted
        invariant approvals == Updated(was, granted - pending, revoke)
        invariant tickets == Updated(wasTickets, Grantees(was, granted - pending), ungrant)
      {
        var a :| a in pending;
        var id := approvals[a].ticket;
        OneMore(wasTickets, Grantees(was, granted - pending), id, ungrant);
        approvals := approvals[a := revoke(approvals[a])];
        if id in tickets {
          tickets := tickets[id := ungrant(tickets[id])];
        }
        assert Grantees(was, granted - (pending - {a})) == Grantees(was, granted - pending) + {id};
        pending := pending - {a};
      }
      assert granted - pending == granted;
      count := |granted|;
    }

    /** Sends the tickets of open huddles that are still in progress to review. */
    method EscalateHuddles(iso: string) returns (count: nat)
      modifies this`huddles, this`tickets
      ensures huddles == Updated(old(huddles), InFlight(old(huddles), old(tickets)), h => Escalated)
      ensures tickets == Updated(old(tickets), InFlight(old(huddles), old(tickets)), t => SentToReview(t, iso))
      ensures count == |InFlight(old(huddles), old(tickets))|
    {
      ghost var was, wasTickets := huddles, tickets;
      var flight := InFlight(huddles, tickets);
      var pending := flight;
      var escalate := t => SentToReview(t, iso);
      while pending != {}
        invariant pending <= flight
        invariant huddles == Updated(was, flight - pending, h => Escalated)
        invariant tickets == Updated(wasTickets, flight - pending, escalate)
      {
        var id :| id in pending;
        tickets := tickets[id := escalate(tickets[id])];
        huddles := huddles[id := Escalated];
        pending := pending - {id};
      }
      assert flight - pending == flight;
      count := |flight|;
    }

    /** One transaction: floor, expire, revoke, escalate, then leave a marker. */
    method ReconcileOnBoot(now: int, iso: string)
      modifies this
      ensures View() == Restored(old(View()), now, iso)
      ensures lastReconcile == Some(now)
      ensures audit == old(audit) + [Marker(
                now, |GrantedIds(old(approvals))|, |StaleRows(old(locks))|,
                |InFlight(old(huddles), RequeuedTickets(old(View()), iso))|)]
    {
      hide Updated, StaleRows, Claimants, Grantees, GrantedIds, InFlight, RestoredLocks;
      ghost var was := View();
      locks := map rid | rid in locks :: Floored(locks[rid], now);
      FloorThenFree(was.locks, now);
      var requeued := ExpireClaims(iso);
      var revoked := RevokeGrants(iso);
      assert tickets == RequeuedTickets(was, iso);
      var escalated := EscalateHuddles(iso);
      audit := audit + [Marker(now, revoked, requeued, escalated)];
      lastReconcile := Some(now);
    }
  }

  // ----- what a reconciliation does to every row -------------------------------------------------------------

  /** Where a ticket can go, and exactly when it goes there. */
  function Outcome(db: Tables, id: Id): Status
    requires id in db.tickets
  {
    var s := db.tickets[id].status;
    var claimed := id in Claimants(db.locks, StaleRows(db.locks));
    if s == InProgress && claimed then Todo
    else if s == InProgress && id in db.huddles && db.huddles[id] == Open then NeedsReview
    else if s == Approved && id in Grantees(db.approvals, GrantedIds(db.approvals)) then AwaitingApproval
    else s
  }

  /** Only legal moves, each for its own reason; no ticket gains an approval or an execution. */
  lemma LegalMovesOnly(db: Tables, now: int, iso: string, id: Id)
    requires id in db.tickets
    ensures id in Restored(db, now, iso).tickets
    ensures var after := Restored(db, now, iso).tickets[id].status;
            && after == Outcome(db, id)
            && (after != db.tickets[id].status ==> after in Legal(db.tickets[id].status))
            && (after != db.tickets[id].status ==>
                  (db.tickets[id].status, after) in
                  {(InProgress, Todo), (InProgress, NeedsReview), (Approved, AwaitingApproval)})
            && (after in {Approved, Executing, Verifying, Done, Failed, Cancelled} ==> after == db.tickets[id].status)
  {
    var t := db.tickets[id];
    var t1 := if id in Claimants(db.locks, StaleRows(db.locks)) then Requeued(t, iso) else t;
    var t2 := if id in Grantees(db.approvals, GrantedIds(db.approvals)) then Ungranted(t1, iso) else t1;
    assert RequeuedTickets(db, iso)[id] == t2;
  }

  /** A lease on the ticket that the snapshot still shows. */
  ghost predicate Claimed(db: Tables, id: Id) {
    exists rid | rid in db.locks :: db.locks[rid].hold == Some(ClaimHold) && db.locks[rid].holder == Some(id)
  }

  ghost predicate GrantedTo(db: Tables, id: Id) {
    exists a | a in db.approvals :: db.approvals[a].ticket == id && db.approvals[a].status == Granted
  }

  /** Still in progress, under no lease, with an open huddle. */
  ghost predicate Stranded(db: Tables, id: Id) {
    && id in db.tickets && db.tickets[id].status == InProgress && !Claimed(db, id)
    && id in db.huddles && db.huddles[id] == Open
  }

  lemma SelectedRows(db: Tables, id: Id, iso: string)
    ensures id in Claimants(db.locks, StaleRows(db.locks)) <==> Claimed(db, id)
    ensures id in Grantees(db.approvals, GrantedIds(db.approvals)) <==> GrantedTo(db, id)
    ensures id in InFlight(db.huddles, RequeuedTickets(db, iso)) <==> Stranded(db, id)
  {
    if rid :| rid in db.locks && db.locks[rid].hold == Some(ClaimHold) && db.locks[rid].holder == Some(id) {
      assert rid in StaleRows(db.locks);
    }
    if a :| a in db.approvals && db.approvals[a].ticket == id && db.approvals[a].status == Granted {
      assert a in GrantedIds(db.approvals);
    }
  }

  /** What becomes of a ticket, column by column. */
  ghost predicate TicketRestored(db: Tables, id: Id, t: Ticket, iso: string)
    requires id in db.tickets
  {
    var was, claimed, stranded := db.tickets[id], Claimed(db, id), Stranded(db, id);
    && t.status == (if was.status == InProgress && claimed then Todo else if stranded then NeedsReview
                    else if was.status == Approved && GrantedTo(db, id) then AwaitingApproval else was.status)
    && t.claimedBy == (if claimed || stranded then None else was.claimedBy)
    && t.token == (if claimed || stranded then None else was.token)
    && t.expires == (if claimed then None else was.expires)
    && t.reason == (if stranded then Some("restore_reconcile") else was.reason)
    && t.updatedAt == (if claimed || stranded || GrantedTo(db, id) then iso else was.updatedAt)
  }

  lemma TicketsAfterRestore(db: Tables, now: int, iso: string)
    ensures var after := Restored(db, now, iso).tickets;
            after.Keys == db.tickets.Keys && forall id | id in db.tickets :: TicketRestored(db, id, after[id], iso)
  {
    forall id | id in db.tickets
      ensures TicketRestored(db, id, Restored(db, now, iso).tickets[id], iso)
    {
      SelectedRows(db, id, iso);
    }
  }

  /** Exactly the huddles of the stranded tickets are escalated, and the marker counts rows, not tickets, of leases. */
  lemma HuddlesAndCounts(db: Tables, now: int, iso: string)
    ensures var after := Restored(db, now, iso).huddles;
            after.Keys == db.huddles.Keys
            && forall id | id in after :: after[id] == if Stranded(db, id) then Escalated else db.huddles[id]
    ensures forall id :: id in InFlight(db.huddles, RequeuedTickets(db, iso)) <==> Stranded(db, id)
    ensures StaleRows(db.locks) ==
            set rid | rid in db.locks && db.locks[rid].hold == Some(ClaimHold) && db.locks[rid].holder != None
    ensures GrantedIds(db.approvals) == set a | a in db.approvals && db.approvals[a].status == Granted
  {
    forall id: Id
      ensures id in InFlight(db.huddles, RequeuedTickets(db, iso)) <==> Stranded(db, id)
    {
      SelectedRows(db, id, iso);
    }
  }

  ghost predicate ClaimFree(locks: map<string, Lock>) {
    forall rid | rid in locks :: locks[rid].hold != Some(ClaimHold)
  }

  /** A claim hold names its ticket. */
  ghost predicate ClaimsNamed(locks: map<string, Lock>) {
    forall rid | rid in locks && locks[rid].hold == Some(ClaimHold) :: locks[rid].holder.Some?
  }

  /**
   * Locks: no row appears or goes, no generation falls, every claim that named a ticket is free, execution holds
   * stay.  Claim rows remain exactly if one named no ticket, which no table of a run does (NoClaimLeft).
   */
  lemma LocksAfterRestore(db: Tables, now: int, iso: string)
    ensures var after := Restored(db, now, iso).locks;
            && after.Keys == db.locks.Keys
            && StaleRows(after) == {}
            && (ClaimFree(after) <==> ClaimsNamed(db.locks))
            && forall rid | rid in db.locks ::
                && after[rid].generation >= Max(db.locks[rid].generation, now)
                && (db.locks[rid].hold == Some(ClaimHold) && db.locks[rid].holder.Some? ==>
                    after[rid] == Lock(None, None, None, None, Max(db.locks[rid].generation, now) + 1))
                && (db.locks[rid].hold == None ==>
                    after[rid] == db.locks[rid].(generation := Max(db.locks[rid].generation, now)))
                && (db.locks[rid].hold == Some(ExecutionHold) ==>
                    after[rid] == db.locks[rid].(generation := Max(db.locks[rid].generation, now)))
  {
    var after := Restored(db, now, iso).locks;
    if rid :| rid in db.locks && db.locks[rid].hold == Some(ClaimHold) && db.locks[rid].holder.None? {
      assert after[rid].hold == Some(ClaimHold);
    }
  }

  lemma ApprovalsAfterRestore(db: Tables, now: int, iso: string)
    ensures var after := Restored(db, now, iso).approvals;
            && after.Keys == db.approvals.Keys
            && GrantedIds(after) == {}
            && forall a | a in after ::
                after[a] == if db.approvals[a].status == Granted then db.approvals[a].(status := Revoked)
                            else db.approvals[a]
  {
  }

  /**
   * The token an execution hold was given still matches its lock after the reconciliation exactly when the
   * generation had already reached the clock: the floor is raised under execution holds too.
   */
  lemma ExecutionTokenSurvivesIff(db: Tables, now: int, iso: string, rid: string, id: Id)
    requires rid in db.locks && db.locks[rid].hold == Some(ExecutionHold) && db.locks[rid].holder == Some(id)
    requires id in db.tickets && db.tickets[id].status == Executing
    requires db.tickets[id].token == Some(db.locks[rid].generation)
    ensures var after := Restored(db, now, iso);
            id in after.tickets && rid in after.locks &&
            (after.tickets[id].token == Some(after.locks[rid].generation) <==>
             db.locks[rid].generation >= now && id !in Claimants(db.locks, StaleRows(db.locks)))
  {
    LegalMovesOnly(db, now, iso, id);
    assert id !in InFlight(db.huddles, RequeuedTickets(db, iso));
  }

  /** After a reconciliation there is nothing left to expire, revoke or escalate. */
  lemma NothingLeft(db: Tables, now: int, iso: string)
    ensures var after := Restored(db, now, iso);
            && StaleRows(after.locks) == {} && GrantedIds(after.approvals) == {}
            && InFlight(after.huddles, after.tickets) == {}
  {
    LocksAfterRestore(db, now, iso);
    ApprovalsAfterRestore(db, now, iso);
    var after := Restored(db, now, iso);
    forall id | id in after.huddles && id in after.tickets && after.huddles[id] == Open
      ensures after.tickets[id].status != InProgress
    {
      assert id !in InFlight(db.huddles, RequeuedTickets(db, iso));
    }
  }

  lemma LocksFloored(locks: map<string, Lock>, now: int)
    requires StaleRows(locks) == {}
    ensures RestoredLocks(locks, now) == Updated(locks, locks.Keys, (l: Lock) => Floored(l, now))
  {
    forall rid | rid in locks
      ensures !StaleClaim(locks[rid])
    {
      assert rid !in StaleRows(locks);
    }
  }

  /** A second run at a clock that did not go forward changes no table; at a later one it only raises the floors. */
  lemma SecondRun(db: Tables, now: int, iso: string, later: int, laterIso: string)
    ensures var once := Restored(db, now, iso);
            var twice := Restored(once, later, laterIso);
            && twice == once.(locks := Updated(once.locks, once.locks.Keys, (l: Lock) => Floored(l, later)))
            && (later <= now ==> twice == once)
  {
    NothingLeft(db, now, iso);
    LocksAfterRestore(db, now, iso);
    var once := Restored(db, now, iso);
    var floored := Updated(once.locks, once.locks.Keys, (l: Lock) => Floored(l, later));
    assert later <= now ==> floored == once.locks;
    UntouchedTables(once, later, laterIso);
    hide *;
    LocksFloored(once.locks, later);
  }

  /** With nothing to expire, revoke or escalate a reconciliation only raises generations. */
  lemma UntouchedTables(db: Tables, now: int, iso: string)
    requires StaleRows(db.locks) == {} && GrantedIds(db.approvals) == {} && InFlight(db.huddles, db.tickets) == {}
    ensures Restored(db, now, iso) == db.(locks := RestoredLocks(db.locks, now))
  {
    assert Claimants(db.locks, StaleRows(db.locks)) == {};
    assert Grantees(db.approvals, GrantedIds(db.approvals)) == {};
    assert RequeuedTickets(db, iso) == db.tickets;
  }

  // ----- fencing tokens over whole runs ----------------------------------------------------------------------

  datatype LockEvent =
    | Acquire(resource: string, ticket: Id, agent: string, kind: HoldKind, expires: Option<int>)
    | Release(resource: string, ticket: Id, keepsLease: bool)
    | Boot(now: int)

  /** Whether the event acquires the resource; the upsert does nothing to a held row. */
  predicate Acquires(locks: map<string, Lock>, e: LockEvent, rid: string) {
    e.Acquire? && e.resource == rid && (rid in locks ==> locks[rid].holder.None?)
  }

  function LockStep(locks: map<string, Lock>, e: LockEvent): map<string, Lock> {
    match e
    case Acquire(rid, ticket, agent, kind, expires) =>
      if !Acquires(locks, e, rid) then locks
      else locks[rid := Lock(Some(ticket), Some(agent), Some(kind), expires, Generation(locks, rid) + 1)]
    case Release(rid, ticket, keepsLease) =>
      if rid !in locks || locks[rid].holder != Some(ticket) then locks
      else locks[rid := Freed(locks[rid]).(expires := if keepsLease then locks[rid].expires else None)]
    case Boot(now) => RestoredLocks(locks, now)
  }

  function LockRun(locks: map<string, Lock>, events: seq<LockEvent>): map<string, Lock>
    decreases |events|
  {
    if events == [] then locks else LockRun(LockStep(locks, events[0]), events[1..])
  }

  function Generation(locks: map<string, Lock>, rid: string): int {
    if rid in locks then locks[rid].generation else 0
  }

  /** The fencing tokens a run hands out for one resource, in order. */
  function Tokens(locks: map<string, Lock>, events: seq<LockEvent>, rid: string): seq<int>
    decreases |events|
  {
    if events == [] then []
    else
      (if Acquires(locks, events[0], rid) then [Generation(locks, rid) + 1] else [])
      + Tokens(LockStep(locks, events[0]), events[1..], rid)
  }

  /** The least token any continuation can mint: a held row is released, one up, before it is acquired. */
  function FirstMint(locks: map<string, Lock>, rid: string): int {
    Generation(locks, rid) + (if rid in locks && locks[rid].holder.Some? then 2 else 1)
  }

  ghost predicate Ascending(s: seq<int>) {
    forall i, j | 0 <= i < j < |s| :: s[i] < s[j]
  }

  /** No run from `locks` ever mints a token for `rid` that is not above `t`. */
  ghost predicate Outranked(locks: map<string, Lock>, rid: string, t: int) {
    forall events, u | u in Tokens(locks, events, rid) :: t < u
  }

  /** What an acquire and a release leave of the one row they touch, and a boot of every row. */
  lemma RowsMove(locks: map<string, Lock>, e: LockEvent, rid: string)
    ensures !e.Boot? && e.resource != rid ==> (rid in LockStep(locks, e) <==> rid in locks)
    ensures !e.Boot? && e.resource != rid && rid in locks ==> LockStep(locks, e)[rid] == locks[rid]
    ensures e.Acquire? && e.resource == rid ==>
              && rid in LockStep(locks, e)
              && LockStep(locks, e)[rid] ==
                 if rid in locks && locks[rid].holder.Some? then locks[rid]
                 else Lock(Some(e.ticket), Some(e.agent), Some(e.kind), e.expires,
                           if rid in locks then locks[rid].generation + 1 else 1)
    ensures e.Release? && e.resource == rid && rid in locks ==>
              && rid in LockStep(locks, e)
              && LockStep(locks, e)[rid] ==
                 if locks[rid].holder == Some(e.ticket)
                 then Lock(None, None, None, if e.keepsLease then locks[rid].expires
                           else None, locks[rid].generation + 1)
                 else locks[rid]
    ensures e.Boot? ==> (rid in LockStep(locks, e) <==> rid in locks)
    ensures e.Boot? && rid in locks ==>
              LockStep(locks, e)[rid] ==
              if locks[rid].hold == Some(ClaimHold) && locks[rid].holder.Some?
              then Lock(None, None, None, None, Max(locks[rid].generation, e.now) + 1)
              else locks[rid].(generation := Max(locks[rid].generation, e.now))
  {
  }

  lemma StepRaises(locks: map<string, Lock>, e: LockEvent, rid: string)
    ensures rid in locks ==> rid in LockStep(locks, e) && Generation(LockStep(locks, e), rid) >= Generation(locks, rid)
    ensures Acquires(locks, e, rid) ==> rid in LockStep(locks, e)
    ensures FirstMint(LockStep(locks, e), rid) >= FirstMint(locks, rid)
    ensures Acquires(locks, e, rid) ==>
              && Generation(locks, rid) + 1 == FirstMint(locks, rid) == Generation(LockStep(locks, e), rid)
              && FirstMint(LockStep(locks, e), rid) > FirstMint(locks, rid)
  {
  }

  /** Tokens of one resource only rise, start no lower than the least possible one, and stay below the next. */
  lemma {:induction false} TokensAscend(locks: map<string, Lock>, events: seq<LockEvent>, rid: string)
    ensures Ascending(Tokens(locks, events, rid))
    ensures forall t | t in Tokens(locks, events, rid) ::
              FirstMint(locks, rid) <= t < FirstMint(LockRun(locks, events), rid)
    ensures forall t | t in Tokens(locks, events, rid) :: t <= Generation(LockRun(locks, events), rid)
    ensures FirstMint(locks, rid) <= FirstMint(LockRun(locks, events), rid)
    ensures rid in locks ==>
              rid in LockRun(locks, events) && Generation(locks, rid) <= Generation(LockRun(locks, events), rid)
    decreases |events|
  {
    if events != [] {
      var next := LockStep(locks, events[0]);
      StepRaises(locks, events[0], rid);
      hide LockStep, Acquires, FirstMint, Generation;
      TokensAscend(next, events[1..], rid);
      if Acquires(locks, events[0], rid) {
        AscendingCons(FirstMint(locks, rid), Tokens(next, events[1..], rid));
      }
    }
  }

  lemma AscendingCons(t: int, later: seq<int>)
    requires Ascending(later) && forall u | u in later :: t < u
    ensures Ascending([t] + later)
  {
    assert forall j | 0 <= j < |later| :: later[j] in later;
  }

  lemma {:induction false} TokensSplit(locks: map<string, Lock>, a: seq<LockEvent>, b: seq<LockEvent>, rid: string)
    ensures Tokens(locks, a + b, rid) == Tokens(locks, a, rid) + Tokens(LockRun(locks, a), b, rid)
    ensures LockRun(locks, a + b) == LockRun(LockRun(locks, a), b)
    decreases |a|
  {
    hide LockStep, Acquires, Generation;
    if a == [] {
      assert a + b == b;
    } else {
      assert (a + b)[0] == a[0] && (a + b)[1..] == a[1..] + b;
      TokensSplit(LockStep(locks, a[0]), a[1..], b, rid);
    }
  }

  /** A token is below everything a continuation can mint exactly when it is below the least of them. */
  lemma OutrankedIff(locks: map<string, Lock>, rid: string, t: int)
    ensures Outranked(locks, rid, t) <==> t < FirstMint(locks, rid)
  {
    forall events, u | t < FirstMint(locks, rid) && u in Tokens(locks, events, rid)
      ensures t < u
    {
      TokensAscend(locks, events, rid);
    }
    var take := Acquire(rid, 0, "", ClaimHold, None);
    var events := if rid in locks && locks[rid].holder.Some?
                  then [Release(rid, locks[rid].holder.value, false), take] else [take];
    assert FirstMint(locks, rid) in Tokens(locks, events, rid) by {
      var next := LockStep(locks, events[0]);
      assert Tokens(next, events[1..], rid) ==
             if |events| == 1 then [] else [Generation(next, rid) + 1] + Tokens(LockStep(next, take), events[2..], rid);
    }
  }

  /** The snapshot after `k` events of a run from the empty Board, restored and reconciled at `now`. */
  function RestoredAt(run: seq<LockEvent>, k: nat, now: int): map<string, Lock>
    requires k <= |run|
  {
    RestoredLocks(LockRun(map[], run[..k]), now)
  }

  /**
   * The restore fence.  A token minted at any time before the crash, the lost window included, is below every
   * token minted after the reconciliation exactly when it is below the restored row's least next token; for a
   * resource whose row is in the snapshot this holds as soon as the clock has reached the generation at the crash.
   */
  lemma RestoreFence(run: seq<LockEvent>, k: nat, now: int, rid: string, t: int)
    requires k <= |run| && t in Tokens(map[], run, rid)
    ensures Outranked(RestoredAt(run, k, now), rid, t) <==> t < FirstMint(RestoredAt(run, k, now), rid)
    ensures rid in LockRun(map[], run[..k]) && Generation(LockRun(map[], run), rid) <= now ==>
            Outranked(RestoredAt(run, k, now), rid, t)
  {
    OutrankedIff(RestoredAt(run, k, now), rid, t);
    TokensAscend(map[], run, rid);
  }

  /** Every writer of the table sets or clears hold and ticket together. */
  lemma {:induction false} ClaimsStayNamed(locks: map<string, Lock>, events: seq<LockEvent>)
    requires ClaimsNamed(locks)
    ensures ClaimsNamed(LockRun(locks, events))
    decreases |events|
  {
    if events != [] {
      ClaimsStayNamed(LockStep(locks, events[0]), events[1..]);
    }
  }

  /** Whatever the Board did before the snapshot, its reconciliation leaves no claim hold, so no lease outlives it. */
  lemma NoClaimLeft(run: seq<LockEvent>, k: nat, now: int)
    requires k <= |run|
    ensures ClaimFree(RestoredAt(run, k, now))
  {
    ClaimsStayNamed(map[], run[..k]);
    LocksAfterRestore(Tables(LockRun(map[], run[..k]), map[], map[], map[]), now, "");
  }

  /** A resource first locked in the lost window has no row to floor: its tokens start over from 1. */
  lemma LostRowsStartOver(run: seq<LockEvent>, k: nat, now: int, rid: string, t: int)
    requires k <= |run| && t in Tokens(map[], run, rid)
    requires rid !in LockRun(map[], run[..k])
    ensures !Outranked(RestoredAt(run, k, now), rid, t)
  {
    OutrankedIff(RestoredAt(run, k, now), rid, t);
    TokensAscend(map[], run, rid);
  }

  /** Without any restore the same resource never sees a token twice, reboots and all. */
  lemma TokensNeverRepeat(before: seq<LockEvent>, after: seq<LockEvent>, rid: string)
    ensures forall t, u | t in Tokens(map[], before, rid) && u in Tokens(LockRun(map[], before), after, rid) :: t < u
    ensures Ascending(Tokens(map[], before + after, rid))
  {
    TokensAscend(map[], before, rid);
    TokensAscend(LockRun(map[], before), after, rid);
    TokensAscend(map[], before + after, rid);
    TokensSplit(map[], before, after, rid);
  }
}
