/**
 * The drain/kill epoch machine of one runtime instance (platform/agent-runtime, drain.py): pushed
 * commands, polled levels, outages, the grace deadline and the pre-claim gate.  Time is a parameter.
 */
module Drain {
  import opened Prelude

  /** Ordered posture; higher is more stopped. */
  datatype Level = RUN | DRAIN | KILL

  datatype Mode = DrainMode | KillMode

  datatype Command = Command(mode: Mode, epoch: int, grace: Option<real>, issuedBy: string, key: string)

  /** A row of kill_epoch_log. */
  datatype LogRow = LogRow(epoch: int, mode: Mode, deadline: real, issuedBy: string, received: real)

  datatype Posture = Posture(
    epoch: int, level: Level, deadline: Option<real>, issuedBy: string, seen: set<string>, outage: bool,
      reconciled: bool)

  const BOOT := Posture(0, RUN, None, "boot", {}, false, false)

  function Rank(l: Level): nat {
    match l case RUN => 0 case DRAIN => 1 case KILL => 2
  }

  function LevelOf(m: Mode): Level {
    match m case DrainMode => DRAIN case KillMode => KILL
  }

  function MinReal(a: real, b: real): real { if a <= b then a else b }

  /** The deadline a command sets: none of its own for a kill, clamped to the local budget for a drain. */
  function CommandDeadline(c: Command, now: real, grace: real): real {
    match c.mode
    case KillMode => now
    case DrainMode => if c.grace.None? then now + grace else MinReal(c.grace.value, now + grace)
  }

  /** Whether the command changes the posture. */
  predicate Takes(m: Posture, c: Command) {
    c.epoch > m.epoch || (c.epoch == m.epoch && c.key !in m.seen && Rank(LevelOf(c.mode)) > Rank(m.level))
  }

  function Apply(m: Posture, c: Command, now: real, grace: real): Posture {
    if c.epoch < m.epoch then m
    else
      var seen := if c.epoch == m.epoch then m.seen + {c.key} else {c.key};
      if Takes(m, c) then
        Posture(c.epoch, LevelOf(c.mode), Some(CommandDeadline(c, now, grace)), c.issuedBy, seen, m.outage,
                m.reconciled)
      else m.(seen := seen)
  }

  predicate PollTakes(m: Posture, epoch: int, level: Level) {
    epoch > m.epoch || (epoch == m.epoch && Rank(level) > Rank(m.level))
  }

  function Poll(m: Posture, epoch: int, level: Level, now: real, grace: real): Posture {
    if !PollTakes(m, epoch, level) then m
    else
      var deadline :=
        match level
        case RUN => None
        case KILL => Some(now)
        case DRAIN => if m.deadline.None? then Some(now + grace) else m.deadline;
      m.(epoch := epoch, level := level, deadline := deadline)
  }

  function Seed(m: Posture, maxEpoch: int, level: Level): Posture {
    if maxEpoch > m.epoch then m.(epoch := maxEpoch, level := level) else m
  }

  predicate Gate(m: Posture) { m.reconciled && !m.outage && m.level == RUN }

  predicate Expired(m: Posture, now: real) { m.deadline.Some? && now >= m.deadline.value }

  class DrainMachine {
    const grace: real
    var epoch: int
    var level: Level
    var deadline: Option<real>
    var issuedBy: string
    var seen: set<string>
    var outage: bool
    var reconciled: bool
    var log: seq<LogRow>

    ghost function View(): Posture
      reads this
    {
      Posture(epoch, level, deadline, issuedBy, seen, outage, reconciled)
    }

    /** A machine over an existing kill_epoch_log; seeding it is the supervisor's next step. */
    constructor (grace: real, log: seq<LogRow>)
      ensures View() == BOOT && this.grace == grace && this.log == log
    {
      this.grace, this.log := grace, log;
      epoch, level, deadline, issuedBy, seen, outage, reconciled := 0, RUN, None, "boot", {}, false, false;
    }

    method SeedFromPersisted(maxEpoch: int, to: Level)
      modifies this`epoch, this`level
      ensures View() == Seed(old(View()), maxEpoch, to)
      ensures epoch == Max(old(epoch), maxEpoch) && level == if maxEpoch > old(epoch) then to else old(level)
    {
      if maxEpoch > epoch {
        epoch, level := maxEpoch, to;
      }
    }

    method MarkReconciled()
      modifies this`reconciled
      ensures View() == old(View()).(reconciled := true)
    {
      reconciled := true;
    }

    method ApplyCommand(c: Command, now: real) returns (changed: bool)
      modifies this
      ensures View() == Apply(old(View()), c, now, grace)
      ensures changed <==> Takes(old(View()), c)
      ensures log ==
              if changed then old(log) + [LogRow(c.epoch, c.mode, CommandDeadline(c, now, grace), c.issuedBy, now)]
                else old(log)
    {
      if c.epoch < epoch {
        return false;
      }
      var to := LevelOf(c.mode);
      if c.epoch == epoch {
        if c.key in seen {
          assert seen + {c.key} == seen;
          return false;
        }
        seen := seen + {c.key};
        if Rank(to) <= Rank(level) {
          return false;
        }
      } else {
        seen := {c.key};
      }
      epoch, issuedBy, level := c.epoch, c.issuedBy, to;
      var d;
      if c.mode == KillMode {
        d := now;
      } else {
        var localMax := now + grace;
        if c.grace.None? {
          d := localMax;
        } else {
          d := MinReal(c.grace.value, localMax);
        }
      }
      deadline := Some(d);
      log := log + [LogRow(epoch, c.mode, d, issuedBy, now)];
      return true;
    }

    method PollLevel(polled: int, to: Level, now: real) returns (changed: bool)
      modifies this`epoch, this`level, this`deadline
      ensures View() == Poll(old(View()), polled, to, now, grace)
      ensures changed <==> PollTakes(old(View()), polled, to)
    {
      if polled < epoch {
        return false;
      }
      if polled == epoch && Rank(to) <= Rank(level) {
        return false;
      }
      epoch, level := polled, to;
      if to == RUN {
        deadline := None;
      } else if to == KILL {
        deadline := Some(now);
      } else if deadline.None? {
        deadline := Some(now + grace);
      }
      return true;
    }

    method EnterOutage()
      modifies this`outage, this`reconciled
      ensures View() == old(View()).(outage := true, reconciled := false)
    {
      outage := true;
      reconciled := false;
    }

    method ExitOutage()
      modifies this`outage
      ensures View() == old(View()).(outage := false)
    {
      outage := false;
    }

    method PreClaimGate() returns (open: bool)
      ensures open <==> Gate(View())
      ensures open <==> reconciled && !outage && level == RUN
    {
      if !reconciled {
        return false;
      }
      if outage {
        return false;
      }
      return level == RUN;
    }

    method GraceExpired(now: real) returns (expired: bool)
      ensures expired <==> Expired(View(), now)
      ensures expired <==> deadline.Some? && now >= deadline.value
    {
      if deadline.None? {
        return false;
      }
      return now >= deadline.value;
    }
  }

  // ----- what one delivery adopts --------------------------------------------------------------------------------

  /** Stopping is ordered: a kill tops a drain, and either tops running. */
  predicate Raises(from: Level, to: Level) {
    (to == KILL && from != KILL) || (to == DRAIN && from == RUN)
  }

  /** What a pushed command leaves: its own level and a deadline, or nothing but its key. */
  ghost predicate Adopts(m: Posture, c: Command, t: Posture, now: real, grace: real) {
    && t.epoch == c.epoch && t.issuedBy == c.issuedBy && t.outage == m.outage && t.reconciled == m.reconciled
    && match c.mode
       case KillMode => t.level == KILL && t.deadline == Some(now)
       case DrainMode =>
         && t.level == DRAIN && t.deadline.Some? && t.deadline.value <= now + grace
         && (c.grace.None? ==> t.deadline == Some(now + grace))
         && (c.grace.Some? ==>
               t.deadline.value <= c.grace.value && t.deadline.value in {c.grace.value, now + grace})
  }

  /**
   * A command is adopted at a higher epoch, whatever its level, and at the same epoch if it raises the level under a
   * key not seen there; any other changes neither level nor deadline.  The keys seen are those of the current epoch.
   */
  lemma CommandAdopted(m: Posture, c: Command, now: real, grace: real)
    ensures var t := Apply(m, c, now, grace);
            && (c.epoch > m.epoch ==> Adopts(m, c, t, now, grace) && t.seen == {c.key})
            && (c.epoch < m.epoch ==> t == m)
            && (c.epoch == m.epoch ==>
                  && t.seen == m.seen + {c.key}
                  && (if c.key !in m.seen && Raises(m.level, if c.mode == KillMode then KILL else DRAIN)
                      then Adopts(m, c, t, now, grace) else t == m.(seen := t.seen)))
  {
  }

  /**
   * A polled level is adopted at a higher epoch, and at the same epoch if it raises the level.  A lift has no deadline,
   * a kill has none to wait for, and a drain keeps the deadline there is.
   */
  lemma PollAdopted(m: Posture, epoch: int, level: Level, now: real, grace: real)
    ensures var t := Poll(m, epoch, level, now, grace);
            if epoch > m.epoch || (epoch == m.epoch && Raises(m.level, level)) then
              && t == m.(epoch := epoch, level := level, deadline := t.deadline)
              && (level == RUN ==> t.deadline == None)
              && (level == KILL ==> t.deadline == Some(now))
              && (level == DRAIN ==> t.deadline == if m.deadline.Some? then m.deadline else Some(now + grace))
            else t == m
  {
  }

  // ----- convergence ------------------------------------------------------------------------------------------

  /** What reaches the machine over the two wires. */
  datatype Delivery = Push(command: Command, now: real) | Polled(epoch: int, level: Level, now: real)

  type Point = (int, Level)

  predicate Le(a: Point, b: Point) {
    a.0 < b.0 || (a.0 == b.0 && Rank(a.1) <= Rank(b.1))
  }

  /** Epochs first, then levels from running up to killed. */
  lemma Order(a: Point, b: Point)
    ensures Le(a, b) <==> a.0 < b.0 || (a.0 == b.0 && (a.1 == b.1 || Raises(a.1, b.1)))
  {
  }

  function PointOf(d: Delivery): Point {
    match d
    case Push(c, _) => (c.epoch, LevelOf(c.mode))
    case Polled(e, l, _) => (e, l)
  }

  function At(m: Posture): Point { (m.epoch, m.level) }

  function Deliver(m: Posture, d: Delivery, grace: real): Posture {
    match d
    case Push(c, now) => Apply(m, c, now, grace)
    case Polled(e, l, now) => Poll(m, e, l, now, grace)
  }

  function DeliverAll(m: Posture, ds: seq<Delivery>, grace: real): Posture {
    if ds == [] then m else Deliver(DeliverAll(m, Front(ds), grace), Last(ds), grace)
  }

  /** An idempotency key always names the same epoch and mode. */
  ghost predicate KeysConsistent(ds: seq<Delivery>) {
    forall i, k | 0 <= i < |ds| && 0 <= k < |ds| && ds[i].Push? && ds[k].Push?
           && ds[i].command.key == ds[k].command.key ::
      PointOf(ds[i]) == PointOf(ds[k])
  }

  /** `top` is the lexicographic maximum of the seed and everything delivered. */
  ghost predicate IsJoin(top: Point, seed: Point, ds: seq<Delivery>) {
    && Le(seed, top)
    && (forall i | 0 <= i < |ds| :: Le(PointOf(ds[i]), top))
    && (top == seed || exists i | 0 <= i < |ds| :: PointOf(ds[i]) == top)
  }

  /** Every remembered key names a delivered command at or below the posture. */
  ghost predicate KeysBelow(m: Posture, ds: seq<Delivery>) {
    forall key | key in m.seen :: exists i | 0 <= i < |ds| ::
      ds[i].Push? && ds[i].command.key == key && Le(PointOf(ds[i]), At(m))
  }

  /** A command is lost only to a remembered key at the current epoch. */
  predicate Swallowed(m: Posture, d: Delivery) {
    d.Push? && d.command.epoch == m.epoch && d.command.key in m.seen && Rank(LevelOf(d.command.mode)) > Rank(m.level)
  }

  /** One delivery moves the posture to the join of itself and the posture, unless its key swallows it. */
  lemma DeliverIsJoin(m: Posture, d: Delivery, grace: real)
    ensures At(Deliver(m, d, grace)) == (if Le(PointOf(d), At(m)) then At(m) else PointOf(d)) <==> !Swallowed(m, d)
    ensures Le(At(m), At(Deliver(m, d, grace)))
  {
  }

  lemma JoinAppend(top: Point, next: Point, seed: Point, ds: seq<Delivery>, d: Delivery)
    requires IsJoin(top, seed, ds) && next == if Le(PointOf(d), top) then top else PointOf(d)
    ensures IsJoin(next, seed, ds + [d])
  {
    var all := ds + [d];
    assert all[|ds|] == d;
    if next != seed {
      if Le(PointOf(d), top) {
        var i :| 0 <= i < |ds| && PointOf(ds[i]) == top;
        assert all[i] == ds[i];
      }
    }
  }

  lemma KeysBelowAppend(m: Posture, ds: seq<Delivery>, d: Delivery, grace: real)
    requires KeysBelow(m, ds) && Le(PointOf(d), At(Deliver(m, d, grace)))
    ensures KeysBelow(Deliver(m, d, grace), ds + [d])
  {
    var all := ds + [d];
    var t := Deliver(m, d, grace);
    assert all[|ds|] == d;
    forall key | key in t.seen
      ensures exists i | 0 <= i < |all| :: all[i].Push? && all[i].command.key == key && Le(PointOf(all[i]), At(t))
    {
      if key in m.seen && !(d.Push? && d.command.key == key) {
        var i :| 0 <= i < |ds| && ds[i].Push? && ds[i].command.key == key && Le(PointOf(ds[i]), At(m));
        assert all[i] == ds[i];
      }
    }
  }

  lemma NothingSwallowed(m: Posture, ds: seq<Delivery>, d: Delivery)
    requires KeysConsistent(ds + [d]) && KeysBelow(m, ds)
    ensures !Swallowed(m, d)
  {
    if d.Push? && d.command.key in m.seen {
      var i :| 0 <= i < |ds| && ds[i].Push? && ds[i].command.key == d.command.key && Le(PointOf(ds[i]), At(m));
      var all := ds + [d];
      assert all[i] == ds[i] && all[|ds|] == d;
    }
  }

  /**
   * From any boot seed, after any pushes and polls in any order and with any repetitions, the
   * posture is the lexicographic maximum of the seed and everything delivered.
   */
  lemma {:induction false} Converges(m: Posture, ds: seq<Delivery>, grace: real)
    requires m.seen == {} && KeysConsistent(ds)
    ensures IsJoin(At(DeliverAll(m, ds, grace)), At(m), ds) && KeysBelow(DeliverAll(m, ds, grace), ds)
  {
    if ds != [] {
      var before := DeliverAll(m, Front(ds), grace);
      assert Front(ds) + [Last(ds)] == ds;
      Converges(m, Front(ds), grace);
      NothingSwallowed(before, Front(ds), Last(ds));
      DeliverIsJoin(before, Last(ds), grace);
      JoinAppend(At(before), At(DeliverAll(m, ds, grace)), At(m), Front(ds), Last(ds));
      KeysBelowAppend(before, Front(ds), Last(ds), grace);
    }
  }

  /** At every moment of the history the posture is the join of what came so far. */
  ghost predicate AlwaysJoin(m: Posture, ds: seq<Delivery>, grace: real) {
    ds == [] || (AlwaysJoin(m, Front(ds), grace) && IsJoin(At(DeliverAll(m, ds, grace)), At(m), ds))
  }

  /** No delivery met its own key at its own epoch below its own level. */
  ghost predicate NeverSwallowed(m: Posture, ds: seq<Delivery>, grace: real) {
    ds == [] || (NeverSwallowed(m, Front(ds), grace) && !Swallowed(DeliverAll(m, Front(ds), grace), Last(ds)))
  }

  lemma SwallowedBreaksJoin(m: Posture, before: Posture, ds: seq<Delivery>, d: Delivery, grace: real)
    requires IsJoin(At(before), At(m), ds)
    ensures IsJoin(At(Deliver(before, d, grace)), At(m), ds + [d]) <==> !Swallowed(before, d)
  {
    DeliverIsJoin(before, d, grace);
    if Swallowed(before, d) {
      assert (ds + [d])[|ds|] == d;
    } else {
      JoinAppend(At(before), At(Deliver(before, d, grace)), At(m), ds, d);
    }
  }

  /** Whatever the keys: the posture always is the join exactly when the idempotency guard never swallows a raise. */
  lemma {:induction false} ConvergesIff(m: Posture, ds: seq<Delivery>, grace: real)
    ensures AlwaysJoin(m, ds, grace) <==> NeverSwallowed(m, ds, grace)
  {
    if ds != [] {
      hide IsJoin, Swallowed;
      ConvergesIff(m, Front(ds), grace);
      assert Front(ds) + [Last(ds)] == ds;
      if AlwaysJoin(m, Front(ds), grace) {
        PrefixJoin(m, Front(ds), grace);
        SwallowedBreaksJoin(m, DeliverAll(m, Front(ds), grace), Front(ds), Last(ds), grace);
      }
    }
  }

  lemma PrefixJoin(m: Posture, ds: seq<Delivery>, grace: real)
    requires AlwaysJoin(m, ds, grace)
    ensures IsJoin(At(DeliverAll(m, ds, grace)), At(m), ds)
  {
  }

  /** Every pair `a` carries is carried by `b` too. */
  ghost predicate Carried(a: seq<Delivery>, b: seq<Delivery>) {
    forall i | 0 <= i < |a| :: exists k | 0 <= k < |b| :: PointOf(b[k]) == PointOf(a[i])
  }

  ghost predicate SamePoints(a: seq<Delivery>, b: seq<Delivery>) {
    Carried(a, b) && Carried(b, a)
  }

  lemma JoinBelow(p: Point, q: Point, seed: Point, a: seq<Delivery>, b: seq<Delivery>)
    requires IsJoin(p, seed, a) && IsJoin(q, seed, b) && Carried(a, b)
    ensures Le(p, q)
  {
    if p != seed {
      var i :| 0 <= i < |a| && PointOf(a[i]) == p;
      var k :| 0 <= k < |b| && PointOf(b[k]) == PointOf(a[i]);
      assert Le(PointOf(b[k]), q);
    }
  }

  /**
   * Two delivery histories that carry the same (epoch, level) pairs, however ordered, duplicated or
   * split between push and poll, leave the same posture.
   */
  lemma SamePosture(m: Posture, a: seq<Delivery>, b: seq<Delivery>, grace: real)
    requires m.seen == {} && KeysConsistent(a) && KeysConsistent(b) && SamePoints(a, b)
    ensures At(DeliverAll(m, a, grace)) == At(DeliverAll(m, b, grace))
  {
    hide IsJoin, Carried, KeysConsistent, KeysBelow, DeliverAll;
    Converges(m, a, grace);
    Converges(m, b, grace);
    JoinBelow(At(DeliverAll(m, a, grace)), At(DeliverAll(m, b, grace)), At(m), a, b);
    JoinBelow(At(DeliverAll(m, b, grace)), At(DeliverAll(m, a, grace)), At(m), b, a);
  }

  /** Without the key discipline a kill can be lost: the same key first drains, then kills, at one epoch. */
  lemma ReusedKeyLosesKill(grace: real)
    ensures var drain := Push(Command(DrainMode, 5, None, "auth", "k"), 0.0);
            var kill := Push(Command(KillMode, 5, None, "auth", "k"), 0.0);
            At(DeliverAll(BOOT, [drain, kill], grace)) == (5, DRAIN) && Le(PointOf(drain), PointOf(kill))
            && PointOf(kill) == (5, KILL)
  {
    var drain := Push(Command(DrainMode, 5, None, "auth", "k"), 0.0);
    var kill := Push(Command(KillMode, 5, None, "auth", "k"), 0.0);
    assert Front([drain, kill]) == [drain] && Front([drain]) == [];
    assert DeliverAll(BOOT, [drain], grace) == Deliver(DeliverAll(BOOT, [], grace), drain, grace);
  }

  // ----- the grace deadline ---------------------------------------------------------------------------------------

  ghost predicate Monotone(ds: seq<Delivery>, start: real) {
    && (forall i | 0 <= i < |ds| :: start <= ds[i].now)
    && (forall i, k | 0 <= i < k < |ds| :: ds[i].now <= ds[k].now)
  }

  predicate Changes(m: Posture, d: Delivery) {
    match d
    case Push(c, _) => Takes(m, c)
    case Polled(e, l, _) => PollTakes(m, e, l)
  }

  /** A change is one of epoch or level. */
  lemma ChangeShows(m: Posture, d: Delivery, grace: real)
    ensures Changes(m, d) <==> Deliver(m, d, grace).epoch != m.epoch || Deliver(m, d, grace).level != m.level
  {
  }

  /** When the posture last changed. */
  function LastChange(m: Posture, ds: seq<Delivery>, start: real, grace: real): real {
    if ds == [] then start
    else if Changes(DeliverAll(m, Front(ds), grace), Last(ds)) then Last(ds).now
    else LastChange(m, Front(ds), start, grace)
  }

  /** A stopping posture has a deadline within the budget of its last change; a kill's has passed at once. */
  ghost predicate GraceBounded(m: Posture, changed: real, grace: real) {
    match m.level
    case RUN => m.deadline == None
    case DRAIN => m.deadline.Some? && m.deadline.value <= changed + grace
    case KILL => m.deadline.Some? && m.deadline.value <= changed
  }

  lemma GraceStep(m: Posture, d: Delivery, changed: real, grace: real)
    requires GraceBounded(m, changed, grace) && changed <= d.now && grace >= 0.0
    ensures GraceBounded(Deliver(m, d, grace), if Changes(m, d) then d.now else changed, grace)
  {
  }

  lemma {:induction false} GraceAlwaysBounded(m: Posture, ds: seq<Delivery>, start: real, grace: real)
    requires m.level == RUN && m.deadline == None && grace >= 0.0 && Monotone(ds, start)
    ensures GraceBounded(DeliverAll(m, ds, grace), LastChange(m, ds, start, grace), grace)
    ensures start <= LastChange(m, ds, start, grace)
    ensures ds != [] ==> LastChange(m, ds, start, grace) <= Last(ds).now
  {
    if ds != [] {
      GraceAlwaysBounded(m, Front(ds), start, grace);
      assert LastChange(m, Front(ds), start, grace) <= Last(ds).now by {
        if Front(ds) != [] {
          assert Last(Front(ds)) == ds[|ds| - 2];
        }
      }
      GraceStep(DeliverAll(m, Front(ds), grace), Last(ds), LastChange(m, Front(ds), start, grace), grace);
    }
  }

  /** Nothing in `ds` changes the posture it meets. */
  ghost predicate Unchanging(m: Posture, ds: seq<Delivery>, grace: real) {
    ds == [] || (Unchanging(m, Front(ds), grace) && !Changes(DeliverAll(m, Front(ds), grace), Last(ds)))
  }

  lemma {:induction false} DeadlineStays(m: Posture, ds: seq<Delivery>, grace: real)
    requires Unchanging(m, ds, grace)
    ensures DeliverAll(m, ds, grace).deadline == m.deadline && At(DeliverAll(m, ds, grace)) == At(m)
  {
    if ds != [] {
      DeadlineStays(m, Front(ds), grace);
    }
  }

  /**
   * The grace of a drain is granted, not only bounded: from the moment it is adopted, until something else is, it runs
   * out exactly at the earlier of the deadline it brought and the local budget.
   */
  lemma DrainRunsItsGrace(m: Posture, c: Command, now: real, ds: seq<Delivery>, grace: real, t: real)
    requires c.mode == DrainMode && Takes(m, c)
    requires Unchanging(Apply(m, c, now, grace), ds, grace)
    ensures Expired(DeliverAll(Apply(m, c, now, grace), ds, grace), t) <==>
            t >= now + grace || (c.grace.Some? && t >= c.grace.value)
  {
    DeadlineStays(Apply(m, c, now, grace), ds, grace);
  }

  lemma EpochRises(m: Posture, d: Delivery, grace: real)
    ensures m.epoch <= Deliver(m, d, grace).epoch
  {
  }

  lemma ExpiryStep(m: Posture, d: Delivery, changed: real, grace: real, t: real, later: real)
    requires GraceBounded(m, changed, grace) && Expired(m, t) && t <= d.now <= later
    requires Deliver(m, d, grace).epoch == m.epoch
    ensures Expired(Deliver(m, d, grace), later)
  {
  }

  lemma {:induction false} EpochsRise(m: Posture, pre: seq<Delivery>, post: seq<Delivery>, grace: real)
    ensures DeliverAll(m, pre, grace).epoch <= DeliverAll(m, pre + post, grace).epoch
  {
    if post == [] {
      assert pre + post == pre;
    } else {
      assert Front(pre + post) == pre + Front(post);
      EpochsRise(m, pre, Front(post), grace);
      EpochRises(DeliverAll(m, pre + Front(post), grace), Last(post), grace);
    }
  }

  /** Within one epoch, a budget that has run out stays run out, whatever else is delivered. */
  lemma {:induction false} ExpiryNeverRevoked(
      m: Posture, pre: seq<Delivery>, post: seq<Delivery>, start: real, grace: real, t: real, later: real)
    requires m.level == RUN && m.deadline == None && grace >= 0.0 && Monotone(pre + post, start)
    requires Expired(DeliverAll(m, pre, grace), t) && t <= later
    requires forall i | 0 <= i < |post| :: t <= post[i].now <= later
    requires DeliverAll(m, pre + post, grace).epoch == DeliverAll(m, pre, grace).epoch
    ensures Expired(DeliverAll(m, pre + post, grace), later)
  {
    if post == [] {
      assert pre + post == pre;
    } else {
      var before := pre + Front(post);
      assert Front(pre + post) == before && Last(pre + post) == Last(post);
      assert Monotone(before, start) by {
        assert forall i | 0 <= i < |before| :: before[i] == (pre + post)[i];
      }
      forall i | 0 <= i < |Front(post)|
        ensures t <= Front(post)[i].now <= Last(post).now
      {
        assert Front(post)[i] == post[i] && (pre + post)[|pre| + i] == post[i]
               && (pre + post)[|pre + post| - 1] == Last(post);
      }
      EpochsRise(m, pre, Front(post), grace);
      EpochRises(DeliverAll(m, before, grace), Last(post), grace);
      ExpiryNeverRevoked(m, pre, Front(post), start, grace, t, Last(post).now);
      GraceAlwaysBounded(m, before, start, grace);
      ExpiryStep(DeliverAll(m, before, grace), Last(post), LastChange(m, before, start, grace), grace, Last(post).now,
                 later);
    }
  }
}
