/**
 * Who may claim work, over whole runs of one runtime: the auth client that opens the gate, the Board
 * client that asks it, the kill-epoch log and restarts (platform/agent-runtime: auth_client.py,
 * board_client.py, supervisor.py, db.py).
 */
module Claims {
  import opened Prelude
  import opened Drain

  // ----- auth client --------------------------------------------------------------------------------------

  /** The answer of GET /killswitch/epoch; no answer at all is None of these. */
  datatype Reply = Reply(status: int, epoch: Option<int>, level: Option<string>)

  function Lower(s: string): string {
    seq(|s|, i requires 0 <= i < |s| => if 'A' <= s[i] <= 'Z' then ((s[i] as int) + 32) as char else s[i])
  }

  /** The wire names of the levels; a name the client does not know counts as run. */
  function ParseLevel(name: string): Level {
    if name == "drain" || name == "g1" then DRAIN
    else if name == "kill" || name == "g2" then KILL
    else RUN
  }

  /** A character of the wire name in either case. */
  predicate SameLetter(c: char, lower: char) {
    c == lower || ('A' <= c <= 'Z' && c as int + 32 == lower as int)
  }

  /** The reply names this level, in any letter case; a reply without one names "run". */
  ghost predicate Named(r: Reply, word: string) {
    match r.level
    case None => word == "run"
    case Some(name) => |name| == |word| && forall i | 0 <= i < |word| :: SameLetter(name[i], word[i])
  }

  ghost predicate NamesKill(r: Reply) { Named(r, "kill") || Named(r, "g2") }

  ghost predicate NamesDrain(r: Reply) { Named(r, "drain") || Named(r, "g1") }

  /** What a reply says of auth: its epoch, zero if it has none, and the level it names, running if that is no other. */
  ghost predicate Says(r: Reply, p: Point) {
    && p.0 == (match r.epoch case None => 0 case Some(e) => e)
    && (p.1 == KILL <==> NamesKill(r))
    && (p.1 == DRAIN <==> NamesDrain(r))
  }

  function ReplyPoint(r: Reply): Point {
    (if r.epoch.Some? then r.epoch.value else 0, ParseLevel(Lower(if r.level.Some? then r.level.value else "run")))
  }

  /** What a reconcile does to the posture: adopt, leave the outage, open the gate. */
  function Reconciled(m: Posture, reply: Option<Reply>, now: real, grace: real): Posture {
    if reply.None? || reply.value.status != 200 then m
    else Poll(m, ReplyPoint(reply.value).0, ReplyPoint(reply.value).1, now, grace).(outage := false, reconciled := true)
  }

  lemma LowerNames(name: string, word: string)
    requires forall i | 0 <= i < |word| :: !('A' <= word[i] <= 'Z')
    ensures Lower(name) == word <==> |name| == |word| && forall i | 0 <= i < |word| :: SameLetter(name[i], word[i])
  {
    if Lower(name) == word {
      forall i | 0 <= i < |word|
        ensures SameLetter(name[i], word[i])
      {
        assert Lower(name)[i] == word[i];
      }
    }
  }

  /** The client reads exactly what the reply says. */
  lemma ReplySays(r: Reply, p: Point)
    ensures Says(r, p) <==> ReplyPoint(r) == p
  {
    var name := if r.level.Some? then r.level.value else "run";
    LowerNames(name, "drain");
    LowerNames(name, "g1");
    LowerNames(name, "kill");
    LowerNames(name, "g2");
    assert Lower("run") == "run";
  }

  /**
   * What a reconcile adopts.  Any answer but a 200, and none, changes nothing; a 200 ends the outage and reconciles.
   * At a higher epoch its level is taken whatever it is, at the same epoch if it stops more, and below not at all.
   */
  lemma ReconcileAdopts(m: Posture, reply: Option<Reply>, now: real, grace: real)
    ensures var t := Reconciled(m, reply, now, grace);
            if reply.None? || reply.value.status != 200 then t == m
            else
              var epoch := match reply.value.epoch case None => 0 case Some(e) => e;
              var kills, drains := NamesKill(reply.value), NamesDrain(reply.value);
              && !t.outage && t.reconciled && t.issuedBy == m.issuedBy && t.seen == m.seen
              && (epoch > m.epoch
                  || (epoch == m.epoch && ((kills && m.level != KILL) || (drains && m.level == RUN))) ==>
                    && t.epoch == epoch
                    && (t.level == KILL <==> kills) && (t.level == DRAIN <==> drains)
                    && (kills ==> t.deadline == Some(now))
                    && (drains ==> t.deadline == if m.deadline.Some? then m.deadline else Some(now + grace))
                    && (!kills && !drains ==> t.deadline == None))
              && (epoch < m.epoch
                  || (epoch == m.epoch && !(kills && m.level != KILL) && !(drains && m.level == RUN)) ==>
                    t.epoch == m.epoch && t.level == m.level && t.deadline == m.deadline)
  {
    if reply.Some? {
      ReplySays(reply.value, ReplyPoint(reply.value));
      PollAdopted(m, ReplyPoint(reply.value).0, ReplyPoint(reply.value).1, now, grace);
    }
  }

  function Pow2(n: nat): nat {
    if n == 0 then 1 else 2 * Pow2(n - 1)
  }

  /** The ceiling doubles with every attempt. */
  lemma Doubles(n: nat)
    ensures Pow2(0) == 1 && Pow2(n + 1) == 2 * Pow2(n)
  {
  }

  lemma Scaled(share: real, whole: real, times: real)
    requires 0.0 <= share < 1.0 && 0.0 <= whole && 0.0 <= times
    ensures 0.0 <= share * whole <= whole
    ensures 0.0 <= whole * times
  {
    assert 0.0 <= (1.0 - share) * whole == whole - share * whole;
  }

  class AuthClient {
    const drain: DrainMachine
    const threshold: nat
    const base: real
    const cap: real
    var fails: nat
    var open: bool
    var attempt: nat

    /** The client and its machine as the runs below see them, beside an auth at that point. */
    ghost function Seen(auth: Point): Sys
      reads this, drain
    {
      Sys(drain.View(), drain.log, auth, fails, open)
    }

    constructor (drain: DrainMachine, threshold: nat, base: real, cap: real)
      ensures this.drain == drain && this.threshold == threshold && this.base == base && this.cap == cap
      ensures fails == 0 && !open && attempt == 0
    {
      this.drain, this.threshold, this.base, this.cap := drain, threshold, base, cap;
      fails, open, attempt := 0, false, 0;
    }

    /** Opens the breaker at the threshold, and an open breaker puts the machine in outage. */
    method OnMintFailure()
      modifies this`fails, this`open, drain`outage, drain`reconciled
      ensures fails == old(fails) + 1 && open == (old(open) || fails >= threshold)
      ensures drain.View() == if open then old(drain.View()).(outage := true, reconciled := false)
              else old(drain.View())
      ensures forall auth :: Seen(auth) == Step(old(Seen(auth)), MintFails, threshold, drain.grace)
    {
      fails := fails + 1;
      if fails >= threshold {
        open := true;
      }
      if open {
        drain.EnterOutage();
      }
    }

    /** Closes the breaker; only a reconcile ends the outage. */
    method OnMintSuccess()
      modifies this`fails, this`open, this`attempt
      ensures fails == 0 && !open && attempt == 0
      ensures forall auth :: Seen(auth) == Step(old(Seen(auth)), MintSucceeds, threshold, drain.grace)
    {
      fails, open, attempt := 0, false, 0;
    }

    /** Full jitter over a ceiling that doubles with every attempt up to the cap. */
    method NextBackoffSleep(rand: real) returns (sleep: real)
      requires 0.0 <= rand < 1.0 && base >= 0.0 && cap >= 0.0
      modifies this`attempt
      ensures attempt == old(attempt) + 1
      ensures 0.0 <= sleep <= cap && sleep <= base * (Pow2(old(attempt)) as real)
      ensures var doubled :=
              base * (Pow2(old(attempt)) as real); sleep == rand * (if cap <= doubled then cap else doubled)
    {
      var bound := base * (Pow2(attempt) as real);
      assert bound >= 0.0 by { Scaled(0.0, base, Pow2(attempt) as real); }
      var ceiling := MinReal(cap, bound);
      Scaled(rand, ceiling, 1.0);
      sleep := rand * ceiling;
      assert sleep <= ceiling <= bound;
      attempt := attempt + 1;
    }

    method ReconcileKillEpoch(reply: Option<Reply>, now: real) returns (ok: bool)
      modifies drain
      ensures ok <==> reply.Some? && reply.value.status == 200
      ensures drain.View() == Reconciled(old(drain.View()), reply, now, drain.grace)
      ensures drain.log == old(drain.log)
      ensures forall auth :: Seen(auth) == Step(old(Seen(auth)), Reconcile(reply, now), threshold, drain.grace)
    {
      if reply.None? {
        return false;
      }
      if reply.value.status != 200 {
        return false;
      }
      var p := ReplyPoint(reply.value);
      var _ := drain.PollLevel(p.0, p.1, now);
      drain.ExitOutage();
      drain.MarkReconciled();
      return true;
    }
  }

  // ----- Board client: the only caller of the transport's claim_next ---------------------------------------

  datatype ClaimReply = Granted(ticket: string, token: int) | LostRace | NoWork

  class BoardClient {
    const drain: DrainMachine
    /** How often the transport's claim_next was called. */
    var asked: nat

    constructor (drain: DrainMachine)
      ensures this.drain == drain && asked == 0
    {
      this.drain, asked := drain, 0;
    }

    /** The gate first: shut, the Board is not even asked. */
    method ClaimNext(reply: ClaimReply) returns (lease: Option<(string, int)>, conflict: bool)
      modifies this`asked
      ensures asked == old(asked) + (if Gate(drain.View()) then 1 else 0)
      ensures lease.Some? <==> Gate(drain.View()) && reply.Granted?
      ensures lease.Some? ==> lease.value == (reply.ticket, reply.token)
      ensures conflict <==> Gate(drain.View()) && reply.LostRace?
    {
      var open := drain.PreClaimGate();
      if !open {
        return None, false;
      }
      asked := asked + 1;
      match reply {
        case Granted(ticket, token) => return Some((ticket, token)), false;
        case LostRace => return None, true;
        case NoWork => return None, false;
      }
    }
  }

  // ----- boot -------------------------------------------------------------------------------------------------

  /** COALESCE(MAX(epoch), 0) over kill_epoch_log. */
  function MaxEpoch(log: seq<LogRow>): int {
    if log == [] then 0
    else if |log| == 1 then log[0].epoch
    else Max(MaxEpoch(Front(log)), Last(log).epoch)
  }

  method ReadMaxEpoch(log: seq<LogRow>) returns (m: int)
    ensures m == MaxEpoch(log)
    ensures forall i | 0 <= i < |log| :: log[i].epoch <= m
    ensures if log == [] then m == 0 else exists i | 0 <= i < |log| :: log[i].epoch == m
  {
    if log == [] {
      return 0;
    }
    m := log[0].epoch;
    var i := 1;
    while i < |log|
      invariant 1 <= i <= |log|
      invariant m == MaxEpoch(log[..i])
      invariant forall k | 0 <= k < i :: log[k].epoch <= m
      invariant exists k | 0 <= k < i :: log[k].epoch == m
    {
      assert Front(log[..i + 1]) == log[..i] && Last(log[..i + 1]) == log[i];
      m := Max(m, log[i].epoch);
      i := i + 1;
    }
    assert log[..i] == log;
  }

  /** The supervisor's boot: a fresh machine over the surviving log, seeded at level RUN. */
  method BootSupervisor(grace: real, log: seq<LogRow>) returns (drain: DrainMachine)
    ensures fresh(drain) && drain.grace == grace && drain.log == log
    ensures drain.View() == Seed(BOOT, MaxEpoch(log), RUN)
    ensures drain.epoch >= 0 && forall i | 0 <= i < |log| :: log[i].epoch <= drain.epoch
    ensures drain.epoch == 0 || exists i | 0 <= i < |log| :: log[i].epoch == drain.epoch
    ensures drain.level == RUN && !Gate(drain.View())
  {
    drain := new DrainMachine(grace, log);
    var m := ReadMaxEpoch(log);
    drain.SeedFromPersisted(m, RUN);
  }

  // ----- runs of the whole client against auth -----------------------------------------------------------------

  datatype Sys = Sys(m: Posture, log: seq<LogRow>, auth: Point, fails: nat, open: bool)

  datatype Op =
    | AuthMoves(to: Point)
    | PushCommand(c: Command, now: real)
    | Reconcile(reply: Option<Reply>, now: real)
    | MintFails
    | MintSucceeds
    | Restart
    | Claim

  predicate Succeeds(reply: Option<Reply>) { reply.Some? && reply.value.status == 200 }

  function Step(s: Sys, op: Op, threshold: nat, grace: real): Sys {
    match op
    case AuthMoves(to) => s.(auth := to)
    case PushCommand(c, now) =>
      s.(m := Apply(s.m, c, now, grace),
         log := if Takes(s.m, c) then s.log + [LogRow(c.epoch, c.mode, CommandDeadline(c, now, grace), c.issuedBy, now)]
           else s.log)
    case Reconcile(reply, now) => s.(m := Reconciled(s.m, reply, now, grace))
    case MintFails =>
      var open := s.open || s.fails + 1 >= threshold;
      s.(fails := s.fails + 1, open := open, m := if open then s.m.(outage := true, reconciled := false) else s.m)
    case MintSucceeds => s.(fails := 0, open := false)
    case Restart => s.(m := Seed(BOOT, MaxEpoch(s.log), RUN), fails := 0, open := false)
    case Claim => s
  }

  /** Auth only moves up, answers with where it is, and was at or above every command it issued. */
  ghost predicate Honest(s: Sys, op: Op) {
    match op
    case AuthMoves(to) => Le(s.auth, to)
    case PushCommand(c, _) => Le((c.epoch, LevelOf(c.mode)), s.auth)
    case Reconcile(reply, _) => Succeeds(reply) ==> Says(reply.value, s.auth)
    case _ => true
  }

  function Run(s0: Sys, ops: seq<Op>, threshold: nat, grace: real): Sys {
    if ops == [] then s0 else Step(Run(s0, Front(ops), threshold, grace), Last(ops), threshold, grace)
  }

  ghost predicate HonestRun(s0: Sys, ops: seq<Op>, threshold: nat, grace: real) {
    ops == []
      || (HonestRun(s0, Front(ops), threshold, grace) && Honest(Run(s0, Front(ops), threshold, grace), Last(ops)))
  }

  /** A first boot on an empty log, against an auth whose epochs start at zero or above. */
  predicate FirstBoot(s: Sys) {
    s.m == BOOT && s.log == [] && Le((0, RUN), s.auth) && s.fails == 0 && !s.open
  }

  /** The posture and the persisted epochs never get ahead of auth. */
  ghost predicate BehindAuth(s: Sys) {
    && Le(At(s.m), s.auth)
    && Le((0, RUN), s.auth)
    && forall i | 0 <= i < |s.log| :: s.log[i].epoch <= s.auth.0
  }

  lemma {:induction false} MaxEpochBound(log: seq<LogRow>, bound: int)
    requires bound >= 0 && forall i | 0 <= i < |log| :: log[i].epoch <= bound
    ensures MaxEpoch(log) <= bound
  {
    if |log| > 1 {
      MaxEpochBound(Front(log), bound);
    }
  }

  lemma StepBehindAuth(s: Sys, op: Op, threshold: nat, grace: real)
    requires BehindAuth(s) && Honest(s, op)
    ensures BehindAuth(Step(s, op, threshold, grace)) && Le(s.auth, Step(s, op, threshold, grace).auth)
  {
    if op.Restart? {
      MaxEpochBound(s.log, s.auth.0);
    }
    if op.Reconcile? && Succeeds(op.reply) {
      ReplySays(op.reply.value, s.auth);
    }
  }

  lemma LeTransitive(a: Point, b: Point, c: Point)
    requires Le(a, b) && Le(b, c)
    ensures Le(a, c)
  {
  }

  lemma {:induction false} RunBehindAuth(s0: Sys, ops: seq<Op>, i: nat, threshold: nat, grace: real)
    requires FirstBoot(s0) && HonestRun(s0, ops, threshold, grace) && i <= |ops|
    ensures BehindAuth(Run(s0, ops, threshold, grace))
    ensures Le(At(Run(s0, ops[..i], threshold, grace).m), Run(s0, ops, threshold, grace).auth)
  {
    if ops == [] {
      assert ops[..i] == ops;
    } else {
      var before := Run(s0, Front(ops), threshold, grace);
      RunBehindAuth(s0, Front(ops), Min(i, |ops| - 1), threshold, grace);
      StepBehindAuth(before, Last(ops), threshold, grace);
      if i < |ops| {
        assert Front(ops)[..i] == ops[..i];
        LeTransitive(At(Run(s0, ops[..i], threshold, grace).m), before.auth, Run(s0, ops, threshold, grace).auth);
      } else {
        assert ops[..i] == ops;
      }
    }
  }

  /** Within one boot and outside a reconcile the posture only moves up, and only a reconcile opens the gate. */
  lemma StepMonotone(s: Sys, op: Op, threshold: nat, grace: real)
    requires Honest(s, op)
    ensures !op.Restart? ==> Le(At(s.m), At(Step(s, op, threshold, grace).m))
    ensures Step(s, op, threshold, grace).m.reconciled && !s.m.reconciled ==> op.Reconcile? && Succeeds(op.reply)
    ensures op.Reconcile? && Succeeds(op.reply) ==> Le(s.auth, At(Step(s, op, threshold, grace).m))
    ensures op.Restart? ==> !Step(s, op, threshold, grace).m.reconciled
  {
    if op.Reconcile? && Succeeds(op.reply) {
      ReplySays(op.reply.value, s.auth);
    }
  }

  /** A reconciled machine is at or above every posture this runtime ever held, across restarts. */
  lemma {:induction false} ReconciledAboveAll(s0: Sys, ops: seq<Op>, i: nat, threshold: nat, grace: real)
    requires FirstBoot(s0) && HonestRun(s0, ops, threshold, grace) && i <= |ops|
    requires Run(s0, ops, threshold, grace).m.reconciled
    ensures Le(At(Run(s0, ops[..i], threshold, grace).m), At(Run(s0, ops, threshold, grace).m))
  {
    if i == |ops| {
      assert ops[..i] == ops;
    } else {
      var before := Run(s0, Front(ops), threshold, grace);
      assert Front(ops)[..i] == ops[..i];
      StepMonotone(before, Last(ops), threshold, grace);
      if Last(ops).Reconcile? && Succeeds(Last(ops).reply) {
        RunBehindAuth(s0, Front(ops), i, threshold, grace);
        LeTransitive(At(Run(s0, ops[..i], threshold, grace).m), before.auth, At(Run(s0, ops, threshold, grace).m));
      } else {
        ReconciledAboveAll(s0, Front(ops), i, threshold, grace);
        LeTransitive(At(Run(s0, ops[..i], threshold, grace).m), At(before.m), At(Run(s0, ops, threshold, grace).m));
      }
    }
  }

  /** The operation shuts the gate until the next successful reconcile. */
  predicate Shuts(s: Sys, op: Op, threshold: nat) {
    op.Restart? || (op.MintFails? && (s.open || s.fails + 1 >= threshold))
  }

  /** It is what ends a reconciliation, and nothing else does. */
  lemma ShutsMeans(s: Sys, op: Op, threshold: nat, grace: real)
    requires s.m.reconciled
    ensures Shuts(s, op, threshold) <==> !Step(s, op, threshold, grace).m.reconciled
  {
  }

  /** Operation `j` was a successful reconcile and nothing after it shut the gate. */
  ghost predicate OpenSince(s0: Sys, ops: seq<Op>, j: nat, threshold: nat, grace: real) {
    && j < |ops|
    && ops[j].Reconcile? && Succeeds(ops[j].reply)
    && forall k | j < k < |ops| :: !Shuts(Run(s0, ops[..k], threshold, grace), ops[k], threshold)
  }

  lemma {:induction false} GateWasOpened(s0: Sys, ops: seq<Op>, threshold: nat, grace: real) returns (j: nat)
    requires FirstBoot(s0) && Run(s0, ops, threshold, grace).m.reconciled
    ensures OpenSince(s0, ops, j, threshold, grace)
  {
    if Last(ops).Reconcile? && Succeeds(Last(ops).reply) {
      j := |ops| - 1;
    } else {
      j := GateWasOpened(s0, Front(ops), threshold, grace);
      forall k | j < k < |ops|
        ensures !Shuts(Run(s0, ops[..k], threshold, grace), ops[k], threshold)
      {
        if k < |ops| - 1 {
          assert Front(ops)[..k] == ops[..k] && Front(ops)[k] == ops[k];
        } else {
          assert ops[..k] == Front(ops);
        }
      }
    }
  }

  /**
   * Whenever the transport's claim_next is called, the machine has been reconciled since the last
   * boot or outage, is in no outage and at RUN; and if it ever stopped at some epoch, before or
   * after any number of restarts, it is now at RUN in a strictly higher one.
   */
  ghost predicate ClaimSafe(s0: Sys, ops: seq<Op>, threshold: nat, grace: real) {
    var s := Run(s0, ops, threshold, grace);
    Gate(s.m) ==>
      && s.m.level == RUN && !s.m.outage && s.m.reconciled
      && (exists j :: OpenSince(s0, ops, j, threshold, grace))
      && forall i | 0 <= i <= |ops| :: LiftedSince(Run(s0, ops[..i], threshold, grace).m, s.m)
  }

  ghost predicate LiftedSince(earlier: Posture, now: Posture) {
    earlier.level != RUN ==> earlier.epoch < now.epoch
  }

  lemma EveryClaimSafe(s0: Sys, ops: seq<Op>, threshold: nat, grace: real)
    requires FirstBoot(s0) && HonestRun(s0, ops, threshold, grace)
    ensures ClaimSafe(s0, ops, threshold, grace)
  {
    var s := Run(s0, ops, threshold, grace);
    if Gate(s.m) {
      var j := GateWasOpened(s0, ops, threshold, grace);
      forall i | 0 <= i <= |ops|
        ensures LiftedSince(Run(s0, ops[..i], threshold, grace).m, s.m)
      {
        ReconciledAboveAll(s0, ops, i, threshold, grace);
      }
    }
  }

  // ----- what lifts a stop, and what no restart forgets ------------------------------------------------------------

  /** The six level names the client knows. */
  ghost predicate KnownLevel(r: Reply) {
    NamesKill(r) || NamesDrain(r) || Named(r, "run") || Named(r, "g0")
  }

  ghost predicate HigherEpoch(r: Reply, m: Posture) {
    match r.epoch case None => 0 > m.epoch case Some(e) => e > m.epoch
  }

  /**
   * A stopped runtime is let go by a reconcile exactly if the reply is a 200 at a higher epoch whose level is not one
   * of the four stopping names: a name the client does not know lifts a kill as run does.
   */
  lemma UnknownLevelLifts(m: Posture, r: Reply, now: real, grace: real)
    requires m.level != RUN
    ensures Gate(Reconciled(m, Some(r), now, grace)) <==>
            r.status == 200 && HigherEpoch(r, m) && !NamesKill(r) && !NamesDrain(r)
    ensures !KnownLevel(r) ==>
              (Gate(Reconciled(m, Some(r), now, grace)) <==> r.status == 200 && HigherEpoch(r, m))
  {
    ReconcileAdopts(m, Some(r), now, grace);
  }

  /** Such a reply: the level "halt" at epoch 8 lets a runtime killed at epoch 7 claim. */
  lemma HaltLifts(now: real, grace: real)
    ensures var killed, odd := BOOT.(epoch := 7, level := KILL), Reply(200, Some(8), Some("halt"));
            !KnownLevel(odd) && Gate(Reconciled(killed, Some(odd), now, grace))
  {
    var odd := Reply(200, Some(8), Some("halt"));
    assert !SameLetter("halt"[0], "kill"[0]);
    UnknownLevelLifts(BOOT.(epoch := 7, level := KILL), odd, now, grace);
  }

  /** No posture is behind the log. */
  ghost predicate LogBehind(s: Sys) {
    s.m.epoch >= 0 && forall i | 0 <= i < |s.log| :: s.log[i].epoch <= s.m.epoch
  }

  lemma {:induction false} MaxEpochIsMax(log: seq<LogRow>)
    ensures forall i | 0 <= i < |log| :: log[i].epoch <= MaxEpoch(log)
    ensures if log == [] then MaxEpoch(log) == 0 else exists i | 0 <= i < |log| :: log[i].epoch == MaxEpoch(log)
  {
    if |log| > 1 {
      MaxEpochIsMax(Front(log));
      if MaxEpoch(log) == Last(log).epoch {
        assert log[|log| - 1].epoch == MaxEpoch(log);
      } else {
        var i :| 0 <= i < |Front(log)| && Front(log)[i].epoch == MaxEpoch(Front(log));
        assert log[i].epoch == MaxEpoch(log);
      }
    } else if log != [] {
      assert log[0].epoch == MaxEpoch(log);
    }
  }

  /** A restart keeps the log and nothing else: a machine at RUN, unreconciled, at the highest epoch of the log. */
  lemma RestartStartsOver(s: Sys, threshold: nat, grace: real)
    ensures var t := Step(s, Restart, threshold, grace);
            && t.log == s.log && t.auth == s.auth && t.fails == 0 && !t.open
            && t.m == Posture(t.m.epoch, RUN, None, "boot", {}, false, false)
            && t.m.epoch >= 0 && (forall i | 0 <= i < |s.log| :: s.log[i].epoch <= t.m.epoch)
            && (t.m.epoch == 0 || exists i | 0 <= i < |s.log| :: s.log[i].epoch == t.m.epoch)
  {
    MaxEpochIsMax(s.log);
  }

  lemma StepLogBehind(s: Sys, op: Op, threshold: nat, grace: real)
    requires LogBehind(s)
    ensures LogBehind(Step(s, op, threshold, grace)) && s.log <= Step(s, op, threshold, grace).log
  {
    if op.Restart? {
      MaxEpochIsMax(s.log);
    }
  }

  lemma {:induction false} RunLogBehind(s0: Sys, pre: seq<Op>, post: seq<Op>, threshold: nat, grace: real)
    requires FirstBoot(s0)
    ensures LogBehind(Run(s0, pre + post, threshold, grace))
    ensures Run(s0, pre, threshold, grace).log <= Run(s0, pre + post, threshold, grace).log
    decreases |pre| + |post|
  {
    if post != [] {
      assert Front(pre + post) == pre + Front(post) && Last(pre + post) == Last(post);
      RunLogBehind(s0, pre, Front(post), threshold, grace);
      StepLogBehind(Run(s0, pre + Front(post), threshold, grace), Last(post), threshold, grace);
    } else {
      assert pre + post == pre;
      if pre != [] {
        assert Front(pre) + [] == Front(pre);
        RunLogBehind(s0, Front(pre), [], threshold, grace);
        StepLogBehind(Run(s0, Front(pre), threshold, grace), Last(pre), threshold, grace);
      }
    }
  }

  /**
   * No restart forgets a command.  Once a pushed command was adopted, no command of a lower epoch ever changes anything
   * again, whatever happens in between, restarts and an auth that lies included.
   */
  lemma StaleForGood(s0: Sys, pre: seq<Op>, first: Op, post: seq<Op>, stale: Op, threshold: nat, grace: real)
    requires FirstBoot(s0) && first.PushCommand? && stale.PushCommand? && stale.c.epoch < first.c.epoch
    requires Takes(Run(s0, pre, threshold, grace).m, first.c)
    ensures var s := Run(s0, pre + [first] + post, threshold, grace); Step(s, stale, threshold, grace) == s
  {
    var s, t := Run(s0, pre, threshold, grace), Run(s0, pre + [first], threshold, grace);
    assert Front(pre + [first]) == pre;
    RunLogBehind(s0, pre + [first], post, threshold, grace);
    assert t.log[|s.log|].epoch == first.c.epoch;
  }
}
