/**
 * The bounded inner loop of a worker (platform/agent-runtime: loop.py, and the transition guard of
 * board_client.py).  Driver, Board, clock and drain schedule are arbitrary; the trace records what
 * the loop asked, saw and sent.
 */
module AgentLoop {
  import opened Prelude

  datatype WorkClass = Benign | SodAdjacent

  datatype ActionKind = NotesRead | NotesWrite | Transition | Noop

  datatype Action = Action(kind: ActionKind, toState: Option<string>, reason: string, work: WorkClass)

  /** The Board's answer: taken, rejected as stale, or any other error, which the client passes on unread. */
  datatype BoardReply = Accepted | StaleFence | Refused

  datatype Outcome = Completed | Escalated | Abandoned | ViolationBlocked

  /** The k-th decision, the k-th look at the drain machine, the k-th clock reading, the k-th Board answer. */
  datatype World = World(decide: nat -> Action, stopped: nat -> bool, clock: nat -> real, board: nat -> BoardReply)

  datatype Event =
    | Ask(action: Action)
    | Look(stopped: bool, inFlight: WorkClass)
    | Tick(now: real)
    | Progress(at: real)
    | Send(toState: string, reason: string, reply: BoardReply)

  const CAUSABLE: set<string> := {"in_progress", "awaiting_approval", "needs_review", "blocked", "todo"}
  const FORBIDDEN: set<string> := {"approved", "executing", "verifying", "done", "failed", "cancelled"}

  /** The sends that end a run. */
  predicate Ends(to: string) { to == "needs_review" || to == "awaiting_approval" || to == "blocked" }

  function Asks(trace: seq<Event>): nat {
    if trace == [] then 0 else Asks(Front(trace)) + (if Last(trace).Ask? then 1 else 0)
  }

  function Sends(trace: seq<Event>): nat {
    if trace == [] then 0 else Sends(Front(trace)) + (if Last(trace).Send? then 1 else 0)
  }

  function Looks(trace: seq<Event>): nat {
    if trace == [] then 0 else Looks(Front(trace)) + (if Last(trace).Look? then 1 else 0)
  }

  /** Clock readings after the one at the start. */
  function Clocks(trace: seq<Event>): nat {
    if trace == [] then 0 else Clocks(Front(trace)) + (if Last(trace).Tick? || Last(trace).Progress? then 1 else 0)
  }

  function Progresses(trace: seq<Event>): nat {
    if trace == [] then 0 else Progresses(Front(trace)) + (if Last(trace).Progress? then 1 else 0)
  }

  /** The class of the work the driver last asked for; nothing yet is benign. */
  function LastWork(trace: seq<Event>): WorkClass {
    if trace == [] then Benign else if Last(trace).Ask? then Last(trace).action.work else LastWork(Front(trace))
  }

  // ----- the world the trace met ---------------------------------------------------------------------------------

  /**
   * Event `i` is the world's: the k-th look reads the k-th state of the drain machine and carries the class of the work
   * then in flight, the k-th question gets the k-th decision, and clock and Board answer in turn.
   */
  ghost predicate MetAt(world: World, trace: seq<Event>, i: nat)
    requires i < |trace|
  {
    var past := trace[..i];
    match trace[i]
    case Look(stopped, inFlight) => stopped == world.stopped(Looks(past)) && inFlight == LastWork(past)
    case Ask(action) => action == world.decide(Asks(past))
    case Tick(now) => now == world.clock(1 + Clocks(past))
    case Progress(at) => at == world.clock(1 + Clocks(past))
    case Send(_, _, reply) => reply == world.board(Sends(past))
  }

  ghost predicate Met(world: World, trace: seq<Event>) {
    forall i | 0 <= i < |trace| :: MetAt(world, trace, i)
  }

  // ----- what happens next ---------------------------------------------------------------------------------------

  function Blocked(world: World, reason: string, past: seq<Event>): Event {
    Send("blocked", reason, world.board(Sends(past)))
  }

  function LookNow(world: World, past: seq<Event>): Event {
    Look(world.stopped(Looks(past)), LastWork(past))
  }

  /** Another round, or the escalation at the step cap. */
  function RoundStart(world: World, maxSteps: nat, past: seq<Event>): Event {
    if Asks(past) < maxSteps then LookNow(world, past) else Blocked(world, "hard step cap reached", past)
  }

  /** What a decision does once the drain machine was found running behind it. */
  function Act(world: World, maxSteps: nat, action: Action, past: seq<Event>): Event {
    match action.kind
    case Transition =>
      if GuardAllows(action.toState) then Send(action.toState.value, action.reason, world.board(Sends(past)))
      else Blocked(world, "model attempted forbidden transition; auto-escalated", past)
    case Noop => RoundStart(world, maxSteps, past)
    case _ => Progress(world.clock(1 + Clocks(past)))
  }

  /** The event that must follow `past`; None is the end of the run. */
  function NextEvent(world: World, maxSteps: nat, budget: real, past: seq<Event>): Option<Event> {
    if past == [] then Some(RoundStart(world, maxSteps, past))
    else
      match Last(past)
      case Look(stopped, work) =>
        if stopped then if work.SodAdjacent? then None else Some(Blocked(world, "drained", past))
        else if |past| > 1 && past[|past| - 2].Ask? then Some(Act(world, maxSteps, past[|past| - 2].action, past))
        else Some(Tick(world.clock(1 + Clocks(past))))
      case Tick(now) =>
        if now - LastProgress(world.clock(0), past) > budget then
          Some(Blocked(world, "no-progress budget exceeded", past))
        else Some(Ask(world.decide(Asks(past))))
      case Ask(_) => Some(LookNow(world, past))
      case Progress(_) => Some(RoundStart(world, maxSteps, past))
      case Send(to, _, reply) =>
        if Ends(to) || reply.StaleFence? then None else Some(RoundStart(world, maxSteps, past))
  }

  /** Every event is the one that had to come. */
  ghost predicate Plays(world: World, maxSteps: nat, budget: real, trace: seq<Event>) {
    forall i | 0 <= i < |trace| :: NextEvent(world, maxSteps, budget, trace[..i]) == Some(trace[i])
  }

  /** One more event that had to come. */
  lemma PlaysOn(world: World, maxSteps: nat, budget: real, trace: seq<Event>, e: Event)
    requires Plays(world, maxSteps, budget, trace) && NextEvent(world, maxSteps, budget, trace) == Some(e)
    ensures Plays(world, maxSteps, budget, trace + [e])
  {
    hide NextEvent;
    forall i | 0 <= i < |trace + [e]|
      ensures NextEvent(world, maxSteps, budget, (trace + [e])[..i]) == Some((trace + [e])[i])
    {
      assert (trace + [e])[..i] == if i < |trace| then trace[..i] else trace;
    }
  }

  /** The world decides the run: there is one trace only. */
  lemma {:induction false} OneTrace(world: World, maxSteps: nat, budget: real, a: seq<Event>, b: seq<Event>, k: nat)
    requires Plays(world, maxSteps, budget, a) && NextEvent(world, maxSteps, budget, a) == None
    requires Plays(world, maxSteps, budget, b) && NextEvent(world, maxSteps, budget, b) == None
    requires k <= |a| && k <= |b| && a[..k] == b[..k]
    ensures a == b
    decreases |a| - k
  {
    hide NextEvent;
    assert k == |a| ==> a[..k] == a;
    assert k == |b| ==> b[..k] == b;
    if k < |a| && k < |b| {
      assert a[..k + 1] == a[..k] + [a[k]] && b[..k + 1] == b[..k] + [b[k]];
      OneTrace(world, maxSteps, budget, a, b, k + 1);
    }
  }

  lemma NextMet(world: World, maxSteps: nat, budget: real, past: seq<Event>)
    ensures match NextEvent(world, maxSteps, budget, past)
            case None => true
            case Some(Look(stopped, work)) => stopped == world.stopped(Looks(past)) && work == LastWork(past)
            case Some(Ask(action)) => action == world.decide(Asks(past))
            case Some(Tick(now)) => now == world.clock(1 + Clocks(past))
            case Some(Progress(at)) => at == world.clock(1 + Clocks(past))
            case Some(Send(_, _, reply)) => reply == world.board(Sends(past))
  {
    hide Looks, Asks, Clocks, Sends, LastWork, LastProgress;
  }

  /** Such a trace is what the world answered, and each question is asked behind a look that found nothing stopped. */
  lemma PlaysMet(world: World, maxSteps: nat, budget: real, trace: seq<Event>)
    requires Plays(world, maxSteps, budget, trace)
    ensures Met(world, trace)
  {
    forall i | 0 <= i < |trace|
      ensures MetAt(world, trace, i)
    {
      assert NextEvent(world, maxSteps, budget, trace[..i]) == Some(trace[i]);
      NextMet(world, maxSteps, budget, trace[..i]);
      hide NextEvent, Looks, Asks, Clocks, Sends, LastWork;
    }
  }

  /** Behind a stop nothing is asked, read or acted on: what follows a look found it running, but for the checkpoint. */
  ghost predicate LookedAt(trace: seq<Event>, i: nat)
    requires i < |trace|
  {
    match trace[i]
    case Tick(_) => i > 0 && trace[i - 1].Look? && !trace[i - 1].stopped
    case Ask(_) => i > 1 && trace[i - 1].Tick? && trace[i - 2].Look? && !trace[i - 2].stopped
    case Progress(_) => i > 1 && trace[i - 1].Look? && !trace[i - 1].stopped && trace[i - 2].Ask?
    case Send(to, reason, _) =>
      i > 0 && trace[i - 1].Look? && trace[i - 1].stopped ==>
        trace[i - 1].inFlight.Benign? && to == "blocked" && reason == "drained"
    case _ => true
  }

  ghost predicate LookedFirst(trace: seq<Event>) {
    forall i | 0 <= i < |trace| :: LookedAt(trace, i)
  }

  /** What comes when, by the last event alone. */
  lemma NextAfter(world: World, maxSteps: nat, budget: real, past: seq<Event>)
    ensures match NextEvent(world, maxSteps, budget, past)
            case None => true
            case Some(Tick(_)) => past != [] && Last(past).Look? && !Last(past).stopped
            case Some(Ask(_)) => past != [] && Last(past).Tick?
            case Some(Progress(_)) =>
              |past| > 1 && Last(past).Look? && !Last(past).stopped && past[|past| - 2].Ask?
            case Some(Send(to, reason, _)) =>
              past != [] && Last(past).Look? && Last(past).stopped ==>
                Last(past).inFlight.Benign? && to == "blocked" && reason == "drained"
            case _ => true
  {
    hide Looks, Asks, Clocks, Sends, LastWork, LastProgress;
  }

  lemma PlaysLooked(world: World, maxSteps: nat, budget: real, trace: seq<Event>)
    requires Plays(world, maxSteps, budget, trace)
    ensures LookedFirst(trace)
  {
    hide NextEvent;
    forall i | 0 <= i < |trace|
      ensures LookedAt(trace, i)
    {
      assert NextEvent(world, maxSteps, budget, trace[..i]) == Some(trace[i]);
      NextAfter(world, maxSteps, budget, trace[..i]);
      if i > 0 {
        assert NextEvent(world, maxSteps, budget, trace[..i - 1]) == Some(trace[i - 1]);
        NextAfter(world, maxSteps, budget, trace[..i - 1]);
      }
    }
  }

  /** The states an agent may cause. */
  predicate AgentMay(state: string) {
    || state == "in_progress" || state == "todo" || state == "blocked"
    || state == "needs_review" || state == "awaiting_approval"
  }

  /** The target the driver asked for is one of them. */
  predicate AsksAllowed(action: Action) {
    action.toState.Some? && AgentMay(action.toState.value)
  }

  lemma GuardMeans(action: Action)
    ensures GuardAllows(action.toState) <==> AsksAllowed(action)
  {
  }

  /**
   * What a decision brought, once the machine was found running behind it: the transition asked for, or blocked in
   * place of a forbidden one; progress for notes, and nothing for anything else.
   */
  ghost predicate ObeyedAt(trace: seq<Event>, i: nat)
    requires i < |trace|
  {
    trace[i].Ask? ==>
      && i + 1 < |trace| && trace[i + 1].Look?
      && (trace[i + 1].stopped ||
          match trace[i].action.kind
          case Transition =>
            && i + 2 < |trace| && trace[i + 2].Send?
            && (if AsksAllowed(trace[i].action)
                then trace[i + 2].toState == trace[i].action.toState.value
                  && trace[i + 2].reason == trace[i].action.reason
                else trace[i + 2].toState == "blocked")
          case Noop => i + 2 < |trace| && (trace[i + 2].Look? || trace[i + 2].Send?)
          case _ => i + 2 < |trace| && trace[i + 2].Progress?)
  }

  ghost predicate Obeyed(trace: seq<Event>) {
    forall i | 0 <= i < |trace| :: ObeyedAt(trace, i)
  }

  /** The run is over: every event had to come, and no other has to. */
  ghost predicate Over(world: World, maxSteps: nat, budget: real, trace: seq<Event>) {
    Plays(world, maxSteps, budget, trace) && NextEvent(world, maxSteps, budget, trace) == None
  }

  lemma OverAt(world: World, maxSteps: nat, budget: real, trace: seq<Event>, i: nat)
    requires Over(world, maxSteps, budget, trace) && i <= |trace|
             && NextEvent(world, maxSteps, budget, trace[..i]).Some?
    ensures i < |trace| && NextEvent(world, maxSteps, budget, trace[..i]) == Some(trace[i])
  {
    assert trace[..|trace|] == trace;
  }

  lemma OverObeyed(world: World, maxSteps: nat, budget: real, trace: seq<Event>)
    requires Over(world, maxSteps, budget, trace)
    ensures Obeyed(trace)
  {
    hide NextEvent;
    forall i | 0 <= i < |trace|
      ensures ObeyedAt(trace, i)
    {
      if trace[i].Ask? {
        assert trace[..i + 1] == trace[..i] + [trace[i]];
        NextIsLook(world, maxSteps, budget, trace[..i], trace[i].action);
        OverAt(world, maxSteps, budget, trace, i + 1);
        if !trace[i + 1].stopped {
          assert trace[..i + 2] == trace[..i] + [trace[i]] + [trace[i + 1]];
          NextIsAct(world, maxSteps, budget, trace[..i], trace[i].action, trace[i + 1].inFlight);
          OverAt(world, maxSteps, budget, trace, i + 2);
          GuardMeans(trace[i].action);
        }
      }
    }
  }

  /** The driver's last wish was a state no agent may cause, and nothing stopped it before the guard did. */
  ghost predicate EndsForbidden(trace: seq<Event>) {
    var n := |trace|;
    && n > 2 && trace[n - 1].Send? && trace[n - 2].Look? && !trace[n - 2].stopped
    && trace[n - 3].Ask? && trace[n - 3].action.kind.Transition? && !AsksAllowed(trace[n - 3].action)
  }

  // ----- the same, event by event ----------------------------------------------------------------------------------

  lemma NextIsTick(world: World, maxSteps: nat, budget: real, head: seq<Event>, look: Event)
    requires look.Look? && !look.stopped && (head != [] ==> !Last(head).Ask?)
    ensures NextEvent(world, maxSteps, budget, head + [look]) == Some(Tick(world.clock(1 + Clocks(head))))
  {
    CountOne(head, look);
    hide LastProgress, Clocks, Asks;
  }

  lemma NextIsDrain(world: World, maxSteps: nat, budget: real, past: seq<Event>)
    requires past != [] && Last(past).Look? && Last(past).stopped
    ensures NextEvent(world, maxSteps, budget, past) ==
            if Last(past).inFlight.SodAdjacent? then None else Some(Blocked(world, "drained", past))
  {
  }

  lemma NextIsAsk(world: World, maxSteps: nat, budget: real, head: seq<Event>, look: Event, now: real)
    requires look.Look?
    ensures NextEvent(world, maxSteps, budget, head + [look] + [Tick(now)]) ==
            if now - LastProgress(world.clock(0), head) > budget then
              Some(Blocked(world, "no-progress budget exceeded", head + [look] + [Tick(now)]))
            else Some(Ask(world.decide(Asks(head))))
  {
    CountOne(head, look);
    CountOne(head + [look], Tick(now));
    assert Front(head + [look] + [Tick(now)]) == head + [look] && Front(head + [look]) == head;
    hide Clocks, Asks, Sends;
  }

  lemma NextIsLook(world: World, maxSteps: nat, budget: real, past: seq<Event>, action: Action)
    ensures NextEvent(world, maxSteps, budget, past + [Ask(action)]) ==
            Some(Look(world.stopped(Looks(past)), action.work))
  {
    CountOne(past, Ask(action));
    hide Looks, LastWork;
  }

  lemma NextIsAct(world: World, maxSteps: nat, budget: real, past: seq<Event>, action: Action, work: WorkClass)
    ensures NextEvent(world, maxSteps, budget, past + [Ask(action)] + [Look(false, work)]) ==
            Some(Act(world, maxSteps, action, past + [Ask(action)] + [Look(false, work)]))
  {
    var all := past + [Ask(action)] + [Look(false, work)];
    assert all[|all| - 2] == Ask(action);
    hide Act;
  }

  /** Nothing, or the next round, behind what was acted. */
  lemma NextIsRound(world: World, maxSteps: nat, budget: real, past: seq<Event>, e: Event)
    requires e.Progress? || e.Send?
    ensures NextEvent(world, maxSteps, budget, past + [e]) ==
            if e.Send? && (Ends(e.toState) || e.reply.StaleFence?) then None
            else Some(RoundStart(world, maxSteps, past + [e]))
  {
    hide RoundStart;
  }

  /** Between two rounds, the loop's own variables what they stand for. */
  ghost predicate Round(world: World, maxSteps: nat, budget: real, trace: seq<Event>, looks: nat, ticks: nat,
                        inFlight: WorkClass) {
    && Plays(world, maxSteps, budget, trace)
    && NextEvent(world, maxSteps, budget, trace) == Some(RoundStart(world, maxSteps, trace))
    && looks == Looks(trace) && ticks == 1 + Clocks(trace) && inFlight == LastWork(trace)
    && (trace != [] ==> !Last(trace).Ask?)
    && (trace != [] && Last(trace).Look? ==>
        |trace| > 1 && trace[|trace| - 2].Ask? && trace[|trace| - 2].action.kind.Noop?)
  }

  lemma RoundBegins(world: World, maxSteps: nat, budget: real)
    ensures Round(world, maxSteps, budget, [], 0, 1, Benign)
  {
  }

  lemma DrainGoes(world: World, maxSteps: nat, budget: real, past: seq<Event>, rest: seq<Event>)
    requires Plays(world, maxSteps, budget, past) && past != [] && Last(past).Look? && Last(past).stopped
    requires rest == if Last(past).inFlight.SodAdjacent? then [] else [Blocked(world, "drained", past)]
    ensures Over(world, maxSteps, budget, past + rest)
  {
    hide NextEvent, Plays;
    NextIsDrain(world, maxSteps, budget, past);
    if rest == [] {
      assert past + rest == past;
    } else {
      PlaysOn(world, maxSteps, budget, past, rest[0]);
      NextIsRound(world, maxSteps, budget, past, rest[0]);
    }
  }

  /** The first look of a round, and the clock behind it. */
  lemma LookGoes(world: World, maxSteps: nat, budget: real, head: seq<Event>, looks: nat, ticks: nat,
                 inFlight: WorkClass, look: Event)
    requires Round(world, maxSteps, budget, head, looks, ticks, inFlight) && Asks(head) < maxSteps
    requires look == Look(world.stopped(looks), inFlight)
    ensures Plays(world, maxSteps, budget, head + [look])
    ensures !look.stopped ==> Plays(world, maxSteps, budget, head + [look] + [Tick(world.clock(ticks))])
  {
    hide NextEvent, Plays, Looks, Clocks, LastWork, Asks;
    PlaysOn(world, maxSteps, budget, head, look);
    if !look.stopped {
      NextIsTick(world, maxSteps, budget, head, look);
      PlaysOn(world, maxSteps, budget, head + [look], Tick(world.clock(ticks)));
    }
  }

  lemma LateGoes(world: World, maxSteps: nat, budget: real, head: seq<Event>, look: Event, now: real)
    requires look.Look? && Plays(world, maxSteps, budget, head + [look] + [Tick(now)])
    requires now - LastProgress(world.clock(0), head) > budget
    ensures var past := head + [look] + [Tick(now)];
            Over(world, maxSteps, budget, past + [Blocked(world, "no-progress budget exceeded", past)])
  {
    hide NextEvent, Plays, LastProgress;
    var past := head + [look] + [Tick(now)];
    NextIsAsk(world, maxSteps, budget, head, look, now);
    PlaysOn(world, maxSteps, budget, past, Blocked(world, "no-progress budget exceeded", past));
    NextIsRound(world, maxSteps, budget, past, Blocked(world, "no-progress budget exceeded", past));
  }

  /** The question and the look behind it. */
  lemma AskGoes(world: World, maxSteps: nat, budget: real, head: seq<Event>, looks: nat, look: Event, now: real,
                action: Action, second: Event)
    requires look.Look? && Plays(world, maxSteps, budget, head + [look] + [Tick(now)]) && looks == Looks(head)
    requires now - LastProgress(world.clock(0), head) <= budget && action == world.decide(Asks(head))
    requires second == Look(world.stopped(looks + 1), action.work)
    ensures Plays(world, maxSteps, budget, head + [look] + [Tick(now)] + [Ask(action)] + [second])
  {
    hide NextEvent, Plays, LastProgress, Asks;
    var past := head + [look] + [Tick(now)];
    NextIsAsk(world, maxSteps, budget, head, look, now);
    PlaysOn(world, maxSteps, budget, past, Ask(action));
    CountOne(head, look);
    CountOne(head + [look], Tick(now));
    NextIsLook(world, maxSteps, budget, past, action);
    PlaysOn(world, maxSteps, budget, past + [Ask(action)], second);
  }

  /** What the decision does, and what that leads to. */
  lemma ActGoes(world: World, maxSteps: nat, budget: real, past: seq<Event>, action: Action, work: WorkClass,
                trace: seq<Event>, rest: seq<Event>, looks: nat, ticks: nat)
    requires trace == past + [Ask(action)] + [Look(false, work)] && Plays(world, maxSteps, budget, trace)
    requires rest == if action.kind.Noop? then [] else [Act(world, 0, action, trace)]
    requires looks == Looks(trace) && ticks == 1 + Clocks(trace)
    ensures if rest != [] && rest[0].Send? && (Ends(rest[0].toState) || rest[0].reply.StaleFence?)
            then Over(world, maxSteps, budget, trace + rest)
            else Round(world, maxSteps, budget, trace + rest, looks,
                       if rest != [] && rest[0].Progress? then ticks + 1 else ticks, action.work)
  {
    CountOne(past, Ask(action));
    CountOne(past + [Ask(action)], Look(false, work));
    NextIsAct(world, maxSteps, budget, past, action, work);
    hide NextEvent, Plays, LastProgress, Asks, Looks, Clocks, LastWork, Sends;
    if action.kind.Noop? {
      assert trace + rest == trace && trace[|trace| - 2] == Ask(action);
    } else {
      assert rest[0] == Act(world, maxSteps, action, trace);
      CountOne(trace, rest[0]);
      PlaysOn(world, maxSteps, budget, trace, rest[0]);
      NextIsRound(world, maxSteps, budget, trace, rest[0]);
    }
  }

  lemma CapGoes(world: World, maxSteps: nat, budget: real, head: seq<Event>, looks: nat, ticks: nat,
                inFlight: WorkClass)
    requires Round(world, maxSteps, budget, head, looks, ticks, inFlight) && Asks(head) >= maxSteps
    ensures Over(world, maxSteps, budget, head + [Blocked(world, "hard step cap reached", head)])
    ensures !EndsForbidden(head + [Blocked(world, "hard step cap reached", head)])
  {
    hide NextEvent, Plays, Looks, Clocks, LastWork, Asks;
    PlaysOn(world, maxSteps, budget, head, Blocked(world, "hard step cap reached", head));
    NextIsRound(world, maxSteps, budget, head, Blocked(world, "hard step cap reached", head));
  }

  /** Mid-run: nothing observed stopped, nothing sent that ends the run, nothing sent beyond the agent's set. */
  ghost predicate Running(trace: seq<Event>) {
    forall i | 0 <= i < |trace| ::
      match trace[i]
      case Look(stopped, _) => !stopped
      case Send(to, _, reply) => to in CAUSABLE && !Ends(to) && !reply.StaleFence?
      case _ => true
  }

  // ----- the no-progress detector -----------------------------------------------------------------------------

  predicate IsNotes(kind: ActionKind) { kind.NotesRead? || kind.NotesWrite? }

  /** When progress was last made; `start` is the clock at the beginning of the run. */
  function LastProgress(start: real, trace: seq<Event>): real {
    if trace == [] then start else if Last(trace).Progress? then Last(trace).at else LastProgress(start, Front(trace))
  }

  /**
   * One event and its neighbours.  A clock reading past the budget is answered by an escalation that ends the run, any
   * other by a question to the driver, and there is no question without one.  Reading or writing notes, and nothing
   * else, is progress.
   */
  ghost predicate PacedAt(start: real, trace: seq<Event>, budget: real, i: nat)
    requires i < |trace|
  {
    match trace[i]
    case Tick(now) =>
      && i + 1 < |trace|
      && if now - LastProgress(start, trace[..i]) > budget
         then i + 2 == |trace| && trace[i + 1].Send? && trace[i + 1].toState == "blocked"
         else trace[i + 1].Ask?
    case Ask(action) =>
      && 0 < i && trace[i - 1].Tick?
      && i + 1 < |trace| && trace[i + 1].Look?
      && (IsNotes(action.kind) && !trace[i + 1].stopped ==> i + 2 < |trace| && trace[i + 2].Progress?)
    case Progress(_) => 2 <= i && trace[i - 2].Ask? && IsNotes(trace[i - 2].action.kind)
    case _ => true
  }

  ghost predicate Paced(start: real, trace: seq<Event>, budget: real) {
    forall i | 0 <= i < |trace| :: PacedAt(start, trace, budget, i)
  }

  /** The run ended on a stop, on the clock, or on a transition the driver asked for. */
  ghost predicate Caused(trace: seq<Event>) {
    var n := |trace|;
    || (n > 0 && trace[n - 1].Look?)
    || (n > 1 && (trace[n - 2].Tick? || (trace[n - 2].Look? && trace[n - 2].stopped)))
    || (n > 2 && trace[n - 2].Look? && trace[n - 3].Ask? && trace[n - 3].action.kind.Transition?)
  }

  lemma {:induction false} LastProgressJoins(start: real, t: seq<Event>, more: seq<Event>)
    ensures LastProgress(start, t + more) == LastProgress(LastProgress(start, t), more)
  {
    if more == [] {
      assert t + more == t;
    } else {
      assert Front(t + more) == t + Front(more) && Last(t + more) == Last(more);
      LastProgressJoins(start, t, Front(more));
    }
  }

  /** One round after another: each is paced by the progress made before it. */
  lemma PacedJoin(start: real, t: seq<Event>, round: seq<Event>, budget: real)
    requires Paced(start, t, budget) && Running(t) && Paced(LastProgress(start, t), round, budget)
    ensures Paced(start, t + round, budget)
    ensures LastProgress(start, t + round) == LastProgress(LastProgress(start, t), round)
  {
    var all := t + round;
    LastProgressJoins(start, t, round);
    forall i | 0 <= i < |all|
      ensures PacedAt(start, all, budget, i)
    {
      if i < |t| {
        assert PacedAt(start, t, budget, i);
        assert all[..i] == t[..i];
      } else {
        assert PacedAt(LastProgress(start, t), round, budget, i - |t|);
        assert all[..i] == t + round[..i - |t|];
        LastProgressJoins(start, t, round[..i - |t|]);
      }
    }
  }

  /** Progress was last made at the last progress event, or at the start; the work in flight is the last question's. */
  lemma {:induction false} LastMeans(start: real, trace: seq<Event>, k: nat)
    requires k <= |trace|
    ensures k < |trace| && trace[k].Progress? && (forall i | k < i < |trace| :: !trace[i].Progress?) ==>
              LastProgress(start, trace) == trace[k].at
    ensures (forall i | 0 <= i < |trace| :: !trace[i].Progress?) ==> LastProgress(start, trace) == start
    ensures k < |trace| && trace[k].Ask? && (forall i | k < i < |trace| :: !trace[i].Ask?) ==>
              LastWork(trace) == trace[k].action.work
    ensures (forall i | 0 <= i < |trace| :: !trace[i].Ask?) ==> LastWork(trace) == Benign
  {
    if trace != [] {
      assert Last(trace) == trace[|trace| - 1] && forall i | 0 <= i < |trace| - 1 :: Front(trace)[i] == trace[i];
      LastMeans(start, Front(trace), Min(k, |trace| - 1));
    }
  }

  /** Nothing outside the agent's set is ever sent. */
  ghost predicate OnlyCausable(trace: seq<Event>) {
    forall i | 0 <= i < |trace| && trace[i].Send? ::
      trace[i].toState in CAUSABLE && trace[i].toState !in FORBIDDEN && AgentMay(trace[i].toState)
  }

  /** A send that ends the run, or that the Board calls stale, is the last thing that happens. */
  ghost predicate EndsLast(trace: seq<Event>) {
    forall i | 0 <= i < |trace| && trace[i].Send? && (Ends(trace[i].toState) || trace[i].reply.StaleFence?) ::
           i == |trace| - 1
  }

  /**
   * Once a drain or outage is seen with SoD-adjacent work in flight nothing more is sent; with
   * benign work, exactly the checkpoint to blocked is.
   */
  ghost predicate StopsClean(trace: seq<Event>) {
    forall i | 0 <= i < |trace| && trace[i].Look? && trace[i].stopped ::
      if trace[i].inFlight.SodAdjacent? then i == |trace| - 1
      else
        i == |trace| - 2 && trace[i + 1].Send? && trace[i + 1].toState == "blocked" && trace[i + 1].reason == "drained"
  }

  /**
   * What the outcome says about the last event.  A run is completed exactly when it sent one of the two proposals and
   * the Board did not call it stale: a refusal for any other reason completes it as well.
   */
  ghost predicate Tells(outcome: Outcome, trace: seq<Event>) {
    trace != [] &&
    var e := Last(trace);
    (outcome == Completed <==>
       e.Send? && (e.toState == "needs_review" || e.toState == "awaiting_approval") && !e.reply.StaleFence?) &&
    match outcome
    case Completed => true
    case Escalated => e.Send? && e.toState == "blocked" && !e.reply.StaleFence?
    case ViolationBlocked => e.Send? && e.toState == "blocked"
    case Abandoned => (e.Look? && e.stopped && e.inFlight.SodAdjacent?) || (e.Send? && e.reply.StaleFence?)
  }

  ghost predicate WellShaped(outcome: Outcome, trace: seq<Event>) {
    OnlyCausable(trace) && EndsLast(trace) && StopsClean(trace) && Tells(outcome, trace)
  }

  lemma CountOne(trace: seq<Event>, e: Event)
    ensures Asks([]) == Sends([]) == Looks([]) == Clocks([]) == Progresses([]) == 0
    ensures Asks(trace + [e]) == Asks(trace) + (if e.Ask? then 1 else 0)
    ensures Sends(trace + [e]) == Sends(trace) + (if e.Send? then 1 else 0)
    ensures Looks(trace + [e]) == Looks(trace) + (if e.Look? then 1 else 0)
    ensures Clocks(trace + [e]) == Clocks(trace) + (if e.Tick? || e.Progress? then 1 else 0)
    ensures Progresses(trace + [e]) == Progresses(trace) + (if e.Progress? then 1 else 0)
    ensures LastWork(trace + [e]) == if e.Ask? then e.action.work else LastWork(trace)
  {
    assert Front(trace + [e]) == trace;
  }

  /** The guard runs first; only a target in the agent's set reaches the transport. */
  predicate GuardAllows(to: Option<string>) { to.Some? && to.value in CAUSABLE }

  method SendTransition(world: World, to: string, reason: string, trace: seq<Event>) returns (extended: seq<Event>,
      reply: BoardReply)
    requires to in CAUSABLE
    ensures reply == world.board(Sends(trace)) && extended == trace + [Send(to, reason, reply)]
    ensures Asks(extended) == Asks(trace) && Progresses(extended) == Progresses(trace)
  {
    reply := world.board(Sends(trace));
    extended := trace + [Send(to, reason, reply)];
    CountOne(trace, Send(to, reason, reply));
  }

  method Escalate(world: World, reason: string, trace: seq<Event>) returns (outcome: Outcome, extended: seq<Event>)
    requires Running(trace)
    ensures WellShaped(outcome, extended) && Asks(extended) == Asks(trace) && Progresses(extended) == Progresses(trace)
    ensures outcome == if world.board(Sends(trace)).StaleFence? then Abandoned else Escalated
    ensures extended == trace + [Blocked(world, reason, trace)]
  {
    var reply;
    extended, reply := SendTransition(world, "blocked", reason, trace);
    outcome := if reply == StaleFence then Abandoned else Escalated;
  }

  method OnDrain(world: World, work: WorkClass, trace: seq<Event>)
    returns (outcome: Outcome, extended: seq<Event>, ghost rest: seq<Event>)
    requires trace != [] && Last(trace) == Look(true, work) && Running(Front(trace))
    ensures WellShaped(outcome, extended) && Asks(extended) == Asks(trace) && Progresses(extended) == Progresses(trace)
    ensures outcome == Escalated || outcome == Abandoned
    ensures extended == trace + rest && Silent(rest)
    ensures rest == if work.SodAdjacent? then [] else [Blocked(world, "drained", trace)]
  {
    assert trace == Front(trace) + [Last(trace)];
    if work.SodAdjacent? {
      return Abandoned, trace, [];
    }
    var reply;
    extended, reply := SendTransition(world, "blocked", "drained", trace);
    rest := [Last(extended)];
    assert forall i | 0 <= i < |trace| - 1 :: extended[i] == Front(trace)[i];
    outcome := if reply == StaleFence then Abandoned else Escalated;
  }

  /** Executes a transition the driver asked for; None lets the loop go on. */
  method OnTransition(world: World, action: Action, trace: seq<Event>)
    returns (outcome: Option<Outcome>, extended: seq<Event>, ghost sent: Event)
    requires Running(trace)
    ensures Asks(extended) == Asks(trace) && Progresses(extended) == Progresses(trace)
    ensures Obeys(sent, action) && extended == trace + [sent]
    ensures action.kind.Transition? ==> sent == Act(world, 0, action, trace)
    ensures outcome == Some(ViolationBlocked) <==> !GuardAllows(action.toState)
    ensures outcome.Some? <==> Ends(sent.toState) || sent.reply.StaleFence?
    ensures match outcome
            case None => Running(extended)
            case Some(o) => WellShaped(o, extended)
  {
    if !GuardAllows(action.toState) {
      var _, escalated := Escalate(world, "model attempted forbidden transition; auto-escalated", trace);
      return Some(ViolationBlocked), escalated, Last(escalated);
    }
    var to := action.toState.value;
    var reply;
    extended, reply := SendTransition(world, to, action.reason, trace);
    sent := Last(extended);
    if reply == StaleFence {
      return Some(Abandoned), extended, sent;
    }
    if to == "needs_review" || to == "awaiting_approval" {
      return Some(Completed), extended, sent;
    }
    if to == "blocked" {
      return Some(Escalated), extended, sent;
    }
    return None, extended, sent;
  }

  /** Executes the driver's action: a transition is sent, notes are progress, anything else is neither. */
  method Execute(world: World, action: Action, ticks: nat, trace: seq<Event>)
    returns (outcome: Option<Outcome>, extended: seq<Event>, progressed: bool, ghost rest: seq<Event>)
    requires Running(trace) && ticks == 1 + Clocks(trace)
    ensures Asks(extended) == Asks(trace)
    ensures progressed <==> IsNotes(action.kind)
    ensures Progresses(extended) == Progresses(trace) + (if progressed then 1 else 0)
    ensures extended == trace + rest
    ensures rest == if action.kind.Noop? then [] else [Act(world, 0, action, trace)]
    ensures outcome == Some(ViolationBlocked) <==> action.kind.Transition? && !GuardAllows(action.toState)
    ensures outcome.Some? <==> rest != [] && rest[0].Send? && (Ends(rest[0].toState) || rest[0].reply.StaleFence?)
    ensures match action.kind
            case Transition => |rest| == 1 && Obeys(rest[0], action)
            case Noop => rest == [] && outcome == None
            case _ => rest == [Progress(world.clock(ticks))] && outcome == None
    ensures match outcome
            case None => Running(extended)
            case Some(o) => WellShaped(o, extended)
  {
    hide WellShaped;
    progressed, rest := false, [];
    if action.kind.Transition? {
      ghost var sent;
      outcome, extended, sent := OnTransition(world, action, trace);
      rest := [sent];
    } else if action.kind.NotesRead? || action.kind.NotesWrite? {
      Snoc(trace, Progress(world.clock(ticks)));
      rest := [Progress(world.clock(ticks))];
      outcome, extended, progressed := None, trace + [Progress(world.clock(ticks))], true;
    } else {
      outcome, extended := None, trace;
    }
  }

  /** What is sent for a transition the driver asks for: that transition, or blocked in place of a forbidden one. */
  predicate Obeys(e: Event, action: Action) {
    e.Send? && if GuardAllows(action.toState) then e.toState == action.toState.value && e.reason == action.reason
               else e.toState == "blocked"
  }

  lemma RoundPaced(base: real, look: Event, now: real, action: Action, second: Event, rest: seq<Event>, budget: real)
    requires look.Look? && second.Look? && now - base <= budget && |rest| <= 1
    requires IsNotes(action.kind) && !second.stopped ==> rest != [] && rest[0].Progress?
    requires rest != [] ==> rest[0].Send? || (rest[0].Progress? && IsNotes(action.kind))
    ensures Paced(base, [look, Tick(now), Ask(action), second] + rest, budget)
    ensures LastProgress(base, [look, Tick(now), Ask(action), second] + rest) ==
            if rest != [] && rest[0].Progress? then rest[0].at else base
  {
    var round := [look, Tick(now), Ask(action), second] + rest;
    assert LastProgress(base, round[..1]) == base by { assert round[..1] == [look] && Front([look]) == []; }
    assert LastProgress(base, round[..2]) == base by { assert Front(round[..2]) == round[..1]; }
    assert LastProgress(base, round[..3]) == base by { assert Front(round[..3]) == round[..2]; }
    assert LastProgress(base, round[..4]) == base by { assert Front(round[..4]) == round[..3]; }
    assert if rest == [] then round == round[..4] else Front(round) == round[..4];
    forall i | 0 <= i < |round|
      ensures PacedAt(base, round, budget, i)
    {
      assert i < 4 || round[i] == rest[0];
    }
  }

  /** At most one event, and that a send. */
  predicate Silent(rest: seq<Event>) {
    |rest| <= 1 && (rest != [] ==> rest[0].Send?)
  }

  /** A round that a stop ended before the driver was asked. */
  lemma DrainedRound(start: real, head: seq<Event>, look: Event, rest: seq<Event>, budget: real)
    requires Paced(start, head, budget) && Running(head) && look.Look? && Silent(rest)
    ensures Paced(start, head + [look] + rest, budget)
    ensures look.stopped ==> Caused(head + [look] + rest)
  {
    assert head + [look] + rest == head + ([look] + rest);
    PacedJoin(start, head, [look] + rest, budget);
  }

  /** A round that the no-progress detector ended. */
  lemma LateRound(start: real, head: seq<Event>, look: Event, now: real, sent: Event, budget: real)
    requires Paced(start, head, budget) && Running(head) && look.Look? && sent.Send? && sent.toState == "blocked"
    requires now - LastProgress(start, head) > budget
    ensures Paced(start, head + [look] + [Tick(now)] + [sent], budget)
    ensures Caused(head + [look] + [Tick(now)] + [sent])
  {
    var round, base := [look, Tick(now), sent], LastProgress(start, head);
    assert head + [look] + [Tick(now)] + [sent] == head + round;
    assert LastProgress(base, round[..1]) == base by { assert round[..1] == [look] && Front([look]) == []; }
    PacedJoin(start, head, round, budget);
  }

  lemma CappedRound(start: real, head: seq<Event>, sent: Event, budget: real)
    requires Paced(start, head, budget) && Running(head) && sent.Send?
    ensures Paced(start, head + [sent], budget)
  {
    PacedJoin(start, head, [sent], budget);
  }

  /** A round in which the driver was asked. */
  lemma FullRound(start: real, head: seq<Event>, look: Event, now: real, action: Action, second: Event,
                  rest: seq<Event>,
                  trace: seq<Event>, budget: real)
    requires Paced(start, head, budget) && Running(head) && look.Look? && second.Look?
    requires now - LastProgress(start, head) <= budget
    requires trace == head + [look, Tick(now), Ask(action), second] + rest && |rest| <= 1
    requires IsNotes(action.kind) && !second.stopped ==> rest != [] && rest[0].Progress?
    requires rest != [] ==> rest[0].Send? || (rest[0].Progress? && IsNotes(action.kind))
    ensures Paced(start, trace, budget)
    ensures LastProgress(start, trace) ==
            if rest != [] && rest[0].Progress? then rest[0].at else LastProgress(start, head)
    ensures second.stopped || (action.kind.Transition? && rest != []) ==> Caused(trace)
  {
    hide Paced, PacedAt, Running, LastProgress;
    assert trace == head + ([look, Tick(now), Ask(action), second] + rest);
    RoundPaced(LastProgress(start, head), look, now, action, second, rest, budget);
    PacedJoin(start, head, [look, Tick(now), Ask(action), second] + rest, budget);
  }

  /** What an ended run tells, whatever the world. */
  lemma OverMeans(world: World, maxSteps: nat, budget: real, trace: seq<Event>)
    requires Over(world, maxSteps, budget, trace)
    ensures Met(world, trace) && LookedFirst(trace) && Obeyed(trace)
  {
    hide NextEvent, Plays;
    PlaysMet(world, maxSteps, budget, trace);
    PlaysLooked(world, maxSteps, budget, trace);
    OverObeyed(world, maxSteps, budget, trace);
  }

  /** The escalation at the step cap. */
  ghost predicate Capped(outcome: Outcome, trace: seq<Event>) {
    && trace != [] && Last(trace).Send? && Last(trace).toState == "blocked"
      && Last(trace).reason == "hard step cap reached"
    && outcome == if Last(trace).reply.StaleFence? then Abandoned else Escalated
  }

  /** Between two rounds: the invariant of the loop, its variables what they stand for. */
  ghost predicate Between(world: World, maxSteps: nat, budget: real, trace: seq<Event>, looks: nat, ticks: nat,
                          inFlight: WorkClass, lastProgress: real, stepSeq: nat, i: nat) {
    && Round(world, maxSteps, budget, trace, looks, ticks, inFlight)
    && Running(trace) && Paced(world.clock(0), trace, budget) && lastProgress == LastProgress(world.clock(0), trace)
    && stepSeq == Progresses(trace) <= Asks(trace) == i
  }

  /** Everything a run promises. */
  ghost predicate Ran(world: World, maxSteps: nat, budget: real, outcome: Outcome, trace: seq<Event>, stepSeq: nat) {
    && Over(world, maxSteps, budget, trace)
    && Met(world, trace) && LookedFirst(trace) && Obeyed(trace)
    && Asks(trace) <= maxSteps
    && stepSeq == Progresses(trace) <= Asks(trace)
    && WellShaped(outcome, trace)
    && (outcome == ViolationBlocked <==> EndsForbidden(trace))
    && Paced(world.clock(0), trace, budget)
    && (Caused(trace) || (Asks(trace) == maxSteps && Capped(outcome, trace)))
  }

  lemma RunBegins(world: World, maxSteps: nat, budget: real)
    ensures Between(world, maxSteps, budget, [], 0, 1, Benign, world.clock(0), 0, 0)
  {
    NothingPaced(world.clock(0), budget);
    RoundBegins(world, maxSteps, budget);
  }

  lemma BetweenMeans(world: World, maxSteps: nat, budget: real, trace: seq<Event>, looks: nat, ticks: nat,
                     inFlight: WorkClass, lastProgress: real, stepSeq: nat, i: nat)
    requires Between(world, maxSteps, budget, trace, looks, ticks, inFlight, lastProgress, stepSeq, i)
    ensures Running(trace) && looks == Looks(trace) && ticks == 1 + Clocks(trace) && inFlight == LastWork(trace)
    ensures Asks(trace) == i
  {
  }

  /** A stop at the start of a round. */
  lemma FirstStop(world: World, maxSteps: nat, budget: real, head: seq<Event>, looks: nat, ticks: nat,
                  inFlight: WorkClass, lastProgress: real, stepSeq: nat, i: nat, outcome: Outcome, rest: seq<Event>)
    requires Between(world, maxSteps, budget, head, looks, ticks, inFlight, lastProgress, stepSeq, i) && i < maxSteps
    requires world.stopped(looks) && (outcome == Escalated || outcome == Abandoned)
    requires rest == if inFlight.SodAdjacent? then [] else [Blocked(world, "drained", head + [Look(true, inFlight)])]
    requires WellShaped(outcome, head + [Look(true, inFlight)] + rest)
    ensures Ran(world, maxSteps, budget, outcome, head + [Look(true, inFlight)] + rest, stepSeq)
  {
    var look := Look(true, inFlight);
    LookGoes(world, maxSteps, budget, head, looks, ticks, inFlight, look);
    DrainedRound(world.clock(0), head, look, rest, budget);
    DrainGoes(world, maxSteps, budget, head + [look], rest);
    OverMeans(world, maxSteps, budget, head + [look] + rest);
    DrainNotForbidden(head, look, rest);
    CountOne(head, look);
    SilentCounts(head + [look], rest);
    hide Round, Running, Paced, Over, Met, LookedFirst, Obeyed, WellShaped, Caused, EndsForbidden, LastProgress;
  }

  lemma SilentCounts(trace: seq<Event>, rest: seq<Event>)
    requires Silent(rest)
    ensures Asks(trace + rest) == Asks(trace) && Progresses(trace + rest) == Progresses(trace)
  {
    if rest == [] {
      assert trace + rest == trace;
    } else {
      CountOne(trace, rest[0]);
    }
  }

  /** The no-progress detector. */
  lemma LateStop(world: World, maxSteps: nat, budget: real, head: seq<Event>, looks: nat, ticks: nat,
                 inFlight: WorkClass, lastProgress: real, stepSeq: nat, i: nat, outcome: Outcome, past: seq<Event>)
    requires Between(world, maxSteps, budget, head, looks, ticks, inFlight, lastProgress, stepSeq, i) && i < maxSteps
    requires !world.stopped(looks) && world.clock(ticks) - lastProgress > budget
    requires outcome == Escalated || outcome == Abandoned
    requires past == head + [Look(false, inFlight)] + [Tick(world.clock(ticks))]
    requires WellShaped(outcome, past + [Blocked(world, "no-progress budget exceeded", past)])
    ensures Ran(world, maxSteps, budget, outcome, past + [Blocked(world, "no-progress budget exceeded", past)], stepSeq)
  {
    var look, sent := Look(false, inFlight), Blocked(world, "no-progress budget exceeded", past);
    LookGoes(world, maxSteps, budget, head, looks, ticks, inFlight, look);
    LateRound(world.clock(0), head, look, world.clock(ticks), sent, budget);
    LateGoes(world, maxSteps, budget, head, look, world.clock(ticks));
    OverMeans(world, maxSteps, budget, past + [sent]);
    CountOne(head, look);
    CountOne(head + [look], Tick(world.clock(ticks)));
    CountOne(past, sent);
    assert (past + [sent])[|past| - 1] == Tick(world.clock(ticks));
    hide Round, Running, Paced, Over, Met, LookedFirst, Obeyed, WellShaped, Caused, LastProgress;
  }

  /** The trace once the driver was asked and the machine looked at again. */
  function Asked(head: seq<Event>, inFlight: WorkClass, now: real, action: Action, stopped: bool): seq<Event> {
    head + [Look(false, inFlight)] + [Tick(now)] + [Ask(action)] + [Look(stopped, action.work)]
  }

  /** Up to there the round went on. */
  ghost predicate Questioned(world: World, maxSteps: nat, budget: real, head: seq<Event>, looks: nat, ticks: nat,
                             inFlight: WorkClass, lastProgress: real, stepSeq: nat, i: nat) {
    && Between(world, maxSteps, budget, head, looks, ticks, inFlight, lastProgress, stepSeq, i) && i < maxSteps
    && !world.stopped(looks) && world.clock(ticks) - lastProgress <= budget
  }

  lemma AskedGoes(world: World, maxSteps: nat, budget: real, head: seq<Event>, looks: nat, ticks: nat,
                  inFlight: WorkClass, lastProgress: real, stepSeq: nat, i: nat)
    requires Questioned(world, maxSteps, budget, head, looks, ticks, inFlight, lastProgress, stepSeq, i)
    ensures var trace := Asked(head, inFlight, world.clock(ticks), world.decide(i), world.stopped(looks + 1));
            && Plays(world, maxSteps, budget, trace)
            && Asks(trace) == i + 1 && Progresses(trace) == stepSeq && Looks(trace) == looks + 2
            && Clocks(trace) == ticks && LastWork(trace) == world.decide(i).work
  {
    var look, now, action := Look(false, inFlight), world.clock(ticks), world.decide(i);
    var second := Look(world.stopped(looks + 1), action.work);
    LookGoes(world, maxSteps, budget, head, looks, ticks, inFlight, look);
    AskGoes(world, maxSteps, budget, head, looks, look, now, action, second);
    CountOne(head, look);
    CountOne(head + [look], Tick(now));
    CountOne(head + [look] + [Tick(now)], Ask(action));
    CountOne(head + [look] + [Tick(now)] + [Ask(action)], second);
    hide Round, Running, Paced, Plays, LastProgress;
  }

  /** A stop behind the question. */
  lemma SecondStop(world: World, maxSteps: nat, budget: real, head: seq<Event>, looks: nat, ticks: nat,
                   inFlight: WorkClass, lastProgress: real, stepSeq: nat, i: nat, outcome: Outcome, asked: seq<Event>,
                   rest: seq<Event>)
    requires Questioned(world, maxSteps, budget, head, looks, ticks, inFlight, lastProgress, stepSeq, i)
    requires world.stopped(looks + 1) && (outcome == Escalated || outcome == Abandoned)
    requires asked == Asked(head, inFlight, world.clock(ticks), world.decide(i), true)
    requires rest == if world.decide(i).work.SodAdjacent? then [] else [Blocked(world, "drained", asked)]
    requires WellShaped(outcome, asked + rest)
    ensures Ran(world, maxSteps, budget, outcome, asked + rest, stepSeq)
  {
    var look, now, action := Look(false, inFlight), world.clock(ticks), world.decide(i);
    var second := Look(true, action.work);
    AskedGoes(world, maxSteps, budget, head, looks, ticks, inFlight, lastProgress, stepSeq, i);
    assert asked + rest == head + [look, Tick(now), Ask(action), second] + rest;
    FullRound(world.clock(0), head, look, now, action, second, rest, asked + rest, budget);
    DrainGoes(world, maxSteps, budget, asked, rest);
    OverMeans(world, maxSteps, budget, asked + rest);
    DrainNotForbidden(head + [look] + [Tick(now)] + [Ask(action)], second, rest);
    SilentCounts(asked, rest);
    hide Round, Running, Paced, Over, Met, LookedFirst, Obeyed, WellShaped, Caused, EndsForbidden, LastProgress;
  }

  /** What the decision brought, before it is known whether it ends the run. */
  lemma ActedRound(world: World, maxSteps: nat, budget: real, head: seq<Event>, looks: nat, ticks: nat,
                   inFlight: WorkClass, lastProgress: real, stepSeq: nat, i: nat, asked: seq<Event>, rest: seq<Event>)
    requires Questioned(world, maxSteps, budget, head, looks, ticks, inFlight, lastProgress, stepSeq, i)
    requires !world.stopped(looks + 1) && asked == Asked(head, inFlight, world.clock(ticks), world.decide(i), false)
    requires rest == if world.decide(i).kind.Noop? then [] else [Act(world, 0, world.decide(i), asked)]
    ensures Paced(world.clock(0), asked + rest, budget)
    ensures LastProgress(world.clock(0), asked + rest) ==
            if IsNotes(world.decide(i).kind) then world.clock(ticks + 1) else lastProgress
    ensures world.decide(i).kind.Transition? ==> Caused(asked + rest)
  {
    var look, now, action := Look(false, inFlight), world.clock(ticks), world.decide(i);
    var second := Look(false, action.work);
    AskedGoes(world, maxSteps, budget, head, looks, ticks, inFlight, lastProgress, stepSeq, i);
    hide Round, Running, Paced, LastProgress, Caused, GuardAllows, Asks, Looks, Clocks, Progresses, LastWork, Sends,
      Plays;
    assert asked + rest == head + [look, Tick(now), Ask(action), second] + rest;
    FullRound(world.clock(0), head, look, now, action, second, rest, asked + rest, budget);
  }

  /** What it leads to, and what was counted by then. */
  lemma ActedGoes(world: World, maxSteps: nat, budget: real, head: seq<Event>, looks: nat, ticks: nat,
                  inFlight: WorkClass, lastProgress: real, stepSeq: nat, i: nat, asked: seq<Event>, rest: seq<Event>)
    requires Questioned(world, maxSteps, budget, head, looks, ticks, inFlight, lastProgress, stepSeq, i)
    requires !world.stopped(looks + 1) && asked == Asked(head, inFlight, world.clock(ticks), world.decide(i), false)
    requires rest == if world.decide(i).kind.Noop? then [] else [Act(world, 0, world.decide(i), asked)]
    ensures if rest != [] && rest[0].Send? && (Ends(rest[0].toState) || rest[0].reply.StaleFence?)
            then Over(world, maxSteps, budget, asked + rest)
            else Round(world, maxSteps, budget, asked + rest, looks + 2,
                       if IsNotes(world.decide(i).kind) then ticks + 2 else ticks + 1, world.decide(i).work)
    ensures Asks(asked + rest) == i + 1
    ensures Progresses(asked + rest) == stepSeq + (if IsNotes(world.decide(i).kind) then 1 else 0)
  {
    var past, action := head + [Look(false, inFlight)] + [Tick(world.clock(ticks))], world.decide(i);
    AskedGoes(world, maxSteps, budget, head, looks, ticks, inFlight, lastProgress, stepSeq, i);
    hide Round, Questioned, Over, GuardAllows, Asks, Looks, Clocks, Progresses, LastWork, Sends, Plays;
    ActGoes(world, maxSteps, budget, past, action, action.work, asked, rest, looks + 2, ticks + 1);
    ActCounts(asked, rest);
  }

  /** The decision ends the run, or the next round begins. */
  lemma Acted(world: World, maxSteps: nat, budget: real, head: seq<Event>, looks: nat, ticks: nat,
              inFlight: WorkClass, lastProgress: real, stepSeq: nat, i: nat, ended: Option<Outcome>, asked: seq<Event>,
              rest: seq<Event>)
    requires Questioned(world, maxSteps, budget, head, looks, ticks, inFlight, lastProgress, stepSeq, i)
    requires !world.stopped(looks + 1) && asked == Asked(head, inFlight, world.clock(ticks), world.decide(i), false)
    requires rest == if world.decide(i).kind.Noop? then [] else [Act(world, 0, world.decide(i), asked)]
    requires ended.Some? <==> rest != [] && rest[0].Send? && (Ends(rest[0].toState) || rest[0].reply.StaleFence?)
    requires ended == Some(ViolationBlocked) <==>
             world.decide(i).kind.Transition? && !GuardAllows(world.decide(i).toState)
    requires match ended case None => Running(asked + rest) case Some(o) => WellShaped(o, asked + rest)
    ensures match ended
            case Some(o) => Ran(world, maxSteps, budget, o, asked + rest, stepSeq)
            case None =>
              var progressed := IsNotes(world.decide(i).kind);
              Between(world, maxSteps, budget, asked + rest, looks + 2, if progressed then ticks + 2 else ticks + 1,
                      world.decide(i).work, if progressed then world.clock(ticks + 1) else lastProgress,
                      if progressed then stepSeq + 1 else stepSeq, i + 1)
  {
    ActedRound(world, maxSteps, budget, head, looks, ticks, inFlight, lastProgress, stepSeq, i, asked, rest);
    ActedGoes(world, maxSteps, budget, head, looks, ticks, inFlight, lastProgress, stepSeq, i, asked, rest);
    QuestionedMeans(world, maxSteps, budget, head, looks, ticks, inFlight, lastProgress, stepSeq, i);
    if ended.Some? {
      assert asked + rest == head + [Look(false, inFlight)] + [Tick(world.clock(ticks))] + [Ask(world.decide(i))]
                             + [Look(false, world.decide(i).work)] + [rest[0]];
      OverMeans(world, maxSteps, budget, asked + rest);
      ActForbidden(head + [Look(false, inFlight)] + [Tick(world.clock(ticks))], world.decide(i),
                   Look(false, world.decide(i).work), rest[0], asked + rest);
    }
    hide Questioned, Round, Running, Paced, Over, Met, LookedFirst, Obeyed, WellShaped, LastProgress, Caused,
      EndsForbidden, GuardAllows, Asks, Looks, Clocks, Progresses, LastWork, Sends, Asked;
  }

  lemma QuestionedMeans(world: World, maxSteps: nat, budget: real, head: seq<Event>, looks: nat, ticks: nat,
                        inFlight: WorkClass, lastProgress: real, stepSeq: nat, i: nat)
    requires Questioned(world, maxSteps, budget, head, looks, ticks, inFlight, lastProgress, stepSeq, i)
    ensures i < maxSteps && stepSeq <= i
  {
  }

  lemma ActCounts(trace: seq<Event>, rest: seq<Event>)
    requires |rest| <= 1 && (rest != [] ==> rest[0].Send? || rest[0].Progress?)
    ensures Asks(trace + rest) == Asks(trace)
    ensures Progresses(trace + rest) == Progresses(trace) + (if rest != [] && rest[0].Progress? then 1 else 0)
  {
    if rest == [] {
      assert trace + rest == trace;
    } else {
      CountOne(trace, rest[0]);
    }
  }

  /** The step cap. */
  lemma CapStop(world: World, maxSteps: nat, budget: real, head: seq<Event>, looks: nat, ticks: nat,
                inFlight: WorkClass, lastProgress: real, stepSeq: nat, outcome: Outcome)
    requires Between(world, maxSteps, budget, head, looks, ticks, inFlight, lastProgress, stepSeq, maxSteps)
    requires outcome == if world.board(Sends(head)).StaleFence? then Abandoned else Escalated
    requires WellShaped(outcome, head + [Blocked(world, "hard step cap reached", head)])
    ensures Ran(world, maxSteps, budget, outcome, head + [Blocked(world, "hard step cap reached", head)], stepSeq)
  {
    var sent := Blocked(world, "hard step cap reached", head);
    CapGoes(world, maxSteps, budget, head, looks, ticks, inFlight);
    CappedRound(world.clock(0), head, sent, budget);
    OverMeans(world, maxSteps, budget, head + [sent]);
    CountOne(head, sent);
    hide Round, Running, Paced, Over, Met, LookedFirst, Obeyed, WellShaped, Caused, EndsForbidden, LastProgress, Sends;
  }

  /**
   * One ticket's run: at most maxSteps decisions, then an ending.  Every event is the one the world and the trace so
   * far call for, and every run ends in one way the trace shows, whatever driver, Board, clock and drain schedule do.
   */
  method Run(world: World, maxSteps: nat, budget: real) returns (outcome: Outcome, trace: seq<Event>, stepSeq: nat)
    ensures Ran(world, maxSteps, budget, outcome, trace, stepSeq)
  {
    hide Running, WellShaped, Asks, Looks, Clocks, Progresses, LastWork, Sends, Obeys, GuardAllows, Between, Ran;
    trace, stepSeq := [], 0;
    var looks, ticks := 0, 1;
    var lastProgress := world.clock(0);
    var inFlight := Benign;
    var i := 0;
    RunBegins(world, maxSteps, budget);
    while i < maxSteps
      invariant 0 <= i <= maxSteps
      invariant Between(world, maxSteps, budget, trace, looks, ticks, inFlight, lastProgress, stepSeq, i)
    {
      ghost var head, was := trace, inFlight;
      BetweenMeans(world, maxSteps, budget, trace, looks, ticks, inFlight, lastProgress, stepSeq, i);
      var stopped := world.stopped(looks);
      looks := looks + 1;
      Snoc(trace, Look(stopped, inFlight));
      trace := trace + [Look(stopped, inFlight)];
      if stopped {
        ghost var rest;
        outcome, trace, rest := OnDrain(world, inFlight, trace);
        FirstStop(world, maxSteps, budget, head, looks - 1, ticks, was, lastProgress, stepSeq, i, outcome, rest);
        return;
      }

      var now := world.clock(ticks);
      ticks := ticks + 1;
      Snoc(trace, Tick(now));
      trace := trace + [Tick(now)];
      if now - lastProgress > budget {
        ghost var past := trace;
        outcome, trace := Escalate(world, "no-progress budget exceeded", trace);
        LateStop(world, maxSteps, budget, head, looks - 1, ticks - 1, was, lastProgress, stepSeq, i, outcome, past);
        return;
      }

      var action := world.decide(i);
      inFlight := action.work;
      Snoc(trace, Ask(action));
      trace := trace + [Ask(action)];

      stopped := world.stopped(looks);
      looks := looks + 1;
      Snoc(trace, Look(stopped, inFlight));
      trace := trace + [Look(stopped, inFlight)];
      ghost var asked := trace;
      if stopped {
        ghost var rest;
        outcome, trace, rest := OnDrain(world, inFlight, trace);
        SecondStop(world, maxSteps, budget, head, looks - 2, ticks - 1, was, lastProgress, stepSeq, i, outcome, asked,
                   rest);
        return;
      }

      var ended, progressed;
      ghost var rest;
      ended, trace, progressed, rest := Execute(world, action, ticks, trace);
      Acted(world, maxSteps, budget, head, looks - 2, ticks - 1, was, lastProgress, stepSeq, i, ended, asked, rest);
      if ended.Some? {
        outcome := ended.value;
        return;
      }
      if progressed {
        stepSeq := stepSeq + 1;
        lastProgress := world.clock(ticks);
        ticks := ticks + 1;
      }
      i := i + 1;
    }
    ghost var head := trace;
    BetweenMeans(world, maxSteps, budget, head, looks, ticks, inFlight, lastProgress, stepSeq, i);
    outcome, trace := Escalate(world, "hard step cap reached", trace);
    CapStop(world, maxSteps, budget, head, looks, ticks, inFlight, lastProgress, stepSeq, outcome);
  }

  lemma DrainNotForbidden(head: seq<Event>, look: Event, rest: seq<Event>)
    requires look.Look? && look.stopped && Silent(rest)
    ensures !EndsForbidden(head + [look] + rest)
  {
  }

  lemma ActForbidden(past: seq<Event>, action: Action, second: Event, sent: Event, trace: seq<Event>)
    requires action.kind.Transition? && second.Look? && !second.stopped && sent.Send?
    requires trace == past + [Ask(action)] + [second] + [sent]
    ensures EndsForbidden(trace) <==> !GuardAllows(action.toState)
  {
    GuardMeans(action);
  }

  lemma Snoc(trace: seq<Event>, e: Event)
    ensures Asks(trace + [e]) == Asks(trace) + (if e.Ask? then 1 else 0)
    ensures Looks(trace + [e]) == Looks(trace) + (if e.Look? then 1 else 0)
    ensures Clocks(trace + [e]) == Clocks(trace) + (if e.Tick? || e.Progress? then 1 else 0)
    ensures Progresses(trace + [e]) == Progresses(trace) + (if e.Progress? then 1 else 0)
    ensures LastWork(trace + [e]) == if e.Ask? then e.action.work else LastWork(trace)
    ensures Front(trace + [e]) == trace && Last(trace + [e]) == e
    ensures Running(trace) && (e.Ask? || e.Tick? || e.Progress? || (e.Look? && !e.stopped)) ==> Running(trace + [e])
  {
    CountOne(trace, e);
  }

  lemma NothingPaced(start: real, budget: real)
    ensures Paced(start, [], budget) && LastProgress(start, []) == start && Running([])
    ensures Asks([]) == 0 == Progresses([])
  {
  }

  // ----- what the shape of a trace means -------------------------------------------------------------------

  function Endings(trace: seq<Event>): nat {
    if trace == [] then 0
    else Endings(Front(trace)) + (if Last(trace).Send? && Ends(Last(trace).toState) then 1 else 0)
  }

  predicate EndingSend(e: Event) {
    e.Send? && (e.toState == "needs_review" || e.toState == "awaiting_approval" || e.toState == "blocked")
  }

  /** At most one of needs_review, awaiting_approval and blocked ever reaches the Board. */
  lemma {:induction false} AtMostOneEnding(trace: seq<Event>)
    requires EndsLast(trace)
    ensures Endings(trace) <= 1
    ensures forall i, k | 0 <= i < |trace| && 0 <= k < |trace| && EndingSend(trace[i]) && EndingSend(trace[k]) :: i == k
  {
    if trace != [] {
      NoEarlierEnding(Front(trace), trace);
    }
  }

  lemma {:induction false} NoEarlierEnding(prefix: seq<Event>, trace: seq<Event>)
    requires EndsLast(trace) && |prefix| < |trace| && prefix == trace[..|prefix|]
    ensures Endings(prefix) == 0
  {
    if prefix != [] {
      assert Last(prefix) == trace[|prefix| - 1];
      NoEarlierEnding(Front(prefix), trace);
    }
  }
}
