/**
 * One worker's poll: gate, claim, bounded loop, and the liveness frames it leaves in the runtime's registry
 * (platform/agent-runtime: worker.py, heartbeat.py).
 */
module Worker {
  import opened Prelude
  import opened Drain
  import opened Claims
  import Loop = AgentLoop

  type Session = string

  /** The fields of a liveness frame that a poll decides. */
  datatype Frame = Frame(sub: string, ticket: Option<string>, token: Option<int>, stepSeq: nat)

  class HeartbeatRegistry {
    var agents: map<Session, Frame>

    constructor ()
      ensures agents == map[]
    {
      agents := map[];
    }

    method UpdateAgent(session: Session, frame: Frame)
      modifies this
      ensures agents == old(agents)[session := frame]
    {
      agents := agents[session := frame];
    }

    method DropAgent(session: Session)
      modifies this
      ensures agents == old(agents) - {session}
    {
      agents := agents - {session};
    }
  }

  class WorkerSlot {
    const sub: string
    const board: BoardClient
    const beats: HeartbeatRegistry
    var stepSeq: nat

    constructor (sub: string, board: BoardClient, beats: HeartbeatRegistry)
      ensures this.sub == sub && this.board == board && this.beats == beats && stepSeq == 0
    {
      this.sub, this.board, this.beats, stepSeq := sub, board, beats, 0;
    }

    /**
     * One claim-and-work cycle under a freshly minted session id.  Nothing is asked of the driver and nothing sent
     * unless the gate was open and the Board granted a lease; the session's frame is dropped only in that case.
     */
    method PollOnce(session: Session, reply: ClaimReply, world: Loop.World, maxSteps: nat, budget: real)
      returns (outcome: Option<Loop.Outcome>, trace: seq<Loop.Event>)
      modifies this`stepSeq, board`asked, beats
      ensures outcome.Some? <==> Gate(board.drain.View()) && reply.Granted?
      ensures outcome.None? ==> trace == [] && stepSeq == old(stepSeq)
      ensures outcome.Some? ==> Loop.WellShaped(outcome.value, trace) && Loop.Asks(trace) <= maxSteps
      ensures outcome.Some? ==> Loop.Over(world, maxSteps, budget, trace)
      ensures outcome.Some? ==>
                stepSeq == if Loop.Progresses(trace) > 0 then Loop.Progresses(trace) else old(stepSeq)
      ensures board.asked == old(board.asked) + (if Gate(board.drain.View()) then 1 else 0)
      ensures beats.agents ==
              AfterPoll(old(beats.agents), Poll(session, outcome.Some?), Frame(sub, None, None, old(stepSeq)))
    {
      hide Loop.Over, Loop.WellShaped, Loop.Progresses, Loop.Asks, Loop.Met, Loop.LookedFirst, Loop.Obeyed,
        Loop.EndsForbidden, Loop.Paced, Loop.Caused, Loop.Capped;
      beats.UpdateAgent(session, Frame(sub, None, None, stepSeq));
      var lease, conflict := board.ClaimNext(reply);
      if conflict || lease.None? {
        return None, [];
      }
      beats.UpdateAgent(session, Frame(sub, Some(lease.value.0), Some(lease.value.1), stepSeq));
      var ended, progress;
      ended, trace, progress := Loop.Run(world, maxSteps, budget);
      if progress > 0 {
        stepSeq := progress;
      }
      beats.DropAgent(session);
      assert old(beats.agents)[session := Frame(sub, None, None, old(stepSeq))] - {session} ==
             old(beats.agents) - {session};
      return Some(ended), trace;
    }
  }

  // ----- the registry over many polls -------------------------------------------------------------------------

  datatype Poll = Poll(session: Session, leased: bool)

  function AfterPoll(agents: map<Session, Frame>, p: Poll, idle: Frame): map<Session, Frame> {
    if p.leased then agents - {p.session} else agents[p.session := idle]
  }

  function AfterPolls(agents: map<Session, Frame>, polls: seq<Poll>, idle: Frame): map<Session, Frame> {
    if polls == [] then agents else AfterPoll(AfterPolls(agents, Front(polls), idle), Last(polls), idle)
  }

  function Idle(polls: seq<Poll>): nat {
    if polls == [] then 0 else Idle(Front(polls)) + (if Last(polls).leased then 0 else 1)
  }

  /** The sessions of these polls, and those of them that got no lease. */
  function Sessions(polls: seq<Poll>): set<Session> {
    if polls == [] then {} else Sessions(Front(polls)) + {Last(polls).session}
  }

  function Leaseless(polls: seq<Poll>): set<Session> {
    if polls == [] then {}
    else Leaseless(Front(polls)) + (if Last(polls).leased then {} else {Last(polls).session})
  }

  /** Every poll mints its own session id. */
  predicate FreshSessions(polls: seq<Poll>) {
    polls == [] || (FreshSessions(Front(polls)) && Last(polls).session !in Sessions(Front(polls)))
  }

  /**
   * The roster that monitoring takes for the population grows by one entry with every poll that got no lease: the
   * frame of such a session is never dropped.
   */
  lemma {:induction false} RosterCountsIdlePolls(polls: seq<Poll>, idle: Frame)
    requires FreshSessions(polls)
    ensures AfterPolls(map[], polls, idle).Keys == Leaseless(polls) <= Sessions(polls)
    ensures |AfterPolls(map[], polls, idle)| == Idle(polls)
  {
    hide AfterPoll;
    if polls != [] {
      var p, before := Last(polls), AfterPolls(map[], Front(polls), idle);
      RosterCountsIdlePolls(Front(polls), idle);
      assert p.session !in before.Keys;
      FreshPoll(before, p, idle);
    }
  }

  lemma FreshPoll(agents: map<Session, Frame>, p: Poll, idle: Frame)
    requires p.session !in agents
    ensures AfterPoll(agents, p, idle).Keys == agents.Keys + (if p.leased then {} else {p.session})
    ensures |AfterPoll(agents, p, idle)| == |agents| + (if p.leased then 0 else 1)
  {
    assert agents - {p.session} == agents;
    assert agents[p.session := idle].Keys == agents.Keys + {p.session};
  }
}
