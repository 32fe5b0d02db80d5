/** What holds of every run of the ACP proxy. */
module AcpTheorems {
  import opened Wrappers
  import opened AcpSession
  import opened AcpTable
  import opened AcpProtocol
  import opened AcpLocks
  import opened AcpInvariant
  import opened AcpMoves
  import opened AcpChannelSteps
  import opened AcpReaperSteps
  import opened AcpRouterSteps

  // ---------------------------------------------------------------- runs

  lemma TakenKeeps(s: State, a: Action)
    requires Inv(s) && Can(s, a)
    ensures Inv(Taken(s, a))
  {
    hide Inv, ChannelCan, ChannelNext, ReaperCan, ReaperNext, RouterCan, RouterNext;
    match a
    case ByChannel(c, step) => ChannelKeeps(s, c, step);
    case ByReaper(n, step) => ReaperKeeps(s, n, step);
    case ByRouter(step) => RouterKeeps(s, step);
  }

  lemma StepKeeps(s: State, a: Action)
    requires Inv(s) && Can(s, a)
    ensures Inv(Next(s, a))
  {
    hide Inv, Can, Taken, Settle;
    TakenKeeps(s, a);
    Settled(Taken(s, a));
  }

  lemma {:induction false} RunKeeps(s: State, actions: seq<Action>)
    requires Inv(s) && IsRun(s, actions)
    ensures Inv(Run(s, actions))
    decreases |actions|
  {
    hide Inv, Can, Next;
    if actions != [] {
      StepKeeps(s, actions[0]);
      RunKeeps(Next(s, actions[0]), actions[1..]);
    }
  }

  lemma InitHolds()
    ensures Inv(INIT)
  {
  }

  lemma ReachableHolds(s: State)
    requires Reachable(s)
    ensures Inv(s)
  {
    hide Inv, IsRun, Run;
    var actions :| IsRun(INIT, actions) && Run(INIT, actions) == s;
    InitHolds();
    RunKeeps(INIT, actions);
  }

  // ---------------------------------------------------------------- reconnecting

  /** The messages of one state object in a queue, in queue order. */
  function Received(queue: seq<Item>, state: StateId): seq<JsonRpcMessage> {
    if queue == [] then []
    else
      var last := queue[|queue| - 1];
      Received(queue[..|queue| - 1], state) + if last.Logged? && last.state == state then [last.message] else []
  }

  lemma {:induction false} ReceivedFollowsSeen(queue: seq<Item>, state: StateId, log: seq<BufferedMessage>)
    requires forall k :: 0 <= k < |queue| && queue[k].Logged? && queue[k].state == state ==>
               queue[k].index < |log| && log[queue[k].index].message == queue[k].message
    ensures |Received(queue, state)| == |Seen(queue, state)|
    ensures forall k :: 0 <= k < |Seen(queue, state)| ==>
            Seen(queue, state)[k] < |log| && Received(queue, state)[k] == log[Seen(queue, state)[k]].message
  {
    if queue != [] { ReceivedFollowsSeen(queue[..|queue| - 1], state, log); }
  }

  function Messages(log: seq<BufferedMessage>): seq<JsonRpcMessage> {
    seq(|log|, i requires 0 <= i < |log| => log[i].message)
  }

  /** Whatever the interleaving of router and load, a connected owner has received the
      session's log from its starting point on, in order and without a gap. The only
      message it can have twice is the last replayed one, and only if that message was
      logged but not yet routed when the owner was mapped. */
  lemma ReplayHasNoGap(s: State, sid: SessionId)
    requires Reachable(s) && sid in s.sessions && s.sessions[sid].state in s.attached
    requires s.sessions[sid].channel.Some? && s.sessions[sid].channel.value in s.senders
    requires s.sessions[sid].state in s.states
             && !Routing(s.router, s.sessions[sid].state, s.sessions[sid].channel.value)
    ensures var state, c := s.sessions[sid].state, s.sessions[sid].channel.value;
            var log, received := s.states[state].log, Received(Queue(s.queues, c), state);
            var a := s.attached[state];
            && a.channel == c && a.from <= a.upto <= |log| && a.base <= |received| && (a.again ==> a.upto > 0)
            && received[a.base..] == Messages(log[a.from..a.upto])
                 + (if a.again then [log[a.upto - 1].message] else []) + Messages(log[a.upto..])
  {
    hide Inv;
    ReachableHolds(s);
    DeliveredTo(s, sid);
    var state, c := s.sessions[sid].state, s.sessions[sid].channel.value;
    QueueFollowsLog(s, c, state);
    ReceivedFollowsSeen(Queue(s.queues, c), state, s.states[state].log);
    ExpectedMessages(Queue(s.queues, c), s.attached[state], c, state, s.states[state].log);
  }

  lemma DeliveredTo(s: State, sid: SessionId)
    requires Inv(s) && sid in s.sessions && s.sessions[sid].state in s.attached
    requires s.sessions[sid].channel.Some? && s.sessions[sid].channel.value in s.senders
    ensures SessionDelivered(sid, s.sessions, s.queues, s.states, s.attached, s.router)
  {
    hide LocksOk, SendersOk, TableOk, ObjectsOk, RouterOk, OwnersOk, AllProgressOk, TargetOk, ReplaysOk, QueuesOk,
      OutcomesOk, CoverageOk, SessionDelivered;
  }

  lemma QueueFollowsLog(s: State, c: ChannelId, state: StateId)
    requires Inv(s) && state in s.states
    ensures var queue := Queue(s.queues, c);
            forall k :: 0 <= k < |queue| && queue[k].Logged? && queue[k].state == state ==>
              IsLogged(s.states, state, queue[k].index, queue[k].message)
  {
    hide LocksOk, SendersOk, TableOk, ObjectsOk, RouterOk, OwnersOk, AllProgressOk, TargetOk, ReplaysOk, DeliveryOk,
      OutcomesOk, CoverageOk, IsLogged;
  }

  lemma ExpectedMessages(queue: seq<Item>, a: Attachment, c: ChannelId, state: StateId, log: seq<BufferedMessage>)
    requires Delivered(queue, a, c, state, |log|, false)
    requires |Received(queue, state)| == |Seen(queue, state)|
    requires forall k :: 0 <= k < |Seen(queue, state)| ==>
             Seen(queue, state)[k] < |log| && Received(queue, state)[k] == log[Seen(queue, state)[k]].message
    ensures Received(queue, state)[a.base..] == Messages(log[a.from..a.upto])
            + (if a.again then [log[a.upto - 1].message] else []) + Messages(log[a.upto..])
  {
    hide Seen, Received;
    var seen, received := Seen(queue, state), Received(queue, state);
    var expected := Expected(a, |log|);
    assert seen[a.base..] + [] == seen[a.base..];
    assert seen[a.base..] == expected;
    forall k | 0 <= k < |expected| ensures received[a.base..][k] == log[expected[k]].message {
      assert seen[a.base..][k] == seen[a.base + k];
    }
  }

  /** A load that names the notification at log index `j` starts right behind it, or
      behind what has been pruned. */
  lemma LoadStartsAfterLatest(s: State, c: ChannelId, j: nat)
    requires Reachable(s) && At(s, c).LoadChecked? && At(s, c).state in s.states
    requires var log := s.states[At(s, c).state].log;
             j < |log| && log[j].message.Notification? && log[j].id == At(s, c).latestId
    ensures var session := s.states[At(s, c).state];
            var dropped := |session.log| - |session.messageBuffer|;
            At(LoadReplay(s, c), c).from == if dropped <= j then j + 1 else dropped
  {
    hide Inv;
    ReachableHolds(s);
    var session := s.states[At(s, c).state];
    WellFormed(s, At(s, c).state);
    ReplayRefinesLog(session.log, session.notificationIdCounter, |session.log| - |session.messageBuffer|, j);
  }

  lemma WellFormed(s: State, id: StateId)
    requires Inv(s) && id in s.states
    ensures IsSuffix(s.states[id].messageBuffer, s.states[id].log)
            && LogWellFormed(s.states[id].log, s.states[id].notificationIdCounter)
  {
    hide LocksOk, SendersOk, ObjectsOk, RouterOk, OwnersOk, AllProgressOk, TargetOk, DeliveryOk, ReplaysOk, QueuesOk,
      OutcomesOk, CoverageOk, LogWellFormed, IsSuffix;
  }

  // ---------------------------------------------------------------- ownership and reaping

  /** The channel's message loop runs. */
  predicate Serves(pc: Pc) {
    Connected(pc) && !pc.Crashed?
  }

  /** Sessions are owned by live channels: the owner's message loop runs, or its cleanup has
      still to unmap, or the router has yet to check its sender. This is so exactly for
      owners that have not crashed on a binary payload. */
  lemma OwnersAreLive(s: State, sid: SessionId, c: ChannelId)
    requires Reachable(s) && Owns(s.sessions, sid, c)
    ensures Serves(At(s, c)) || At(s, c).Unmapping? || (c !in s.senders && SenderUnchecked(s.router, sid, c))
            <==> !At(s, c).Crashed?
  {
    hide LocksOk, TableOk, ObjectsOk, RouterOk, AllProgressOk, TargetOk, DeliveryOk, ReplaysOk, QueuesOk, OutcomesOk,
      CoverageOk, Reachable;
    ReachableHolds(s);
  }

  /** Every session without owner is seen to by somebody, unless it was let go since it last
      had an owner: cancelled by the reaper, or released by a failed load. */
  lemma OwnerlessIsSeenTo(s: State, sid: SessionId)
    requires Reachable(s) && sid in s.sessions && s.sessions[sid].channel.None?
    ensures var state := s.sessions[sid].state;
            && state in s.states
            && (|| state in s.released
                || LateArming(s.router, sid)
                || exists t :: t in s.tasks && Covers(s.tasks[t], sid, state, s.states[state].cancelCounter))
  {
    hide LocksOk, SendersOk, ObjectsOk, RouterOk, AllProgressOk, TargetOk, DeliveryOk, ReplaysOk, QueuesOk, OutcomesOk,
      OwnersOk, Reachable, IsSuffix, LogWellFormed, Covers;
    ReachableHolds(s);
    assert Covered(sid, s.sessions[sid].state, s.states, s.released, s.tasks, s.router);
  }

  /** The reaper closes or cancels a session only while nobody owns it. */
  lemma ReaperSparesOwners(s: State, n: nat)
    requires Reachable(s) && ReaperAt(s, n).Stopping? && ReaperAt(s, n).sid !in s.bypassed
    ensures SessionChannel(s.sessions, ReaperAt(s, n).sid) == None
  {
    hide Inv, Reachable;
    ReachableHolds(s);
    Here(s, Reaper(n));
  }

  /** At most one task is past the mutex of a session. */
  lemma MutualExclusion(s: State, t: Task, u: Task)
    requires Reachable(s) && t in s.tasks && u in s.tasks
    requires Ref(s.tasks[t]).Has? && Ref(s.tasks[u]).Has? && Ref(s.tasks[t]).sid == Ref(s.tasks[u]).sid
    requires Ref(s.tasks[t]).sid !in s.bypassed
    ensures t == u
  {
    hide SendersOk, TableOk, ObjectsOk, RouterOk, OwnersOk, AllProgressOk, TargetOk, DeliveryOk, ReplaysOk, QueuesOk,
      OutcomesOk, CoverageOk, Reachable, Ref, LocksOk;
    ReachableHolds(s);
    Exclusive(s.tasks, s.locks, s.nextLock, s.held, s.bypassed, t, u);
  }
}
