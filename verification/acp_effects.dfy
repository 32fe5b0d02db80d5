/** What single steps of the ACP proxy change: who may become owner when, which timers
    a load makes void, and what happens to a late response. */
module AcpEffects {
  import opened Wrappers
  import opened AcpSession
  import opened AcpTable
  import opened AcpProtocol
  import opened AcpLocks
  import opened AcpInvariant
  import opened AcpMoves
  import opened AcpTheorems

  // ---------------------------------------------------------------- frames

  ghost predicate SameReapers(s: State, s': State) {
    forall t :: t in s.tasks && t.Reaper? ==> t in s'.tasks && s'.tasks[t] == s.tasks[t]
  }

  /** Counters only grow, and no state object disappears. */
  ghost predicate CountersGrow(s: State, s': State) {
    forall id :: id in s.states ==> id in s'.states && s.states[id].cancelCounter <= s'.states[id].cancelCounter
  }

  /** A channel step as seen by the router and the reapers. */
  lemma ChannelFramed(s: State, c: ChannelId, a: ChannelStep)
    requires ChannelCan(s, c, a)
    ensures ChannelNext(s, c, a).router == s.router && ChannelNext(s, c, a).outcomes == s.outcomes
    ensures a.DoLoadMap? || a.DoClaim? || a.DoUnmap? || SameTable(s, ChannelNext(s, c, a))
    ensures a.DoLoadBump? || a.DoLoadReplay? || a.DoClaim? || a.DoAckPrune? || SameStates(s, ChannelNext(s, c, a))
    ensures a.DoArm? || ChannelNext(s, c, a) == s || OnlyTask(s, ChannelNext(s, c, a), Channel(c))
  {
    hide BufferRead, Join, LoadBegin, LoadAcquire, LoadBump, LoadCheck, LoadReplay, LoadMap, LoadFinish, ClaimBegin,
      Claim, ClaimFinish, AckBegin, AckCheck, AckPrune, Leave, Unmap, Arm, Finish;
  }

  /** The state objects a channel step touches keep their place, and no counter falls. */
  lemma ChannelCounters(s: State, c: ChannelId, a: ChannelStep)
    requires ChannelCan(s, c, a) && s.nextState !in s.states
    ensures CountersGrow(s, ChannelNext(s, c, a)) && SameReapers(s, ChannelNext(s, c, a))
  {
    hide BufferRead, Join, LoadBegin, LoadAcquire, LoadCheck, LoadMap, LoadFinish, ClaimBegin, ClaimFinish, AckBegin,
      AckCheck, Leave, Unmap, Finish, Send, Replay, Attach, Created, MapChannel, Replayed, After;
    ChannelFramed(s, c, a);
  }

  lemma ReaperFramed(s: State, n: nat, a: ReaperStep)
    requires ReaperCan(s, n, a)
    ensures a.DoStopClose? || SameTable(s, ReaperNext(s, n, a))
    ensures a.DoStopCancel? || SameStates(s, ReaperNext(s, n, a))
    ensures OnlyTask(s, ReaperNext(s, n, a), Reaper(n))
  {
    hide Wake, Probe, TakeLock, StopCheck, StopClose, StopCancel, Discard;
  }

  lemma ReaperCounters(s: State, n: nat, a: ReaperStep)
    requires ReaperCan(s, n, a)
    ensures CountersGrow(s, ReaperNext(s, n, a))
  {
    hide Wake, Probe, TakeLock, StopCheck, StopClose, Discard;
    ReaperFramed(s, n, a);
  }

  lemma RouterFramed(s: State, a: RouterStep)
    requires RouterCan(s, a)
    ensures a.DoRespondNew? || a.DoRespondFailed? || a.DoLateUnmap? || a.DoClose? || SameTable(s, RouterNext(s, a))
    ensures a.DoRespondNew? || a.DoAppend? || SameStates(s, RouterNext(s, a))
    ensures a.DoLateArm? || SameTasks(s, RouterNext(s, a))
  {
    hide BufferRead, Receive, AppendMessage, LookupOwner, PushMessage, LockDrop, DeliverAnswer, OwnerLate, PushLate,
      FindLate, CloseSession, LockClose, SenderCheck, UnmapLate, ArmLate, RespondNew, RespondFailedClaim,
      RespondFailedCreated;
  }

  lemma RouterCounters(s: State, a: RouterStep)
    requires RouterCan(s, a) && s.nextState !in s.states
    ensures CountersGrow(s, RouterNext(s, a)) && SameReapers(s, RouterNext(s, a))
  {
    hide BufferRead, Receive, LookupOwner, PushMessage, RespondFailedCreated, RespondFailedClaim, SenderCheck,
      UnmapLate, LockDrop, DeliverAnswer, OwnerLate, PushLate, FindLate, CloseSession, LockClose, Bypass, Created,
      Labelled;
    RouterFramed(s, a);
  }

  lemma FreshState(s: State)
    requires Inv(s)
    ensures s.nextState !in s.states
  {
    hide LocksOk, SendersOk, ObjectsOk, RouterOk, OwnersOk, AllProgressOk, TargetOk, DeliveryOk, ReplaysOk, QueuesOk,
      OutcomesOk, CoverageOk, LogWellFormed, IsSuffix;
  }

  // ---------------------------------------------------------------- owners change through none

  ghost predicate ThroughNone(s: State, s': State, sid: SessionId) {
    sid in s.sessions && sid in s'.sessions ==>
      && s'.sessions[sid].state == s.sessions[sid].state
      && (s'.sessions[sid].channel == s.sessions[sid].channel || s.sessions[sid].channel == None
           || s'.sessions[sid].channel == None)
  }

  /** While a session stays in the table and its exclusion is not bypassed, it never
      passes from one owner directly to another. */
  lemma OwnersChangeThroughNone(s: State, a: Action, sid: SessionId)
    requires Reachable(s) && Can(s, a) && sid !in s.bypassed
    ensures ThroughNone(s, Next(s, a), sid)
  {
    hide Inv, Reachable, ChannelCan, ChannelNext, ReaperCan, ReaperNext, RouterCan, RouterNext;
    ReachableHolds(s);
    FreshState(s);
    match a
    case ByChannel(c, step) => ChannelThroughNone(s, c, step, sid);
    case ByReaper(n, step) => ReaperThroughNone(s, n, step, sid);
    case ByRouter(step) => RouterThroughNone(s, step, sid);
  }

  lemma ChannelThroughNone(s: State, c: ChannelId, a: ChannelStep, sid: SessionId)
    requires Inv(s) && ChannelCan(s, c, a) && sid !in s.bypassed && s.nextState !in s.states
    ensures ThroughNone(s, ChannelNext(s, c, a), sid)
  {
    hide Inv, BufferRead, SameReapers, CountersGrow, Join, LoadBegin, LoadAcquire, LoadBump, LoadCheck, LoadReplay,
      LoadFinish, ClaimBegin, ClaimFinish, AckBegin, AckCheck, AckPrune, Leave, Arm, Finish, Attach, Created, Unmapped;
    if a.DoLoadMap? {
      Here(s, Channel(c));
    } else if !a.DoClaim? && !a.DoUnmap? {
      ChannelFramed(s, c, a);
    }
  }

  lemma ReaperThroughNone(s: State, n: nat, a: ReaperStep, sid: SessionId)
    requires ReaperCan(s, n, a)
    ensures ThroughNone(s, ReaperNext(s, n, a), sid)
  {
    hide Wake, Probe, TakeLock, StopCheck, StopCancel, Discard, CountersGrow;
    if !a.DoStopClose? { ReaperFramed(s, n, a); }
  }

  lemma RouterThroughNone(s: State, a: RouterStep, sid: SessionId)
    requires RouterCan(s, a) && s.nextState !in s.states
    ensures ThroughNone(s, RouterNext(s, a), sid)
  {
    hide BufferRead, Receive, AppendMessage, LookupOwner, PushMessage, LockDrop, DeliverAnswer, OwnerLate, PushLate,
      FindLate, LockClose, SenderCheck, ArmLate, Bypass, Created, CountersGrow, SameReapers;
    if !a.DoRespondNew? && !a.DoRespondFailed? && !a.DoLateUnmap? && !a.DoClose? { RouterFramed(s, a); }
  }

  // ---------------------------------------------------------------- void timers

  /** The reaper has not matched the state object with its captured counter. */
  predicate NotMatched(s: State, n: nat, sid: SessionId, counter: nat, id: StateId) {
    var pc := ReaperAt(s, n);
    || pc == Armed(sid, counter) || pc == Probing(sid, counter) || pc.Done? || pc.Discarding?
    || ((pc.Matched? || pc.StopWait? || pc.Stopping?) && pc.state != id)
  }

  lemma VoidStep(s: State, a: Action, n: nat, sid: SessionId, counter: nat, id: StateId)
    requires Inv(s) && Can(s, a) && Reaper(n) in s.tasks && id in s.states
    requires NotMatched(s, n, sid, counter, id) && counter < s.states[id].cancelCounter
    ensures var s' := Next(s, a);
            Reaper(n) in s'.tasks && id in s'.states && NotMatched(s', n, sid, counter, id)
                && counter < s'.states[id].cancelCounter
  {
    hide Inv, ChannelCan, ChannelNext, ReaperCan, ReaperNext, RouterCan, RouterNext;
    FreshState(s);
    match a
    case ByChannel(c, step) => ChannelCounters(s, c, step);
    case ByReaper(m, step) =>
      ReaperCounters(s, m, step);
      ReaperFramed(s, m, step);
      if m == n { VoidReaper(s, n, step, sid, counter, id); }
    case ByRouter(step) => RouterCounters(s, step);
  }

  lemma VoidReaper(s: State, n: nat, a: ReaperStep, sid: SessionId, counter: nat, id: StateId)
    requires ReaperCan(s, n, a) && id in s.states
    requires NotMatched(s, n, sid, counter, id) && counter < s.states[id].cancelCounter
    ensures Reaper(n) in ReaperNext(s, n, a).tasks && NotMatched(ReaperNext(s, n, a), n, sid, counter, id)
  {
    hide Remove, LockOf, NextLock, Bypass;
  }

  /** A timer that has not passed its counter test when a load bumps the counter never
      stops that session: whatever happens next, its reaper does not get to it. */
  lemma {:induction false} TimerVoidAfterLoad(s: State, actions: seq<Action>, n: nat, sid: SessionId, counter: nat,
      id: StateId)
    requires Inv(s) && IsRun(s, actions) && Reaper(n) in s.tasks && id in s.states
    requires NotMatched(s, n, sid, counter, id) && counter < s.states[id].cancelCounter
    ensures NotMatched(Run(s, actions), n, sid, counter, id)
    decreases |actions|
  {
    hide Inv, Can, Next, NotMatched;
    if actions != [] {
      StepKeeps(s, actions[0]);
      VoidStep(s, actions[0], n, sid, counter, id);
      TimerVoidAfterLoad(Next(s, actions[0]), actions[1..], n, sid, counter, id);
    }
  }

  // ---------------------------------------------------------------- late responses

  /** What was noted about responses is so: a pushed one is in the queue of that channel, a
      buffered one is in the log, and in the buffer until it is acknowledged. */
  lemma SettledResponseKept(s: State, k: nat)
    requires Reachable(s) && k < |s.outcomes|
    ensures match s.outcomes[k]
            case Pushed(c, message) => Direct(message) in Queue(s.queues, c)
            case Buffered(id, i, message) =>
              && IsLogged(s.states, id, i, message)
              && var session := s.states[id];
                 var dropped := |session.log| - |session.messageBuffer|;
                 i >= dropped ==> session.messageBuffer[i - dropped].message == message
            case Lost(_) => true
  {
    hide LocksOk, SendersOk, TableOk, ObjectsOk, RouterOk, OwnersOk, AllProgressOk, TargetOk, DeliveryOk, ReplaysOk,
      QueuesOk, CoverageOk, Reachable;
    ReachableHolds(s);
    assert OutcomeOk(s.outcomes[k], s.queues, s.states);
    if s.outcomes[k].Buffered? { WellFormed(s, s.outcomes[k].state); }
  }

  /** A buffered late response reaches every connected owner that starts at or before it. */
  lemma LateResponseReachesOwner(s: State, k: nat, sid: SessionId)
    requires Reachable(s) && k < |s.outcomes| && s.outcomes[k].Buffered?
    requires sid in s.sessions && s.sessions[sid].state in s.attached && s.sessions[sid].state == s.outcomes[k].state
    requires s.sessions[sid].channel.Some? && s.sessions[sid].channel.value in s.senders
    requires !Routing(s.router, s.sessions[sid].state, s.sessions[sid].channel.value)
    ensures s.attached[s.sessions[sid].state].from <= s.outcomes[k].index ==>
              Logged(s.outcomes[k].state, s.outcomes[k].index, s.outcomes[k].message)
                in Queue(s.queues, s.sessions[sid].channel.value)
  {
    hide Inv, Reachable, Seen;
    ReachableHolds(s);
    SettledResponseKept(s, k);
    DeliveredTo(s, sid);
    var state, c, i := s.sessions[sid].state, s.sessions[sid].channel.value, s.outcomes[k].index;
    var a, queue := s.attached[state], Queue(s.queues, c);
    if a.from <= i {
      ExpectedHas(a, |s.states[state].log|, i);
      assert Seen(queue, state)[a.base..] + [] == Seen(queue, state)[a.base..];
      assert i in Seen(queue, state)[a.base..];
      SeenInQueue(queue, state, i);
      QueueFollowsLog(s, c, state);
      var q :| 0 <= q < |queue| && queue[q].Logged? && queue[q].state == state && queue[q].index == i;
      assert queue[q] == Logged(state, i, s.outcomes[k].message);
    }
  }

  lemma ExpectedHas(a: Attachment, n: nat, i: nat)
    requires a.from <= a.upto <= n && (a.again ==> a.upto > 0) && a.from <= i < n
    ensures i in Expected(a, n)
  {
    var first, again := Indices(a.from, a.upto), if a.again then [a.upto - 1] else [];
    if i < a.upto {
      assert first[i - a.from] == i;
    } else {
      assert Indices(a.upto, n)[i - a.upto] == i;
      assert (first + again + Indices(a.upto, n))[|first + again| + i - a.upto] == i;
    }
  }
}
