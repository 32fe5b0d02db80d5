/** Every step of a channel task keeps the invariant of the ACP proxy. */
module AcpChannelSteps {
  import opened Wrappers
  import opened AcpSession
  import opened AcpTable
  import opened AcpProtocol
  import opened AcpLocks
  import opened AcpInvariant
  import opened AcpMoves

  lemma JoinKeeps(s: State, c: ChannelId)
    requires Inv(s) && Channel(c) !in s.tasks
    ensures Inv(Join(s, c))
  {
    hide LocksOk, TableOk, ObjectsOk, QueuesOk, OutcomesOk, AllProgressOk, ReplaysOk, CoverageOk, OwnersOk;
    var t := Channel(c);
    Acquainted(s, t);
    ObjectsMoved(s.tasks, s.states, t, Idle);
    ProgressMoved(s.tasks, s.sessions, s.bypassed, t, Idle);
    ReplaysMoved(s.tasks, s.sessions, s.bypassed, s.queues, s.states, t, Idle);
    CoverageMoved(s, t, Idle);
    JoinOwners(s, c);
  }

  /** A new task knows no mutex. */
  lemma Acquainted(s: State, t: Task)
    requires LocksOk(s.tasks, s.locks, s.nextLock, s.held, s.bypassed)
    ensures LocksOk(s.tasks[t := Idle], s.locks, s.nextLock, s.held, s.bypassed)
  {
  }

  lemma JoinOwners(s: State, c: ChannelId)
    requires OwnersOk(s.sessions, s.senders, s.tasks, s.router) && Channel(c) !in s.tasks
    requires DeliveryOk(s.sessions, s.senders, s.queues, s.states, s.attached, s.router)
    ensures OwnersOk(s.sessions, s.senders + {c}, s.tasks[Channel(c) := Idle], s.router)
    ensures DeliveryOk(s.sessions, s.senders + {c}, s.queues, s.states, s.attached, s.router)
  {
    hide SessionDelivered;
  }

  lemma LoadBeginKeeps(s: State, c: ChannelId, sid: SessionId, latestId: string)
    requires Inv(s) && At(s, c).Idle?
    ensures Inv(LoadBegin(s, c, sid, latestId))
  {
    hide Inv;
    Here(s, Channel(c));
    MovedAsking(s, Channel(c), LoadWait(sid, LockOf(s, sid), latestId), sid);
  }

  lemma ClaimBeginKeeps(s: State, c: ChannelId, sid: SessionId)
    requires Inv(s) && At(s, c).Idle?
    ensures Inv(ClaimBegin(s, c, sid))
  {
    hide Inv;
    Here(s, Channel(c));
    MovedAsking(s, Channel(c), ClaimWait(sid, LockOf(s, sid)), sid);
  }

  lemma LoadAcquireKeeps(s: State, c: ChannelId)
    requires Inv(s) && At(s, c).LoadWait? && At(s, c).lock !in s.held
    ensures Inv(LoadAcquire(s, c))
  {
    hide Inv;
    var t, pc := Channel(c), At(s, c);
    if pc.sid in s.sessions {
      Here(s, t);
      There(s, pc.sid);
      MovedTaking(s, t, LoadFound(pc.sid, pc.lock, pc.latestId, s.sessions[pc.sid].state));
    } else {
      Rejected(s, c);
    }
  }

  /** The request is answered with an error, without the mutex. */
  lemma Rejected(s: State, c: ChannelId)
    requires Inv(s) && (At(s, c).LoadWait? || At(s, c).ClaimWait?)
    ensures Inv(s.(tasks := s.tasks[Channel(c) := Idle], queues := Send(s.queues, c, [ErrorReply])))
  {
    hide Inv, Send;
    var t := Channel(c);
    Here(s, t);
    MovedOn(s, t, Idle);
    Sent(s.(tasks := s.tasks[t := Idle]), c, ErrorReply);
  }

  /** A request is done: the mutex is released and the client gets its reply. */
  lemma Finished(s: State, c: ChannelId, item: Item)
    requires Inv(s) && Ref(At(s, c)).Has? && Connected(At(s, c)) && !item.Logged?
    requires KeepsCover(s, Channel(c), Idle)
    ensures Inv(s.(tasks := s.tasks[Channel(c) := Idle], held := Remove(s.held, Ref(At(s, c)).lock),
            queues := Send(s.queues, c, [item])))
    ensures Inv(s.(tasks := s.tasks[Channel(c) := Idle], held := Remove(s.held, Ref(At(s, c)).lock)))
  {
    hide Inv, Send, KeepsCover;
    var t := Channel(c);
    Here(s, t);
    MovedReleasing(s, t, Idle);
    Sent(s.(tasks := s.tasks[t := Idle], held := Remove(s.held, Ref(At(s, c)).lock)), c, item);
  }

  lemma LoadBumpKeeps(s: State, c: ChannelId)
    requires Inv(s) && At(s, c).LoadFound?
    ensures Inv(LoadBump(s, c))
  {
    hide Inv;
    var t, pc := Channel(c), At(s, c);
    var pc' := LoadBumped(pc.sid, pc.lock, pc.latestId, pc.state);
    Here(s, t);
    MovedOn(s, t, pc');
    UpdatedBy(s.(tasks := s.tasks[t := pc']), t, pc.state,
        s.states[pc.state].(cancelCounter := s.states[pc.state].cancelCounter + 1));
  }

  /** A state object changes while a task sees to its session, or in a way reapers do not notice. */
  lemma UpdatedBy(s: State, t: Task, id: StateId, session: Session)
    requires Inv(s) && id in s.states && t in s.tasks
    requires session.id == s.states[id].id && session.log == s.states[id].log
    requires session.notificationIdCounter == s.states[id].notificationIdCounter
    requires IsSuffix(s.states[id].messageBuffer, session.log) ==> IsSuffix(session.messageBuffer, session.log)
    requires Covers(s.tasks[t], s.states[id].id, id, session.cancelCounter)
             || session.cancelCounter == s.states[id].cancelCounter
    ensures Inv(s.(states := s.states[id := session]))
  {
    hide LocksOk, SendersOk, ObjectsOk, RouterOk, OwnersOk, AllProgressOk, TargetOk, DeliveryOk, ReplaysOk, QueuesOk,
      OutcomesOk, CoverageOk, Covers, IsSuffix, LogWellFormed;
    CoverageUpdated(s, t, id, session);
    Updated(s, id, session);
  }

  /** The counter changes while a task sees to the session. */
  lemma CoverageUpdated(s: State, t: Task, id: StateId, session: Session)
    requires TableOk(s.sessions, s.states, s.nextState)
             && CoverageOk(s.sessions, s.states, s.released, s.tasks, s.router)
    requires id in s.states && t in s.tasks
    requires Covers(s.tasks[t], s.states[id].id, id, session.cancelCounter)
             || session.cancelCounter == s.states[id].cancelCounter
    ensures CoverageOk(s.sessions, s.states[id := session], s.released, s.tasks, s.router)
  {
    hide Covers, IsSuffix, LogWellFormed;
    var states := s.states[id := session];
    forall sid | sid in s.sessions && s.sessions[sid].channel.None?
      ensures Covered(sid, s.sessions[sid].state, states, s.released, s.tasks, s.router)
    {
      assert Covered(sid, s.sessions[sid].state, s.states, s.released, s.tasks, s.router);
    }
  }

  lemma LoadCheckKeeps(s: State, c: ChannelId)
    requires Inv(s) && At(s, c).LoadBumped?
    ensures Inv(LoadCheck(s, c))
  {
    hide Inv, Send;
    var t, pc := Channel(c), At(s, c);
    if SessionChannel(s.sessions, pc.sid).Some? {
      Finished(s, c, ErrorReply);
    } else {
      Here(s, t);
      MovedOn(s, t, LoadChecked(pc.sid, pc.lock, pc.latestId, pc.state));
    }
  }

  /** The replayed messages are put on the queue. */
  lemma ReplaySent(s: State, c: ChannelId, from: nat, messages: seq<BufferedMessage>)
    requires Inv(s) && At(s, c).LoadChecked?
    requires At(s, c).state in s.states && from + |messages| == |s.states[At(s, c).state].log|
             && messages == s.states[At(s, c).state].log[from..]
    ensures Inv(s.(queues := Send(s.queues, c, Replay(At(s, c).state, from, messages)),
                   attached := LoadReplay(s, c).attached))
  {
    hide LocksOk, SendersOk, ObjectsOk, RouterOk, OwnersOk, AllProgressOk, TargetOk, DeliveryOk, ReplaysOk, QueuesOk,
      OutcomesOk, CoverageOk, TableOk, Send, Replay;
    var pc := At(s, c);
    Here(s, Channel(c));
    ReplayedDelivery(s, c, from, messages);
    ReplayedReplays(s, c, from, messages);
    ReplayedQueues(s.queues, s.states, c, pc.state, from, messages);
    OutcomesSent(s.outcomes, s.queues, s.states, c, Replay(pc.state, from, messages));
  }

  lemma ReplayedDelivery(s: State, c: ChannelId, from: nat, messages: seq<BufferedMessage>)
    requires At(s, c).LoadChecked? && ObjectOk(At(s, c), s.states)
    requires TableOk(s.sessions, s.states, s.nextState)
    requires DeliveryOk(s.sessions, s.senders, s.queues, s.states, s.attached, s.router)
    ensures DeliveryOk(s.sessions, s.senders, Send(s.queues, c, Replay(At(s, c).state, from, messages)),
            s.states, LoadReplay(s, c).attached, s.router)
  {
    hide Delivered, Replay, Seen, IsSuffix, LogWellFormed;
    var id := At(s, c).state;
    var items := Replay(id, from, messages);
    var attached := LoadReplay(s, c).attached;
    forall sid | sid in s.sessions && s.sessions[sid].state in attached && s.sessions[sid].channel.Some?
        && s.sessions[sid].channel.value in s.senders
      ensures SessionDelivered(sid, s.sessions, Send(s.queues, c, items), s.states, attached, s.router)
    {
      var state, d := s.sessions[sid].state, s.sessions[sid].channel.value;
      assert SessionDelivered(sid, s.sessions, s.queues, s.states, s.attached, s.router);
      SeenReplay(Queue(s.queues, c), id, from, messages, state);
      SameSeen(Queue(s.queues, d), Queue(Send(s.queues, c, items), d), s.attached[state], d, state,
               |StateOf(s.states, state).log|, Routing(s.router, state, d));
    }
  }

  lemma ReplayedReplays(s: State, c: ChannelId, from: nat, messages: seq<BufferedMessage>)
    requires At(s, c).LoadChecked? && ReplaysOk(s.tasks, s.sessions, s.bypassed, s.queues, s.states)
    ensures ReplaysOk(s.tasks, s.sessions, s.bypassed, Send(s.queues, c, Replay(At(s, c).state, from, messages)),
            s.states)
  {
    hide Replay, Seen;
    var items := Replay(At(s, c).state, from, messages);
    forall t | t in s.tasks ensures ReplayOk(t, s.tasks[t], s.sessions, s.bypassed, Send(s.queues, c, items),
        s.states) {
      assert ReplayOk(t, s.tasks[t], s.sessions, s.bypassed, s.queues, s.states);
    }
  }

  lemma ReplayedQueues(queues: Queues, states: States, c: ChannelId, id: StateId, from: nat,
      messages: seq<BufferedMessage>)
    requires QueuesOk(queues, states) && id in states && from + |messages| == |states[id].log|
             && messages == states[id].log[from..]
    ensures QueuesOk(Send(queues, c, Replay(id, from, messages)), states)
  {
    hide IsLogged;
    var items := Replay(id, from, messages);
    forall k | 0 <= k < |items| ensures IsLogged(states, items[k].state, items[k].index, items[k].message) {
      LoggedAt(states, id, from, k, messages);
    }
  }

  lemma LoggedAt(states: States, id: StateId, from: nat, k: nat, messages: seq<BufferedMessage>)
    requires id in states && from + |messages| == |states[id].log| && messages == states[id].log[from..]
             && k < |messages|
    ensures IsLogged(states, id, from + k, messages[k].message)
  {
  }

  lemma LoadReplayKeeps(s: State, c: ChannelId)
    requires Inv(s) && At(s, c).LoadChecked?
    ensures Inv(LoadReplay(s, c))
  {
    hide Inv, Send, Replay, Seen, Indices;
    var t, pc := Channel(c), At(s, c);
    Here(s, t);
    Whole(s, pc.state);
    var session := s.states[pc.state];
    var from, messages := Replayed(session, pc.latestId), After(session.messageBuffer, pc.latestId);
    AfterIsSuffix(session.messageBuffer, session.log, pc.latestId);
    ReplaySent(s, c, from, messages);
    var queues := Send(s.queues, c, Replay(pc.state, from, messages));
    var s1 := s.(queues := queues, attached := LoadReplay(s, c).attached);
    var pc' := LoadReplayed(pc.sid, pc.lock, pc.state, session.cancelled, |Seen(Queue(s.queues, c), pc.state)|, from);
    SeenReplay(Queue(s.queues, c), pc.state, from, messages, pc.state);
    SentQueue(s.queues, c, Replay(pc.state, from, messages));
    ReplayIsThere(s1, t, pc', |Seen(Queue(s.queues, c), pc.state)|);
    MovedOn(s1, t, pc');
    UpdatedBy(s1.(tasks := s.tasks[t := pc']), t, pc.state, session.(cancelled := false));
  }

  lemma ReplayIsThere(s: State, t: Task, pc: Pc, base: nat)
    requires t.Channel? && pc.LoadReplayed? && pc.base == base && pc.state in s.states
             && pc.from <= |s.states[pc.state].log|
    requires base <= |Seen(Queue(s.queues, t.c), pc.state)|
    requires Seen(Queue(s.queues, t.c), pc.state)[base..] == Indices(pc.from, |s.states[pc.state].log|)
    ensures ReplayOk(t, pc, s.sessions, s.bypassed, s.queues, s.states)
  {
    hide Seen, Indices;
  }

  /** The buffer of a state object is the end of its log. */
  lemma Whole(s: State, id: StateId)
    requires Inv(s) && id in s.states
    ensures IsSuffix(s.states[id].messageBuffer, s.states[id].log)
  {
    hide LocksOk, SendersOk, ObjectsOk, RouterOk, OwnersOk, AllProgressOk, TargetOk, DeliveryOk, ReplaysOk, QueuesOk,
      OutcomesOk, CoverageOk, LogWellFormed, IsSuffix;
  }

  lemma SentQueue(queues: Queues, c: ChannelId, items: seq<Item>)
    ensures Queue(Send(queues, c, items), c) == Queue(queues, c) + items
  {
  }

  lemma LoadMapKeeps(s: State, c: ChannelId)
    requires Inv(s) && At(s, c).LoadReplayed?
    ensures Inv(LoadMap(s, c))
  {
    hide Inv, Seen, Indices;
    var t, pc := Channel(c), At(s, c);
    var pc' := LoadMapped(pc.sid, pc.lock, pc.wasCancelled);
    Here(s, t);
    if pc.sid in s.sessions {
      var state := s.sessions[pc.sid].state;
      if pc.sid !in s.bypassed { ReplayDelivers(s, c); }
      Owned(s, c, pc', s.held, pc.sid, LoadMap(s, c).attached);
    } else {
      MovedOn(s, t, pc');
    }
  }

  /** A replayed load is a complete delivery up to the message still on its way. */
  lemma ReplayDelivers(s: State, c: ChannelId)
    requires Inv(s) && At(s, c).LoadReplayed? && At(s, c).sid in s.sessions && At(s, c).sid !in s.bypassed
    ensures var pc := At(s, c);
            Delivered(Queue(s.queues, c), Attach(s, pc.state, c, pc.base, pc.from), c, pc.state,
                |StateOf(s.states, pc.state).log|, Routing(s.router, pc.state, c))
  {
    hide LocksOk, OwnersOk, DeliveryOk, QueuesOk, OutcomesOk, CoverageOk, Seen;
    var pc := At(s, c);
    assert ReplayOk(Channel(c), pc, s.sessions, s.bypassed, s.queues, s.states);
    assert KindOk(Channel(c), pc, s.senders) && ProgressOk(pc, s.sessions, s.bypassed) && ObjectOk(pc, s.states);
    var n := |s.states[pc.state].log|;
    assert !(s.router.Push? && s.router.state == pc.state && s.router.target == Some(c));
    assert Indices(n, n) == [];
  }

  lemma ClaimKeeps(s: State, c: ChannelId)
    requires Inv(s) && At(s, c).ClaimWait? && At(s, c).lock !in s.held
    ensures Inv(Claim(s, c))
  {
    hide Inv, Seen, Send, Attach, Created;
    if SessionChannel(s.sessions, At(s, c).sid).Some? {
      Rejected(s, c);
    } else if At(s, c).sid in s.sessions {
      hide Claim;
      ClaimTakes(s, c);
    } else {
      hide Claim;
      ClaimCreates(s, c);
    }
  }

  lemma ClaimTakes(s: State, c: ChannelId)
    requires Inv(s) && At(s, c).ClaimWait? && At(s, c).lock !in s.held
    requires At(s, c).sid in s.sessions && s.sessions[At(s, c).sid].channel.None?
    ensures Inv(Claim(s, c))
  {
    hide Inv, Seen, Send;
    var pc := At(s, c);
    Here(s, Channel(c));
    if pc.sid !in s.bypassed { ClaimDelivers(s, c); }
    Owned(s, c, ClaimForward(pc.sid, pc.lock), s.held[pc.lock := Channel(c)], pc.sid, Claim(s, c).attached);
  }

  lemma ClaimCreates(s: State, c: ChannelId)
    requires Inv(s) && At(s, c).ClaimWait? && At(s, c).lock !in s.held && At(s, c).sid !in s.sessions
    ensures Inv(Claim(s, c))
  {
    hide Inv, Seen, Send;
    var t, pc := Channel(c), At(s, c);
    var pc' := ClaimForward(pc.sid, pc.lock);
    Here(s, t);
    MovedTaking(s, t, pc');
    var s1 := s.(tasks := s.tasks[t := pc'], held := s.held[pc.lock := t]);
    ClaimExclusive(s1, t);
    Entered(s1, pc.sid, c);
  }

  /** A claim of an existing session starts a delivery at the end of the log. */
  lemma ClaimDelivers(s: State, c: ChannelId)
    requires Inv(s) && At(s, c).ClaimWait? && At(s, c).sid in s.sessions && At(s, c).sid !in s.bypassed
    requires s.sessions[At(s, c).sid].channel == None
    ensures var state := s.sessions[At(s, c).sid].state;
            Delivered(Queue(s.queues, c), Attach(s, state, c, |Seen(Queue(s.queues, c), state)|,
                |StateOf(s.states, state).log|), c, state,
                      |StateOf(s.states, state).log|, Routing(s.router, state, c))
  {
    hide LocksOk, OwnersOk, DeliveryOk, QueuesOk, OutcomesOk, CoverageOk, Seen;
    var state := s.sessions[At(s, c).sid].state;
    var n := |s.states[state].log|;
    assert KindOk(Channel(c), At(s, c), s.senders);
    assert !(s.router.Push? && s.router.state == state && s.router.target == Some(c));
    assert Indices(n, n) == [];
  }

  /** Whoever holds the mutex of a session that is not in the table is alone with it. */
  lemma ClaimExclusive(s: State, t: Task)
    requires Inv(s) && t in s.tasks && s.tasks[t].ClaimForward?
    ensures forall u ::
              u in s.tasks && s.tasks[t].sid !in s.bypassed
              && Ref(s.tasks[u]).Has? && Ref(s.tasks[u]).sid == s.tasks[t].sid ==>
                u == t
  {
    hide LocksOk, SendersOk, TableOk, ObjectsOk, RouterOk, OwnersOk, AllProgressOk, TargetOk, DeliveryOk, ReplaysOk,
      QueuesOk, OutcomesOk, CoverageOk;
    forall u | u in s.tasks && s.tasks[t].sid !in s.bypassed && Ref(s.tasks[u]).Has?
        && Ref(s.tasks[u]).sid == s.tasks[t].sid ensures u == t {
      Exclusive(s.tasks, s.locks, s.nextLock, s.held, s.bypassed, t, u);
    }
  }

  lemma AckPruneKeeps(s: State, c: ChannelId)
    requires Inv(s) && At(s, c).AckOwned?
    ensures Inv(AckPrune(s, c))
  {
    hide Inv;
    var t, pc := Channel(c), At(s, c);
    Here(s, t);
    var session := s.states[pc.state];
    MovedOn(s, t, Idle);
    if IsSuffix(session.messageBuffer, session.log) { AfterIsSuffix(session.messageBuffer, session.log, pc.latestId); }
    UpdatedBy(s.(tasks := s.tasks[t := Idle]), t, pc.state,
        session.(messageBuffer := After(session.messageBuffer, pc.latestId)));
  }

  lemma AckKeeps(s: State, c: ChannelId, sid: SessionId, latestId: string)
    requires Inv(s)
    ensures At(s, c).Idle? ==> Inv(AckBegin(s, c, sid, latestId))
    ensures At(s, c).AckFound? ==> Inv(AckCheck(s, c))
  {
    hide Inv;
    var pc := At(s, c);
    if pc.Idle? && sid in s.sessions {
      Here(s, Channel(c));
      There(s, sid);
      MovedOn(s, Channel(c), AckFound(sid, s.sessions[sid].state, latestId));
    }
    if pc.AckFound? {
      Here(s, Channel(c));
      MovedOn(s, Channel(c), if Owns(s.sessions, pc.sid, c) then AckOwned(pc.state, pc.latestId) else Idle);
    }
  }

  lemma LeaveKeeps(s: State, c: ChannelId)
    requires Inv(s) && At(s, c).Idle?
    ensures Inv(Leave(s, c))
  {
    hide LocksOk, TableOk, ObjectsOk, QueuesOk, OutcomesOk, AllProgressOk, ReplaysOk, CoverageOk, SessionDelivered;
    var t := Channel(c);
    LocksMoved(s.tasks, s.locks, s.nextLock, s.held, s.bypassed, t, Unmapping);
    ObjectsMoved(s.tasks, s.states, t, Unmapping);
    ProgressMoved(s.tasks, s.sessions, s.bypassed, t, Unmapping);
    ReplaysMoved(s.tasks, s.sessions, s.bypassed, s.queues, s.states, t, Unmapping);
    CoverageMoved(s, t, Unmapping);
  }

  lemma UnmapKeeps(s: State, c: ChannelId)
    requires Inv(s) && At(s, c).Unmapping?
    ensures Inv(Unmap(s, c))
  {
    hide LocksOk, SendersOk, ObjectsOk, QueuesOk, OutcomesOk, AllProgressOk, ReplaysOk, CoverageOk, DeliveryOk,
      OwnersOk, IsSuffix, LogWellFormed;
    var t, pc := Channel(c), Arming(Unmapped(s, c));
    LocksMoved(s.tasks, s.locks, s.nextLock, s.held, s.bypassed, t, pc);
    Here(s, t);
    SendersMoved(s.tasks, s.senders, t, pc);
    ObjectsMoved(s.tasks, s.states, t, pc);
    UnmapOwners(s, c);
    UnmapDelivery(s, c);
    UnmapTasks(s, c);
    UnmapCoverage(s, c);
  }

  lemma UnmapOwners(s: State, c: ChannelId)
    requires OwnersOk(s.sessions, s.senders, s.tasks, s.router) && Channel(c) in s.tasks
    ensures OwnersOk(UnmapAll(s.sessions, c), s.senders, s.tasks[Channel(c) := Arming(Unmapped(s, c))], s.router)
  {
    hide Unmapped;
    forall sid | sid in s.sessions && s.sessions[sid].channel.Some?
      ensures OwnerLive(sid, s.sessions[sid].channel.value, s.senders, s.tasks, s.router)
    {
    }
  }

  lemma UnmapDelivery(s: State, c: ChannelId)
    requires DeliveryOk(s.sessions, s.senders, s.queues, s.states, s.attached, s.router) && c !in s.senders
    ensures DeliveryOk(UnmapAll(s.sessions, c), s.senders, s.queues, s.states, s.attached, s.router)
  {
    hide Delivered;
    forall sid | sid in s.sessions && s.sessions[sid].state in s.attached && s.sessions[sid].channel.Some?
        && s.sessions[sid].channel.value in s.senders
      ensures SessionDelivered(sid, UnmapAll(s.sessions, c), s.queues, s.states, s.attached, s.router)
    {
      assert SessionDelivered(sid, s.sessions, s.queues, s.states, s.attached, s.router);
    }
  }

  lemma UnmapTasks(s: State, c: ChannelId)
    requires AllProgressOk(s.tasks, s.sessions, s.bypassed)
             && ReplaysOk(s.tasks, s.sessions, s.bypassed, s.queues, s.states)
    ensures AllProgressOk(s.tasks[Channel(c) := Arming(Unmapped(s, c))], UnmapAll(s.sessions, c), s.bypassed)
    ensures ReplaysOk(s.tasks[Channel(c) := Arming(Unmapped(s, c))], UnmapAll(s.sessions, c), s.bypassed, s.queues,
            s.states)
  {
    hide Unmapped;
    forall t | t in s.tasks && t != Channel(c)
      ensures ProgressOk(s.tasks[t], UnmapAll(s.sessions, c), s.bypassed)
      ensures ReplayOk(t, s.tasks[t], UnmapAll(s.sessions, c), s.bypassed, s.queues, s.states)
    {
      assert ProgressOk(s.tasks[t], s.sessions, s.bypassed)
          && ReplayOk(t, s.tasks[t], s.sessions, s.bypassed, s.queues, s.states);
    }
  }

  /** What the cleanup unmaps, it arms a timer for. */
  lemma UnmapCoverage(s: State, c: ChannelId)
    requires CoverageOk(s.sessions, s.states, s.released, s.tasks, s.router) && At(s, c).Unmapping?
    ensures CoverageOk(UnmapAll(s.sessions, c), s.states, s.released, s.tasks[Channel(c) := Arming(Unmapped(s, c))],
            s.router)
  {
    var t, sessions, tasks := Channel(c), UnmapAll(s.sessions, c), s.tasks[Channel(c) := Arming(Unmapped(s, c))];
    forall sid | sid in sessions && sessions[sid].channel.None?
      ensures Covered(sid, sessions[sid].state, s.states, s.released, tasks, s.router)
    {
      var state := s.sessions[sid].state;
      var counter := StateOf(s.states, state).cancelCounter;
      if s.sessions[sid].channel == Some(c) {
        assert Covers(tasks[t], sid, state, counter);
      } else {
        assert Covered(sid, state, s.states, s.released, s.tasks, s.router);
        if TaskCovers(s.tasks, sid, state, counter) {
          var u :| u in s.tasks && Covers(s.tasks[u], sid, state, counter);
          assert u in tasks && tasks[u] == s.tasks[u];
        }
      }
    }
  }

  lemma ArmKeeps(s: State, c: ChannelId, timer: (SessionId, nat), n: nat)
    requires Inv(s) && At(s, c).Arming? && Reaper(n) !in s.tasks
    ensures Inv(Arm(s, c, timer, n))
  {
    hide Inv, CoverageOk;
    var t, pc := Channel(c), At(s, c);
    MovedOn(s, Reaper(n), Armed(timer.0, timer.1));
    var s1 := s.(tasks := s.tasks[Reaper(n) := Armed(timer.0, timer.1)]);
    Disarmed(s1, c, timer, n);
    assert Arm(s, c, timer, n).tasks == s1.tasks[t := Arming(pc.unmapped - {timer})];
  }

  /** The new timer takes over from the cleanup. */
  lemma ArmCoverage(s: State, c: ChannelId, timer: (SessionId, nat), n: nat)
    requires CoverageOk(s.sessions, s.states, s.released, s.tasks, s.router)
    requires At(s, c).Arming? && Reaper(n) in s.tasks && s.tasks[Reaper(n)] == Armed(timer.0, timer.1)
    ensures CoverageOk(s.sessions, s.states, s.released, s.tasks[Channel(c) := Arming(At(s, c).unmapped - {timer})],
            s.router)
  {
    var t, pc := Channel(c), At(s, c);
    var tasks := s.tasks[t := Arming(pc.unmapped - {timer})];
    forall sid | sid in s.sessions && s.sessions[sid].channel.None?
      ensures Covered(sid, s.sessions[sid].state, s.states, s.released, tasks, s.router)
    {
      var state := s.sessions[sid].state;
      var counter := StateOf(s.states, state).cancelCounter;
      assert Covered(sid, state, s.states, s.released, s.tasks, s.router);
      if TaskCovers(s.tasks, sid, state, counter) {
        var u :| u in s.tasks && Covers(s.tasks[u], sid, state, counter);
        if u == t {
          assert Covers(tasks[if timer == (sid, counter) then Reaper(n) else t], sid, state, counter);
        } else {
          assert u in tasks && tasks[u] == s.tasks[u];
        }
      }
    }
  }

  lemma Disarmed(s: State, c: ChannelId, timer: (SessionId, nat), n: nat)
    requires Inv(s) && At(s, c).Arming? && Reaper(n) in s.tasks && s.tasks[Reaper(n)] == Armed(timer.0, timer.1)
    ensures Inv(s.(tasks := s.tasks[Channel(c) := Arming(At(s, c).unmapped - {timer})]))
  {
    hide LocksOk, SendersOk, TableOk, ObjectsOk, OwnersOk, AllProgressOk, TargetOk, DeliveryOk, ReplaysOk, QueuesOk,
      OutcomesOk, CoverageOk;
    var t, pc := Channel(c), Arming(At(s, c).unmapped - {timer});
    Here(s, t);
    ArmCoverage(s, c, timer, n);
    LocksMoved(s.tasks, s.locks, s.nextLock, s.held, s.bypassed, t, pc);
    SendersMoved(s.tasks, s.senders, t, pc);
    ObjectsMoved(s.tasks, s.states, t, pc);
    OwnersMoved(s, t, pc);
    ProgressMoved(s.tasks, s.sessions, s.bypassed, t, pc);
    ReplaysMoved(s.tasks, s.sessions, s.bypassed, s.queues, s.states, t, pc);
  }

  lemma ChannelKeeps(s: State, c: ChannelId, a: ChannelStep)
    requires Inv(s) && ChannelCan(s, c, a)
    ensures Inv(ChannelNext(s, c, a))
  {
    hide Inv, Join, LoadBegin, LoadAcquire, LoadBump, LoadCheck, LoadReplay, LoadMap, ClaimBegin, Claim, AckBegin,
      AckCheck, AckPrune, Crash, Leave, Unmap, Arm;
    match a
    case DoJoin => JoinKeeps(s, c);
    case DoLoadBegin(sid, latest) => LoadBeginKeeps(s, c, sid, latest);
    case DoLoadAcquire => LoadAcquireKeeps(s, c);
    case DoLoadBump => LoadBumpKeeps(s, c);
    case DoLoadCheck => LoadCheckKeeps(s, c);
    case DoLoadReplay => LoadReplayKeeps(s, c);
    case DoLoadMap => LoadMapKeeps(s, c);
    case DoLoadFinish => Finished(s, c, LoadReply(At(s, c).wasCancelled));
    case DoClaimBegin(sid) => ClaimBeginKeeps(s, c, sid);
    case DoClaim => ClaimKeeps(s, c);
    case DoClaimFinish => Finished(s, c, ErrorReply);
    case DoAckBegin(sid, latest) => AckKeeps(s, c, sid, latest);
    case DoAckCheck => AckKeeps(s, c, 0, "");
    case DoAckPrune => AckPruneKeeps(s, c);
    case DoCrash => CrashKeeps(s, c);
    case DoLeave => LeaveKeeps(s, c);
    case DoUnmap => UnmapKeeps(s, c);
    case DoArm(timer, n) => ArmKeeps(s, c, timer, n);
    case DoFinish => FinishKeeps(s, c);
  }

  lemma CrashKeeps(s: State, c: ChannelId)
    requires Inv(s) && At(s, c).Idle?
    ensures Inv(Crash(s, c))
  {
    hide Inv;
    Here(s, Channel(c));
    MovedOn(s, Channel(c), Crashed);
  }

  lemma FinishKeeps(s: State, c: ChannelId)
    requires Inv(s) && At(s, c).Arming? && At(s, c).unmapped == {}
    ensures Inv(Finish(s, c))
  {
    hide Inv;
    Here(s, Channel(c));
    MovedOn(s, Channel(c), Gone);
  }
}
