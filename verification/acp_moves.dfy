/** Changes that many steps of the ACP proxy share, and that keep the invariant. */
module AcpMoves {
  import opened Wrappers
  import opened AcpSession
  import opened AcpTable
  import opened AcpProtocol
  import opened AcpLocks
  import opened AcpInvariant

  // ---------------------------------------------------------------- queues

  lemma SeenSend(queue: seq<Item>, item: Item, state: StateId)
    ensures Seen(queue + [item], state) == Seen(queue, state) + if item.Logged? && item.state == state
            then [item.index] else []
  {
    assert (queue + [item])[..|queue|] == queue;
  }

  lemma ReplayLast(id: StateId, from: nat, messages: seq<BufferedMessage>)
    requires messages != []
    ensures var k := |messages| - 1;
            Replay(id, from, messages) == Replay(id, from, messages[..k]) + [Logged(id, from + k, messages[k].message)]
    ensures Indices(from, from + |messages|) == Indices(from, from + |messages| - 1) + [from + |messages| - 1]
  {
  }

  lemma {:induction false} SeenReplay(queue: seq<Item>, id: StateId, from: nat, messages: seq<BufferedMessage>,
      state: StateId)
    ensures Seen(queue + Replay(id, from, messages), state)
            == Seen(queue, state) + if state == id then Indices(from, from + |messages|) else []
    decreases |messages|
  {
    hide Replay, Indices, Seen;
    if messages == [] {
      NothingReplayed(queue, id, from);
    } else {
      var k := |messages| - 1;
      var items, last := Replay(id, from, messages[..k]), Logged(id, from + k, messages[k].message);
      SeenReplay(queue, id, from, messages[..k], state);
      ReplayLast(id, from, messages);
      assert queue + (items + [last]) == (queue + items) + [last];
      SeenSend(queue + items, last, state);
    }
  }

  lemma NothingReplayed(queue: seq<Item>, id: StateId, from: nat)
    ensures queue + Replay(id, from, []) == queue && Indices(from, from) == []
  {
  }

  /** Every index seen in a queue is there with its message. */
  lemma {:induction false} SeenInQueue(queue: seq<Item>, state: StateId, i: nat)
    requires i in Seen(queue, state)
    ensures exists k :: 0 <= k < |queue| && queue[k].Logged? && queue[k].state == state && queue[k].index == i
  {
    var n := |queue| - 1;
    if queue[n].Logged? && queue[n].state == state && queue[n].index == i {
    } else {
      SeenInQueue(queue[..n], state, i);
      var k :| 0 <= k < n && queue[..n][k].Logged? && queue[..n][k].state == state && queue[..n][k].index == i;
      assert queue[k] == queue[..n][k];
    }
  }

  lemma ReplaysSent(tasks: Tasks, sessions: Table<StateId>, bypassed: set<SessionId>, queues: Queues, states: States,
      c: ChannelId, item: Item)
    requires ReplaysOk(tasks, sessions, bypassed, queues, states) && !item.Logged?
    ensures ReplaysOk(tasks, sessions, bypassed, Send(queues, c, [item]), states)
  {
    forall t | t in tasks ensures ReplayOk(t, tasks[t], sessions, bypassed, Send(queues, c, [item]), states) {
      if tasks[t].LoadReplayed? { SeenSend(Queue(queues, c), item, tasks[t].state); }
    }
  }

  lemma DeliverySent(s: State, c: ChannelId, item: Item)
    requires DeliveryOk(s.sessions, s.senders, s.queues, s.states, s.attached, s.router) && !item.Logged?
    ensures DeliveryOk(s.sessions, s.senders, Send(s.queues, c, [item]), s.states, s.attached, s.router)
  {
    hide Delivered;
    forall sid | sid in s.sessions && s.sessions[sid].state in s.attached && s.sessions[sid].channel.Some?
        && s.sessions[sid].channel.value in s.senders
      ensures SessionDelivered(sid, s.sessions, Send(s.queues, c, [item]), s.states, s.attached, s.router)
    {
      var state, d := s.sessions[sid].state, s.sessions[sid].channel.value;
      SeenSend(Queue(s.queues, c), item, state);
      SameSeen(Queue(s.queues, d), Queue(Send(s.queues, c, [item]), d), s.attached[state], d, state,
               |StateOf(s.states, state).log|, Routing(s.router, state, d));
    }
  }

  lemma SameSeen(queue: seq<Item>, queue': seq<Item>, a: Attachment, c: ChannelId, state: StateId, n: nat,
      routing: bool)
    requires Delivered(queue, a, c, state, n, routing)
    requires Seen(queue, state) == Seen(queue', state)
    ensures Delivered(queue', a, c, state, n, routing)
  {
  }

  lemma QueuesSent(queues: Queues, states: States, c: ChannelId, item: Item)
    requires QueuesOk(queues, states)
    requires item.Logged? ==> IsLogged(states, item.state, item.index, item.message)
    ensures QueuesOk(Send(queues, c, [item]), states)
  {
    hide IsLogged;
  }

  lemma OutcomesSent(outcomes: seq<Outcome>, queues: Queues, states: States, c: ChannelId, items: seq<Item>)
    requires OutcomesOk(outcomes, queues, states)
    ensures OutcomesOk(outcomes, Send(queues, c, items), states)
  {
    hide IsLogged;
    forall i | 0 <= i < |outcomes| ensures OutcomeOk(outcomes[i], Send(queues, c, items), states) {
      assert OutcomeOk(outcomes[i], queues, states);
    }
  }

  /** A message outside the session logs is put on a queue. */
  lemma Sent(s: State, c: ChannelId, item: Item)
    requires Inv(s) && !item.Logged?
    ensures Inv(s.(queues := Send(s.queues, c, [item])))
  {
    hide LocksOk, SendersOk, TableOk, ObjectsOk, RouterOk, OwnersOk, AllProgressOk, TargetOk, DeliveryOk, ReplaysOk,
      QueuesOk, OutcomesOk, CoverageOk, Send;
    ReplaysSent(s.tasks, s.sessions, s.bypassed, s.queues, s.states, c, item);
    DeliverySent(s, c, item);
    QueuesSent(s.queues, s.states, c, item);
    OutcomesSent(s.outcomes, s.queues, s.states, c, [item]);
  }

  // ---------------------------------------------------------------- tasks

  ghost predicate KeepsCover(s: State, t: Task, pc: Pc) {
    t in s.tasks ==>
      forall sid :: sid in s.sessions && s.sessions[sid].channel.None?
        && Covers(s.tasks[t], sid, s.sessions[sid].state, StateOf(s.states, s.sessions[sid].state).cancelCounter)
        ==> Covers(pc, sid, s.sessions[sid].state, StateOf(s.states, s.sessions[sid].state).cancelCounter)
            || s.sessions[sid].state in s.released
  }

  lemma OwnersMoved(s: State, t: Task, pc: Pc)
    requires OwnersOk(s.sessions, s.senders, s.tasks, s.router)
    requires t in s.tasks && s.tasks[t].Unmapping? ==> pc.Unmapping?
    ensures OwnersOk(s.sessions, s.senders, s.tasks[t := pc], s.router)
  {
  }

  lemma CoverageMoved(s: State, t: Task, pc: Pc)
    requires CoverageOk(s.sessions, s.states, s.released, s.tasks, s.router)
    requires KeepsCover(s, t, pc)
    ensures CoverageOk(s.sessions, s.states, s.released, s.tasks[t := pc], s.router)
  {
    hide Covers;
    forall sid | sid in s.sessions && s.sessions[sid].channel.None?
      ensures Covered(sid, s.sessions[sid].state, s.states, s.released, s.tasks[t := pc], s.router)
    {
      var state := s.sessions[sid].state;
      var counter := StateOf(s.states, state).cancelCounter;
      assert Covered(sid, state, s.states, s.released, s.tasks, s.router);
      if TaskCovers(s.tasks, sid, state, counter) {
        var u :| u in s.tasks && Covers(s.tasks[u], sid, state, counter);
        assert u in s.tasks[t := pc] && s.tasks[t := pc][if u == t then t else u] == if u == t then pc else s.tasks[u];
      }
    }
  }

  lemma SendersMoved(tasks: Tasks, senders: set<ChannelId>, t: Task, pc: Pc)
    requires SendersOk(tasks, senders) && KindOk(t, pc, senders)
    ensures SendersOk(tasks[t := pc], senders)
  {
    hide KindOk;
  }

  lemma ObjectsMoved(tasks: Tasks, states: States, t: Task, pc: Pc)
    requires ObjectsOk(tasks, states) && ObjectOk(pc, states)
    ensures ObjectsOk(tasks[t := pc], states)
  {
    hide ObjectOk;
  }

  lemma ProgressMoved(tasks: Tasks, sessions: Table<StateId>, bypassed: set<SessionId>, t: Task, pc: Pc)
    requires AllProgressOk(tasks, sessions, bypassed) && ProgressOk(pc, sessions, bypassed)
    ensures AllProgressOk(tasks[t := pc], sessions, bypassed)
  {
    hide ProgressOk;
  }

  lemma ReplaysMoved(tasks: Tasks, sessions: Table<StateId>, bypassed: set<SessionId>, queues: Queues, states: States,
      t: Task, pc: Pc)
    requires ReplaysOk(tasks, sessions, bypassed, queues, states) && ReplayOk(t, pc, sessions, bypassed, queues, states)
    ensures ReplaysOk(tasks[t := pc], sessions, bypassed, queues, states)
  {
    hide ReplayOk;
  }

  /** What a task may do at a new program point without changing sessions, queues or logs. */
  ghost predicate MayMove(s: State, t: Task, pc: Pc) {
    && KindOk(t, pc, s.senders)
    && ObjectOk(pc, s.states)
    && ProgressOk(pc, s.sessions, s.bypassed)
    && ReplayOk(t, pc, s.sessions, s.bypassed, s.queues, s.states)
    && (t in s.tasks && s.tasks[t].Unmapping? ==> pc.Unmapping?)
    && KeepsCover(s, t, pc)
  }

  /** A task moves to another program point; it may take, make or release a mutex. */
  lemma Moved(s: State, t: Task, pc: Pc, locks: map<SessionId, Lock>, nextLock: Lock, held: map<Lock, Task>)
    requires Inv(s) && MayMove(s, t, pc)
    requires LocksOk(s.tasks[t := pc], locks, nextLock, held, s.bypassed)
    ensures Inv(s.(tasks := s.tasks[t := pc], locks := locks, nextLock := nextLock, held := held))
  {
    hide LocksOk, SendersOk, TableOk, ObjectsOk, OwnersOk, AllProgressOk, TargetOk, DeliveryOk, ReplaysOk, QueuesOk,
      OutcomesOk, CoverageOk, KindOk, ObjectOk, ProgressOk, ReplayOk, KeepsCover;
    SendersMoved(s.tasks, s.senders, t, pc);
    ObjectsMoved(s.tasks, s.states, t, pc);
    OwnersMoved(s, t, pc);
    ProgressMoved(s.tasks, s.sessions, s.bypassed, t, pc);
    ReplaysMoved(s.tasks, s.sessions, s.bypassed, s.queues, s.states, t, pc);
    CoverageMoved(s, t, pc);
  }

  /** What the invariant says about one task. */
  lemma Here(s: State, t: Task)
    requires Inv(s) && t in s.tasks
    ensures KindOk(t, s.tasks[t], s.senders) && ObjectOk(s.tasks[t], s.states)
    ensures ProgressOk(s.tasks[t], s.sessions, s.bypassed)
            && ReplayOk(t, s.tasks[t], s.sessions, s.bypassed, s.queues, s.states)
  {
    hide LocksOk, TableOk, RouterOk, OwnersOk, TargetOk, DeliveryOk, QueuesOk, OutcomesOk, CoverageOk, KindOk, ObjectOk,
      ProgressOk, ReplayOk;
  }

  /** What the invariant says about one session. */
  lemma There(s: State, sid: SessionId)
    requires Inv(s) && sid in s.sessions
    ensures s.sessions[sid].state in s.states && s.states[s.sessions[sid].state].id == sid
    ensures IsSuffix(s.states[s.sessions[sid].state].messageBuffer, s.states[s.sessions[sid].state].log)
  {
    hide LocksOk, SendersOk, ObjectsOk, RouterOk, OwnersOk, AllProgressOk, TargetOk, DeliveryOk, ReplaysOk, QueuesOk,
      OutcomesOk, CoverageOk, LogWellFormed, IsSuffix;
  }

  /** A program point whose relation to the mutexes stays as it is, or that had none and gets none. */
  lemma MovedOn(s: State, t: Task, pc: Pc)
    requires Inv(s) && MayMove(s, t, pc)
    requires Ref(pc) == NoLock || (t in s.tasks && Ref(pc) == Ref(s.tasks[t]))
    ensures Inv(s.(tasks := s.tasks[t := pc]))
  {
    hide MayMove, Ref, SendersOk, TableOk, ObjectsOk, RouterOk, OwnersOk, AllProgressOk, TargetOk, DeliveryOk,
      ReplaysOk, QueuesOk, OutcomesOk, CoverageOk;
    LocksMoved(s.tasks, s.locks, s.nextLock, s.held, s.bypassed, t, pc);
    Moved(s, t, pc, s.locks, s.nextLock, s.held);
  }

  /** This move asks for the mutex of a session and waits for it. */
  lemma MovedAsking(s: State, t: Task, pc: Pc, sid: SessionId)
    requires Inv(s) && MayMove(s, t, pc) && Ref(pc) == Waits(sid, LockOf(s, sid))
    ensures Inv(s.(tasks := s.tasks[t := pc], locks := s.locks[sid := LockOf(s, sid)], nextLock := NextLock(s, sid)))
  {
    hide MayMove, Ref, SendersOk, TableOk, ObjectsOk, RouterOk, OwnersOk, AllProgressOk, TargetOk, DeliveryOk,
      ReplaysOk, QueuesOk, OutcomesOk, CoverageOk;
    Register(s, sid);
    LocksMoved(s.tasks, s.locks[sid := LockOf(s, sid)], NextLock(s, sid), s.held, s.bypassed, t, pc);
    Moved(s, t, pc, s.locks[sid := LockOf(s, sid)], NextLock(s, sid), s.held);
  }

  /** This move takes the free mutex it has been waiting for. */
  lemma MovedTaking(s: State, t: Task, pc: Pc)
    requires Inv(s) && MayMove(s, t, pc) && t in s.tasks && Ref(s.tasks[t]).Waits? && Ref(s.tasks[t]).lock !in s.held
    requires Ref(pc) == Has(Ref(s.tasks[t]).sid, Ref(s.tasks[t]).lock)
    ensures Inv(s.(tasks := s.tasks[t := pc], held := s.held[Ref(pc).lock := t]))
  {
    hide LocksOk, MayMove, Ref, SendersOk, TableOk, ObjectsOk, RouterOk, OwnersOk, AllProgressOk, TargetOk, DeliveryOk,
      ReplaysOk, QueuesOk, OutcomesOk, CoverageOk;
    Acquired(s.tasks, s.locks, s.nextLock, s.held, s.bypassed, t, pc);
    Moved(s, t, pc, s.locks, s.nextLock, s.held[Ref(pc).lock := t]);
  }

  lemma MovedReleasing(s: State, t: Task, pc: Pc)
    requires Inv(s) && MayMove(s, t, pc) && t in s.tasks && Ref(s.tasks[t]).Has? && Ref(pc) == NoLock
    ensures Inv(s.(tasks := s.tasks[t := pc], held := Remove(s.held, Ref(s.tasks[t]).lock)))
  {
    hide LocksOk, MayMove, Ref, SendersOk, TableOk, ObjectsOk, RouterOk, OwnersOk, AllProgressOk, TargetOk, DeliveryOk,
      ReplaysOk, QueuesOk, OutcomesOk, CoverageOk;
    Released(s.tasks, s.locks, s.nextLock, s.held, s.bypassed, t, pc);
    Moved(s, t, pc, s.locks, s.nextLock, Remove(s.held, Ref(s.tasks[t]).lock));
  }

  // ---------------------------------------------------------------- router

  /** The exclusion of a session may turn out to have been bypassed at any time. */
  lemma Bypassed(s: State, locks: map<SessionId, Lock>, bypassed: set<SessionId>)
    requires Inv(s) && s.bypassed <= bypassed
    requires LocksOk(s.tasks, locks, s.nextLock, s.held, bypassed)
    ensures Inv(s.(locks := locks, bypassed := bypassed))
  {
    hide LocksOk, SendersOk, TableOk, ObjectsOk, RouterOk, OwnersOk, DeliveryOk, QueuesOk, OutcomesOk, CoverageOk;
  }

  /** An exclusion that nobody is past any more can be relied on again. */
  lemma Settled(s: State)
    requires Inv(s)
    ensures Inv(Settle(s))
  {
    hide SendersOk, TableOk, ObjectsOk, RouterOk, OwnersOk, DeliveryOk, QueuesOk, OutcomesOk, CoverageOk, LocksOk,
      AllProgressOk, ReplaysOk, Orderly, Settle;
    var bypassed := Settle(s).bypassed;
    SettledLocks(s);
    SettledTasks(s);
    SettledTarget(s);
    assert Settle(s) == s.(bypassed := bypassed);
  }

  lemma SettledLocks(s: State)
    requires Locks(s)
    ensures LocksOk(s.tasks, s.locks, s.nextLock, s.held, Settle(s).bypassed)
  {
    hide Ref;
    forall t | t in s.tasks ensures RefOk(Ref(s.tasks[t]), t, s.locks, s.nextLock, s.held, Settle(s).bypassed) {
      assert RefOk(Ref(s.tasks[t]), t, s.locks, s.nextLock, s.held, s.bypassed);
    }
  }

  lemma SettledTasks(s: State)
    requires AllProgressOk(s.tasks, s.sessions, s.bypassed)
             && ReplaysOk(s.tasks, s.sessions, s.bypassed, s.queues, s.states)
    ensures AllProgressOk(s.tasks, s.sessions, Settle(s).bypassed)
    ensures ReplaysOk(s.tasks, s.sessions, Settle(s).bypassed, s.queues, s.states)
  {
    hide Seen, Indices;
    var bypassed := Settle(s).bypassed;
    forall t | t in s.tasks
      ensures ProgressOk(s.tasks[t], s.sessions, bypassed)
      ensures ReplayOk(t, s.tasks[t], s.sessions, bypassed, s.queues, s.states)
    {
      assert ProgressOk(s.tasks[t], s.sessions, s.bypassed);
      assert ReplayOk(t, s.tasks[t], s.sessions, s.bypassed, s.queues, s.states);
      assert Ref(s.tasks[t]).Has? && Ref(s.tasks[t]).sid in s.bypassed ==> Ref(s.tasks[t]).sid in bypassed;
    }
  }

  lemma SettledTarget(s: State)
    requires TargetOk(s.router, s.senders, s.sessions, s.bypassed)
    ensures TargetOk(s.router, s.senders, s.sessions, Settle(s).bypassed)
  {
    hide Orderly;
  }

  /** The router moves on, away from any logged message still to be pushed. */
  lemma Routed(s: State, r: RouterPc)
    requires Inv(s) && RouterOk(r, s.states, s.tasks) && !r.Lookup? && !r.Push?
    requires !s.router.Lookup?
    requires s.router.Push? ==> s.router.target.None? || s.router.target.value !in s.senders
    requires OwnersOk(s.sessions, s.senders, s.tasks, r)
    requires CoverageOk(s.sessions, s.states, s.released, s.tasks, r)
    ensures Inv(s.(router := r))
  {
    hide LocksOk, SendersOk, TableOk, ObjectsOk, RouterOk, OwnersOk, AllProgressOk, DeliveryOk, ReplaysOk, QueuesOk,
      OutcomesOk, CoverageOk;
    DeliveryRouted(s, r);
  }

  lemma DeliveryRouted(s: State, r: RouterPc)
    requires DeliveryOk(s.sessions, s.senders, s.queues, s.states, s.attached, s.router)
    requires forall state, c :: c in s.senders ==> Routing(r, state, c) == Routing(s.router, state, c)
    ensures DeliveryOk(s.sessions, s.senders, s.queues, s.states, s.attached, r)
  {
    hide Delivered, Routing;
    forall sid | sid in s.sessions && s.sessions[sid].state in s.attached && s.sessions[sid].channel.Some?
        && s.sessions[sid].channel.value in s.senders
      ensures SessionDelivered(sid, s.sessions, s.queues, s.states, s.attached, r)
    {
      assert SessionDelivered(sid, s.sessions, s.queues, s.states, s.attached, s.router);
      assert Routing(r, s.sessions[sid].state, s.sessions[sid].channel.value)
          == Routing(s.router, s.sessions[sid].state, s.sessions[sid].channel.value);
    }
  }

  // ---------------------------------------------------------------- state objects

  /** A state object changes in everything but its log. */
  lemma Updated(s: State, id: StateId, session: Session)
    requires Inv(s) && id in s.states
    requires session.id == s.states[id].id && session.log == s.states[id].log
    requires session.notificationIdCounter == s.states[id].notificationIdCounter
    requires IsSuffix(session.messageBuffer, session.log)
    requires CoverageOk(s.sessions, s.states[id := session], s.released, s.tasks, s.router)
    ensures Inv(s.(states := s.states[id := session]))
  {
    hide LocksOk, SendersOk, OwnersOk, AllProgressOk, TargetOk, CoverageOk, TableOk, ObjectsOk, RouterOk, DeliveryOk,
      ReplaysOk, QueuesOk, OutcomesOk;
    TableUpdated(s.sessions, s.states, s.nextState, id, session);
    ObjectsUpdated(s, id, session);
    DeliveryUpdated(s, id, session);
    LogsUpdated(s, id, session);
  }

  lemma TableUpdated(sessions: Table<StateId>, states: States, nextState: StateId, id: StateId, session: Session)
    requires TableOk(sessions, states, nextState) && id in states && session.id == states[id].id
    requires session.log == states[id].log && session.notificationIdCounter == states[id].notificationIdCounter
    requires IsSuffix(session.messageBuffer, session.log)
    ensures TableOk(sessions, states[id := session], nextState)
  {
    hide IsSuffix, LogWellFormed;
  }

  lemma ObjectsUpdated(s: State, id: StateId, session: Session)
    requires ObjectsOk(s.tasks, s.states) && RouterOk(s.router, s.states, s.tasks) && id in s.states
    requires session.id == s.states[id].id && session.log == s.states[id].log
    ensures ObjectsOk(s.tasks, s.states[id := session]) && RouterOk(s.router, s.states[id := session], s.tasks)
  {
    hide ObjectOf;
  }

  lemma DeliveryUpdated(s: State, id: StateId, session: Session)
    requires DeliveryOk(s.sessions, s.senders, s.queues, s.states, s.attached, s.router)
    requires id in s.states && session.log == s.states[id].log
    ensures DeliveryOk(s.sessions, s.senders, s.queues, s.states[id := session], s.attached, s.router)
  {
    hide Delivered;
    forall sid | sid in s.sessions && s.sessions[sid].state in s.attached && s.sessions[sid].channel.Some?
        && s.sessions[sid].channel.value in s.senders
      ensures SessionDelivered(sid, s.sessions, s.queues, s.states[id := session], s.attached, s.router)
    {
      assert SessionDelivered(sid, s.sessions, s.queues, s.states, s.attached, s.router);
    }
  }

  lemma LogsUpdated(s: State, id: StateId, session: Session)
    requires ReplaysOk(s.tasks, s.sessions, s.bypassed, s.queues, s.states) && QueuesOk(s.queues, s.states)
             && OutcomesOk(s.outcomes, s.queues, s.states)
    requires id in s.states && session.log == s.states[id].log
    ensures ReplaysOk(s.tasks, s.sessions, s.bypassed, s.queues, s.states[id := session])
    ensures QueuesOk(s.queues, s.states[id := session]) && OutcomesOk(s.outcomes, s.queues, s.states[id := session])
  {
    forall t | t in s.tasks ensures ReplayOk(t, s.tasks[t], s.sessions, s.bypassed, s.queues, s.states[id := session]) {
      assert ReplayOk(t, s.tasks[t], s.sessions, s.bypassed, s.queues, s.states);
    }
    forall i | 0 <= i < |s.outcomes| ensures OutcomeOk(s.outcomes[i], s.queues, s.states[id := session]) {
      assert OutcomeOk(s.outcomes[i], s.queues, s.states);
    }
  }

  // ---------------------------------------------------------------- session table

  /** A session leaves the table. */
  lemma Removed(s: State, sid: SessionId)
    requires Inv(s)
    ensures Inv(s.(sessions := Remove(s.sessions, sid)))
  {
    hide LocksOk, SendersOk, ObjectsOk, RouterOk, QueuesOk, OutcomesOk, OwnerLive, Covered, Delivered, IsSuffix,
      LogWellFormed;
  }

  /** Exclusion at work: nobody else is past the mutex of a session one holds, unless the
      exclusion has been bypassed. */
  lemma Exclusive(tasks: Tasks, locks: map<SessionId, Lock>, nextLock: Lock, held: map<Lock, Task>,
      bypassed: set<SessionId>, t: Task, u: Task)
    requires LocksOk(tasks, locks, nextLock, held, bypassed)
    requires t in tasks && u in tasks && Ref(tasks[t]).Has? && Ref(tasks[u]).Has?
             && Ref(tasks[t]).sid == Ref(tasks[u]).sid
    requires Ref(tasks[t]).sid !in bypassed
    ensures t == u
  {
    hide Ref;
  }

  /** A session that was not in the table enters it, owned by `c`. */
  lemma Entered(s: State, sid: SessionId, c: ChannelId)
    requires Inv(s) && sid !in s.sessions && OwnerLive(sid, c, s.senders, s.tasks, s.router)
    requires forall u :: u in s.tasks && sid !in s.bypassed ==>
               !((s.tasks[u].LoadFound? || s.tasks[u].LoadBumped? || s.tasks[u].LoadChecked?
                   || s.tasks[u].LoadReplayed? || s.tasks[u].Stopping?)
                 && s.tasks[u].sid == sid)
    ensures Inv(s.(sessions := s.sessions[sid := SessionEntry(s.nextState, Some(c))],
                   states := s.states[s.nextState := Fresh(sid)], nextState := s.nextState + 1,
                   attached := s.attached[s.nextState := Created(s, c)]))
  {
    hide LocksOk, SendersOk, TableOk, ObjectsOk, OwnersOk, AllProgressOk, ReplaysOk, QueuesOk, OutcomesOk, CoverageOk,
      DeliveryOk, OwnerLive;
    CreatedTable(s, sid, c);
    CreatedTasks(s, sid, c);
    CreatedDelivery(s, sid, c);
    CreatedCoverage(s, sid, c);
    CreatedLogs(s, sid);
  }

  lemma CreatedTable(s: State, sid: SessionId, c: ChannelId)
    requires TableOk(s.sessions, s.states, s.nextState) && OwnersOk(s.sessions, s.senders, s.tasks, s.router)
    requires OwnerLive(sid, c, s.senders, s.tasks, s.router)
    ensures TableOk(s.sessions[sid := SessionEntry(s.nextState, Some(c))], s.states[s.nextState := Fresh(sid)],
            s.nextState + 1)
    ensures OwnersOk(s.sessions[sid := SessionEntry(s.nextState, Some(c))], s.senders, s.tasks, s.router)
    ensures s.nextState !in s.states
  {
    hide OwnerLive, LogWellFormed;
    assert LogWellFormed([], 1) by { EmptyLog(); }
  }

  lemma EmptyLog()
    ensures LogWellFormed([], 1)
  {
  }

  lemma CreatedTasks(s: State, sid: SessionId, c: ChannelId)
    requires ObjectsOk(s.tasks, s.states) && AllProgressOk(s.tasks, s.sessions, s.bypassed) && s.nextState !in s.states
    requires ReplaysOk(s.tasks, s.sessions, s.bypassed, s.queues, s.states)
    requires forall u :: u in s.tasks && sid !in s.bypassed ==>
               !((s.tasks[u].LoadFound? || s.tasks[u].LoadBumped? || s.tasks[u].LoadChecked?
                   || s.tasks[u].LoadReplayed? || s.tasks[u].Stopping?)
                 && s.tasks[u].sid == sid)
    ensures ObjectsOk(s.tasks, s.states[s.nextState := Fresh(sid)])
    ensures AllProgressOk(s.tasks, s.sessions[sid := SessionEntry(s.nextState, Some(c))], s.bypassed)
    ensures ReplaysOk(s.tasks, s.sessions[sid := SessionEntry(s.nextState, Some(c))], s.bypassed, s.queues,
            s.states[s.nextState := Fresh(sid)])
  {
    var sessions, states := s.sessions[sid := SessionEntry(s.nextState, Some(c))], s.states[s.nextState := Fresh(sid)];
    forall t | t in s.tasks
      ensures ObjectOk(s.tasks[t], states) && ProgressOk(s.tasks[t], sessions, s.bypassed)
      ensures ReplayOk(t, s.tasks[t], sessions, s.bypassed, s.queues, states)
    {
      assert ObjectOk(s.tasks[t], s.states) && ProgressOk(s.tasks[t], s.sessions, s.bypassed);
      assert ReplayOk(t, s.tasks[t], s.sessions, s.bypassed, s.queues, s.states);
    }
  }

  lemma CreatedDelivery(s: State, sid: SessionId, c: ChannelId)
    requires TableOk(s.sessions, s.states, s.nextState) && RouterOk(s.router, s.states, s.tasks)
             && s.nextState !in s.states
    requires DeliveryOk(s.sessions, s.senders, s.queues, s.states, s.attached, s.router)
    ensures DeliveryOk(s.sessions[sid := SessionEntry(s.nextState, Some(c))], s.senders, s.queues,
            s.states[s.nextState := Fresh(sid)], s.attached[s.nextState := Created(s, c)], s.router)
  {
    hide Seen, IsSuffix, LogWellFormed, Delivered;
    var sessions, states := s.sessions[sid := SessionEntry(s.nextState, Some(c))], s.states[s.nextState := Fresh(sid)];
    var attached := s.attached[s.nextState := Created(s, c)];
    forall x | x in sessions && sessions[x].state in attached && sessions[x].channel.Some?
        && sessions[x].channel.value in s.senders
      ensures SessionDelivered(x, sessions, s.queues, states, attached, s.router)
    {
      if x != sid {
        assert SessionDelivered(x, s.sessions, s.queues, s.states, s.attached, s.router);
      } else {
        NothingToDeliver(Queue(s.queues, c), c, s.nextState);
      }
    }
  }

  lemma NothingToDeliver(queue: seq<Item>, c: ChannelId, state: StateId)
    ensures Delivered(queue, Attachment(c, |Seen(queue, state)|, 0, 0, false), c, state, 0, false)
  {
  }

  lemma CreatedCoverage(s: State, sid: SessionId, c: ChannelId)
    requires CoverageOk(s.sessions, s.states, s.released, s.tasks, s.router)
             && TableOk(s.sessions, s.states, s.nextState) && s.nextState !in s.states
    ensures CoverageOk(s.sessions[sid := SessionEntry(s.nextState, Some(c))], s.states[s.nextState := Fresh(sid)],
            s.released, s.tasks, s.router)
  {
    hide TaskCovers, IsSuffix, LogWellFormed;
    var sessions := s.sessions[sid := SessionEntry(s.nextState, Some(c))];
    forall x | x in sessions && sessions[x].channel.None?
      ensures Covered(x, sessions[x].state, s.states[s.nextState := Fresh(sid)], s.released, s.tasks, s.router)
    {
      assert Covered(x, s.sessions[x].state, s.states, s.released, s.tasks, s.router);
    }
  }

  lemma CreatedLogs(s: State, sid: SessionId)
    requires QueuesOk(s.queues, s.states) && OutcomesOk(s.outcomes, s.queues, s.states) && s.nextState !in s.states
    ensures QueuesOk(s.queues, s.states[s.nextState := Fresh(sid)])
            && OutcomesOk(s.outcomes, s.queues, s.states[s.nextState := Fresh(sid)])
  {
    forall i | 0 <= i < |s.outcomes| ensures OutcomeOk(s.outcomes[i], s.queues, s.states[s.nextState := Fresh(sid)]) {
      assert OutcomeOk(s.outcomes[i], s.queues, s.states);
    }
  }

  /** The delivery to the new owner is noted, and complete, or not noted at all. */
  ghost predicate Attaches(s: State, c: ChannelId, state: StateId, attached: map<StateId, Attachment>) {
    || attached == Remove(s.attached, state)
    || (&& state in attached && attached == s.attached[state := attached[state]]
        && Delivered(Queue(s.queues, c), attached[state], c, state, |StateOf(s.states, state).log|,
             Routing(s.router, state, c)))
  }

  /** `c`, past the mutex of the session, becomes the owner of its state object. */
  lemma Owned(s: State, c: ChannelId, pc: Pc, held: map<Lock, Task>, sid: SessionId,
      attached: map<StateId, Attachment>)
    requires Inv(s) && c in s.senders && Channel(c) in s.tasks && sid in s.sessions
    requires (pc.LoadMapped? || pc.ClaimForward?) && pc.sid == sid
    requires s.tasks[Channel(c)] == At(s, c)
    requires (Ref(At(s, c)) == Ref(pc) && held == s.held)
             || (Ref(At(s, c)) == Waits(sid, pc.lock) && pc.lock !in s.held && held == s.held[pc.lock := Channel(c)])
    requires forall x :: x in s.sessions && s.sessions[x].channel.None? && x != sid
               ==> !Covers(s.tasks[Channel(c)], x, s.sessions[x].state,
                   StateOf(s.states, s.sessions[x].state).cancelCounter)
    requires sid !in s.bypassed ==> s.sessions[sid].channel == None
    requires Attaches(s, c, s.sessions[sid].state, attached)
    ensures var state := s.sessions[sid].state;
            Inv(s.(tasks := s.tasks[Channel(c) := pc], held := held, sessions := MapChannel(s.sessions, sid, c),
                   attached := attached, released := s.released - {state}))
  {
    hide LocksOk, SendersOk, TableOk, ObjectsOk, RouterOk, OwnersOk, AllProgressOk, DeliveryOk, ReplaysOk, QueuesOk,
      OutcomesOk, CoverageOk, Attaches, Covers, Ref;
    var t, state := Channel(c), s.sessions[sid].state;
    var sessions := MapChannel(s.sessions, sid, c);
    PastTheMutex(s, t, pc, held);
    OwnedTable(s, c, sid);
    OwnedTasks(s, t, pc, held, sid, c);
    OwnedDelivery(s, c, sid, attached);
    OwnedCoverage(s, c, pc, sid);
  }

  lemma PastTheMutex(s: State, t: Task, pc: Pc, held: map<Lock, Task>)
    requires Inv(s) && t in s.tasks && (pc.LoadMapped? || pc.ClaimForward?)
    requires (Ref(s.tasks[t]) == Ref(pc) && held == s.held)
             || (Ref(s.tasks[t]) == Waits(pc.sid, pc.lock) && pc.lock !in s.held && held == s.held[pc.lock := t])
    ensures LocksOk(s.tasks[t := pc], s.locks, s.nextLock, held, s.bypassed)
  {
    hide LocksOk, SendersOk, TableOk, ObjectsOk, RouterOk, OwnersOk, AllProgressOk, TargetOk, DeliveryOk, ReplaysOk,
      QueuesOk, OutcomesOk, CoverageOk;
    if Ref(s.tasks[t]) == Ref(pc) {
      LocksKept(s, t, pc);
    } else {
      Acquired(s.tasks, s.locks, s.nextLock, s.held, s.bypassed, t, pc);
    }
  }

  lemma LocksKept(s: State, t: Task, pc: Pc)
    requires LocksOk(s.tasks, s.locks, s.nextLock, s.held, s.bypassed) && t in s.tasks
    requires Ref(pc) == Ref(s.tasks[t])
    ensures LocksOk(s.tasks[t := pc], s.locks, s.nextLock, s.held, s.bypassed)
  {
    hide Ref;
    LocksMoved(s.tasks, s.locks, s.nextLock, s.held, s.bypassed, t, pc);
  }

  lemma OwnedTable(s: State, c: ChannelId, sid: SessionId)
    requires TableOk(s.sessions, s.states, s.nextState) && sid in s.sessions
    requires OwnersOk(s.sessions, s.senders, s.tasks, s.router) && c in s.senders && Channel(c) in s.tasks
    ensures TableOk(MapChannel(s.sessions, sid, c), s.states, s.nextState)
    ensures OwnersOk(MapChannel(s.sessions, sid, c), s.senders, s.tasks, s.router)
  {
    hide IsSuffix, LogWellFormed;
  }

  lemma OwnedTasks(s: State, t: Task, pc: Pc, held: map<Lock, Task>, sid: SessionId, c: ChannelId)
    requires Inv(s) && t == Channel(c) && t in s.tasks && c in s.senders && sid in s.sessions
    requires (pc.LoadMapped? || pc.ClaimForward?) && pc.sid == sid
    requires LocksOk(s.tasks[t := pc], s.locks, s.nextLock, held, s.bypassed)
    ensures SendersOk(s.tasks[t := pc], s.senders) && ObjectsOk(s.tasks[t := pc], s.states)
            && RouterOk(s.router, s.states, s.tasks[t := pc])
    ensures OwnersOk(MapChannel(s.sessions, sid, c), s.senders, s.tasks[t := pc], s.router)
    ensures AllProgressOk(s.tasks[t := pc], MapChannel(s.sessions, sid, c), s.bypassed)
    ensures ReplaysOk(s.tasks[t := pc], MapChannel(s.sessions, sid, c), s.bypassed, s.queues, s.states)
  {
    hide LocksOk, DeliveryOk, QueuesOk, OutcomesOk, CoverageOk, TableOk, SendersOk, ObjectsOk, ReplayOk, OwnersOk,
      TargetOk;
    SendersMoved(s.tasks, s.senders, t, pc);
    ObjectsMoved(s.tasks, s.states, t, pc);
    OwnedOwners(s, t, pc, sid, c);
    var tasks, sessions := s.tasks[t := pc], MapChannel(s.sessions, sid, c);
    forall u | u in tasks ensures ProgressOk(tasks[u], sessions, s.bypassed) {
      if u != t {
        assert ProgressOk(s.tasks[u], s.sessions, s.bypassed);
        if Ref(tasks[u]).Has? && Ref(tasks[u]).sid == sid && sid !in s.bypassed {
          Exclusive(tasks, s.locks, s.nextLock, held, s.bypassed, t, u);
        }
      }
    }
    OwnedReplays(s, t, pc, sid, c);
  }

  lemma OwnedOwners(s: State, t: Task, pc: Pc, sid: SessionId, c: ChannelId)
    requires OwnersOk(s.sessions, s.senders, s.tasks, s.router) && SendersOk(s.tasks, s.senders)
    requires c in s.senders && t == Channel(c) && t in s.tasks && sid in s.sessions
    ensures OwnersOk(MapChannel(s.sessions, sid, c), s.senders, s.tasks[t := pc], s.router)
  {
  }

  lemma OwnedReplays(s: State, t: Task, pc: Pc, sid: SessionId, c: ChannelId)
    requires ReplaysOk(s.tasks, s.sessions, s.bypassed, s.queues, s.states) && !pc.LoadReplayed? && sid in s.sessions
    ensures ReplaysOk(s.tasks[t := pc], MapChannel(s.sessions, sid, c), s.bypassed, s.queues, s.states)
  {
    forall u | u in s.tasks && u != t ensures ReplayOk(u, s.tasks[u], MapChannel(s.sessions, sid, c), s.bypassed,
        s.queues, s.states) {
      assert ReplayOk(u, s.tasks[u], s.sessions, s.bypassed, s.queues, s.states);
    }
  }

  lemma OwnedDelivery(s: State, c: ChannelId, sid: SessionId, attached: map<StateId, Attachment>)
    requires TableOk(s.sessions, s.states, s.nextState) && sid in s.sessions
    requires TargetOk(s.router, s.senders, s.sessions, s.bypassed)
             && (sid !in s.bypassed ==> s.sessions[sid].channel == None)
    requires DeliveryOk(s.sessions, s.senders, s.queues, s.states, s.attached, s.router)
    requires Attaches(s, c, s.sessions[sid].state, attached)
    ensures TargetOk(s.router, s.senders, MapChannel(s.sessions, sid, c), s.bypassed)
    ensures DeliveryOk(MapChannel(s.sessions, sid, c), s.senders, s.queues, s.states, attached, s.router)
  {
    hide Delivered, IsSuffix, LogWellFormed;
    var sessions := MapChannel(s.sessions, sid, c);
    forall x | x in sessions && sessions[x].state in attached && sessions[x].channel.Some?
        && sessions[x].channel.value in s.senders
      ensures SessionDelivered(x, sessions, s.queues, s.states, attached, s.router)
    {
      if x != sid { assert SessionDelivered(x, s.sessions, s.queues, s.states, s.attached, s.router); }
    }
  }

  lemma OwnedCoverage(s: State, c: ChannelId, pc: Pc, sid: SessionId)
    requires TableOk(s.sessions, s.states, s.nextState) && sid in s.sessions && Channel(c) in s.tasks
    requires CoverageOk(s.sessions, s.states, s.released, s.tasks, s.router)
    requires forall x :: x in s.sessions && s.sessions[x].channel.None? && x != sid
               ==> !Covers(s.tasks[Channel(c)], x, s.sessions[x].state,
                   StateOf(s.states, s.sessions[x].state).cancelCounter)
    ensures CoverageOk(MapChannel(s.sessions, sid, c), s.states, s.released - {s.sessions[sid].state},
            s.tasks[Channel(c) := pc], s.router)
  {
    hide Covers, IsSuffix, LogWellFormed;
    var sessions, tasks := MapChannel(s.sessions, sid, c), s.tasks[Channel(c) := pc];
    forall x | x in sessions && sessions[x].channel.None?
      ensures Covered(x, sessions[x].state, s.states, s.released - {s.sessions[sid].state}, tasks, s.router)
    {
      var state := s.sessions[x].state;
      var counter := StateOf(s.states, state).cancelCounter;
      assert Covered(x, state, s.states, s.released, s.tasks, s.router);
      if TaskCovers(s.tasks, x, state, counter) {
        var u :| u in s.tasks && Covers(s.tasks[u], x, state, counter);
        assert u in tasks && tasks[u] == s.tasks[u];
      }
    }
  }
}
