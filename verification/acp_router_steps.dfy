/** Every step of the router keeps the invariant of the ACP proxy. */
module AcpRouterSteps {
  import opened Wrappers
  import opened AcpSession
  import opened AcpTable
  import opened AcpProtocol
  import opened AcpLocks
  import opened AcpInvariant
  import opened AcpMoves
  import opened AcpChannelSteps

  /** A router state in which nothing is being created, unmapped or pushed can be left for another. */
  lemma Turned(s: State, r: RouterPc)
    requires Inv(s) && RouterOk(r, s.states, s.tasks) && !r.Lookup? && !r.Push?
    requires !s.router.Lookup? && !s.router.CheckSender? && !s.router.LateUnmap? && !s.router.LateArm?
    requires s.router.Push? ==> s.router.target.None? || s.router.target.value !in s.senders
    ensures Inv(s.(router := r))
  {
    hide LocksOk, SendersOk, TableOk, ObjectsOk, RouterOk, AllProgressOk, TargetOk, DeliveryOk, ReplaysOk, QueuesOk,
      OutcomesOk, OwnersOk, CoverageOk;
    OwnersTurned(s.sessions, s.senders, s.tasks, s.router, r);
    CoverageTurned(s, r);
    Routed(s, r);
  }

  lemma OwnersTurned(sessions: Table<StateId>, senders: set<ChannelId>, tasks: Tasks, r: RouterPc, r': RouterPc)
    requires OwnersOk(sessions, senders, tasks, r)
    requires (r.CheckSender? || r.LateUnmap?) ==>
               r.answer.channel in senders || ((r'.CheckSender? || r'.LateUnmap?) && r.sid == r'.sid
                   && r.answer == r'.answer)
               || !Owns(sessions, r.sid, r.answer.channel)
    ensures OwnersOk(sessions, senders, tasks, r')
  {
    forall sid | sid in sessions && sessions[sid].channel.Some?
      ensures OwnerLive(sid, sessions[sid].channel.value, senders, tasks, r')
    {
      assert OwnerLive(sid, sessions[sid].channel.value, senders, tasks, r);
    }
  }

  lemma CoverageTurned(s: State, r: RouterPc)
    requires CoverageOk(s.sessions, s.states, s.released, s.tasks, s.router) && !s.router.LateArm?
    ensures CoverageOk(s.sessions, s.states, s.released, s.tasks, r)
  {
    hide TaskCovers;
    forall sid | sid in s.sessions && s.sessions[sid].channel.None?
      ensures Covered(sid, s.sessions[sid].state, s.states, s.released, s.tasks, r)
    {
      assert Covered(sid, s.sessions[sid].state, s.states, s.released, s.tasks, s.router);
    }
  }

  lemma RouterHere(s: State)
    requires Inv(s)
    ensures RouterOk(s.router, s.states, s.tasks)
    ensures TargetOk(s.router, s.senders, s.sessions, s.bypassed)
    ensures s.router.Append? || s.router.Lookup? || s.router.Push? ==> s.router.state in s.states
  {
    hide LocksOk, SendersOk, TableOk, ObjectsOk, OwnersOk, AllProgressOk, TargetOk, DeliveryOk, ReplaysOk, QueuesOk,
      OutcomesOk, CoverageOk;
  }

  lemma ReceiveKeeps(s: State, sid: SessionId, message: JsonRpcMessage)
    requires Inv(s) && s.router.Ready?
    ensures Inv(Receive(s, sid, message))
  {
    hide Inv;
    if sid in s.sessions {
      There(s, sid);
      Turned(s, Append(sid, s.sessions[sid].state, message, None));
    }
  }

  // ---------------------------------------------------------------- buffering and pushing

  lemma AppendKeeps(s: State)
    requires Inv(s) && s.router.Append? && !BufferRead(s, s.router.state)
    ensures Inv(AppendMessage(s))
  {
    hide LocksOk, SendersOk, TableOk, ObjectsOk, RouterOk, OwnersOk, AllProgressOk, DeliveryOk, ReplaysOk, QueuesOk,
      OutcomesOk, CoverageOk, Appended, Labelled, BufferRead;
    var pc, s' := s.router, AppendMessage(s);
    RouterHere(s);
    AppendTable(s, pc.state, pc.message);
    AppendRouter(s);
    OwnersTurned(s.sessions, s.senders, s.tasks, s.router, s'.router);
    AppendDelivery(s);
    AppendReplays(s);
    AppendLogs(s);
    AppendCoverage(s);
  }

  lemma AppendTable(s: State, id: StateId, message: JsonRpcMessage)
    requires TableOk(s.sessions, s.states, s.nextState) && id in s.states
    ensures TableOk(s.sessions, s.states[id := Appended(s.states[id], message)], s.nextState)
  {
    hide LogWellFormed;
    var session := s.states[id];
    LabelledExtends(session, message);
  }

  lemma LabelledExtends(session: Session, message: JsonRpcMessage)
    requires LogWellFormed(session.log, session.notificationIdCounter)
    ensures LogWellFormed(Appended(session, message).log, Appended(session, message).notificationIdCounter)
  {
    var next, log' := session.notificationIdCounter, Appended(session, message).log;
    LabelledExtendsLog(session.log, next, message);
    forall i | 0 <= i < |log'| ensures EntryWellFormed(log'[i], Appended(session, message).notificationIdCounter) {
      assert i < |session.log| ==> EntryWellFormed(session.log[i], next);
    }
  }

  lemma AppendRouter(s: State)
    requires s.router.Append? && RouterOk(s.router, s.states, s.tasks) && ObjectsOk(s.tasks, s.states)
    ensures RouterOk(AppendMessage(s).router, AppendMessage(s).states, s.tasks)
            && ObjectsOk(s.tasks, AppendMessage(s).states)
  {
    hide ObjectOf, Labelled;
  }

  /** The new message is on its way to whoever owns the session. */
  lemma AppendDelivery(s: State)
    requires s.router.Append? && s.router.state in s.states
    requires DeliveryOk(s.sessions, s.senders, s.queues, s.states, s.attached, s.router)
    ensures DeliveryOk(s.sessions, s.senders, s.queues, AppendMessage(s).states, s.attached,
            AppendMessage(s).router)
  {
    hide Delivered, Labelled;
    var s' := AppendMessage(s);
    forall sid | sid in s.sessions && s.sessions[sid].state in s.attached && s.sessions[sid].channel.Some?
        && s.sessions[sid].channel.value in s.senders
      ensures SessionDelivered(sid, s.sessions, s.queues, s'.states, s.attached, s'.router)
    {
      var state, c := s.sessions[sid].state, s.sessions[sid].channel.value;
      assert SessionDelivered(sid, s.sessions, s.queues, s.states, s.attached, s.router);
      if state == s.router.state { OneMore(Queue(s.queues, c), s.attached[state], c, state, |s.states[state].log|); }
    }
  }

  lemma OneMore(queue: seq<Item>, a: Attachment, c: ChannelId, state: StateId, n: nat)
    requires Delivered(queue, a, c, state, n, false)
    ensures Delivered(queue, a, c, state, n + 1, true)
  {
    hide Seen;
    assert Expected(a, n + 1) == Expected(a, n) + [n];
    assert Seen(queue, state)[a.base..] + [] == Seen(queue, state)[a.base..];
  }

  lemma AppendReplays(s: State)
    requires s.router.Append? && !BufferRead(s, s.router.state)
    requires ReplaysOk(s.tasks, s.sessions, s.bypassed, s.queues, s.states)
    ensures ReplaysOk(s.tasks, s.sessions, s.bypassed, s.queues, AppendMessage(s).states)
  {
    hide Seen, Labelled;
    forall t | t in s.tasks ensures ReplayOk(t, s.tasks[t], s.sessions, s.bypassed, s.queues, AppendMessage(s).states) {
      assert ReplayOk(t, s.tasks[t], s.sessions, s.bypassed, s.queues, s.states);
    }
  }

  lemma AppendLogs(s: State)
    requires s.router.Append? && s.router.state in s.states
    requires QueuesOk(s.queues, s.states) && OutcomesOk(s.outcomes, s.queues, s.states)
    ensures QueuesOk(s.queues, AppendMessage(s).states)
            && OutcomesOk(AppendMessage(s).outcomes, s.queues, AppendMessage(s).states)
  {
    var s' := AppendMessage(s);
    forall i | 0 <= i < |s'.outcomes| ensures OutcomeOk(s'.outcomes[i], s.queues, s'.states) {
      if i < |s.outcomes| { assert OutcomeOk(s.outcomes[i], s.queues, s.states); }
    }
  }

  lemma AppendCoverage(s: State)
    requires s.router.Append? && s.router.state in s.states
    requires CoverageOk(s.sessions, s.states, s.released, s.tasks, s.router)
    ensures CoverageOk(s.sessions, AppendMessage(s).states, s.released, s.tasks, AppendMessage(s).router)
  {
    hide TaskCovers, Labelled;
    forall sid | sid in s.sessions && s.sessions[sid].channel.None?
      ensures Covered(sid, s.sessions[sid].state, AppendMessage(s).states, s.released, s.tasks, AppendMessage(s).router)
    {
      assert Covered(sid, s.sessions[sid].state, s.states, s.released, s.tasks, s.router);
    }
  }

  lemma LookupKeeps(s: State)
    requires Inv(s) && s.router.Lookup?
    ensures Inv(LookupOwner(s))
  {
    hide LocksOk, SendersOk, TableOk, ObjectsOk, OwnersOk, AllProgressOk, DeliveryOk, ReplaysOk, QueuesOk, OutcomesOk,
      CoverageOk;
    var s' := LookupOwner(s);
    OwnersTurned(s.sessions, s.senders, s.tasks, s.router, s'.router);
    CoverageTurned(s, s'.router);
    LookupDelivery(s);
    LookupTarget(s);
  }

  lemma LookupTarget(s: State)
    requires s.router.Lookup? && RouterOk(s.router, s.states, s.tasks)
             && OwnersOk(s.sessions, s.senders, s.tasks, s.router)
    ensures RouterOk(LookupOwner(s).router, s.states, s.tasks)
  {
  }

  lemma LookupDelivery(s: State)
    requires s.router.Lookup? && TableOk(s.sessions, s.states, s.nextState) && RouterOk(s.router, s.states, s.tasks)
    requires DeliveryOk(s.sessions, s.senders, s.queues, s.states, s.attached, s.router)
    ensures DeliveryOk(s.sessions, s.senders, s.queues, s.states, s.attached, LookupOwner(s).router)
  {
    hide Delivered, IsSuffix, LogWellFormed;
    forall sid | sid in s.sessions && s.sessions[sid].state in s.attached && s.sessions[sid].channel.Some?
        && s.sessions[sid].channel.value in s.senders
      ensures SessionDelivered(sid, s.sessions, s.queues, s.states, s.attached, LookupOwner(s).router)
    {
      assert SessionDelivered(sid, s.sessions, s.queues, s.states, s.attached, s.router);
    }
  }

  lemma PushKeeps(s: State)
    requires Inv(s) && s.router.Push?
    ensures Inv(PushMessage(s))
  {
    hide LocksOk, SendersOk, TableOk, ObjectsOk, RouterOk, OwnersOk, AllProgressOk, DeliveryOk, ReplaysOk, QueuesOk,
      OutcomesOk, CoverageOk, Send;
    var pc, s' := s.router, PushMessage(s);
    assert RouterOk(s'.router, s.states, s.tasks) by { ForwardedOk(s, pc.close); }
    if pc.target.Some? && pc.target.value in s.senders {
      var c, item := pc.target.value, Logged(pc.state, pc.index, pc.message);
      OwnersTurned(s.sessions, s.senders, s.tasks, s.router, s'.router);
      CoverageTurned(s, s'.router);
      PushDelivery(s);
      PushReplays(s);
      PushLogged(s);
      QueuesSent(s.queues, s.states, c, item);
      OutcomesSent(s.outcomes, s.queues, s.states, c, [item]);
    } else {
      Turned(s, Forwarded(pc.close));
    }
  }

  lemma ForwardedOk(s: State, close: Option<SessionId>)
    ensures RouterOk(Forwarded(close), s.states, s.tasks)
  {
  }

  lemma PushLogged(s: State)
    requires s.router.Push? && RouterOk(s.router, s.states, s.tasks)
    ensures IsLogged(s.states, s.router.state, s.router.index, s.router.message)
  {
  }

  /** The message arrives: the owner now has the whole log after its starting point. */
  lemma PushDelivery(s: State)
    requires s.router.Push? && s.router.target.Some? && RouterOk(s.router, s.states, s.tasks)
    requires DeliveryOk(s.sessions, s.senders, s.queues, s.states, s.attached, s.router)
    ensures DeliveryOk(s.sessions, s.senders,
            Send(s.queues, s.router.target.value, [Logged(s.router.state, s.router.index, s.router.message)]),
                       s.states, s.attached, Forwarded(s.router.close))
  {
    hide Delivered, Seen;
    var pc := s.router;
    var c, item := pc.target.value, Logged(pc.state, pc.index, pc.message);
    var queues := Send(s.queues, c, [item]);
    forall sid | sid in s.sessions && s.sessions[sid].state in s.attached && s.sessions[sid].channel.Some?
        && s.sessions[sid].channel.value in s.senders
      ensures SessionDelivered(sid, s.sessions, queues, s.states, s.attached, Forwarded(pc.close))
    {
      var state, d := s.sessions[sid].state, s.sessions[sid].channel.value;
      assert SessionDelivered(sid, s.sessions, s.queues, s.states, s.attached, s.router);
      SeenSend(Queue(s.queues, c), item, state);
      if d == c && state == pc.state {
        Arrived(Queue(s.queues, c), item, s.attached[state], c, state, |s.states[state].log|);
      } else {
        SameSeen(Queue(s.queues, d), Queue(queues, d), s.attached[state], d, state, |StateOf(s.states, state).log|,
            false);
      }
    }
  }

  lemma Arrived(queue: seq<Item>, item: Item, a: Attachment, c: ChannelId, state: StateId, n: nat)
    requires Delivered(queue, a, c, state, n, true) && item.Logged? && item.state == state && item.index == n - 1
    ensures Delivered(queue + [item], a, c, state, n, false)
  {
    hide Expected;
    SeenSend(queue, item, state);
    var seen := Seen(queue, state);
    assert (seen + [n - 1])[a.base..] == seen[a.base..] + [n - 1];
    assert (seen + [n - 1])[a.base..] + [] == (seen + [n - 1])[a.base..];
  }

  /** No replay is under way on the channel the router pushes to. */
  lemma PushReplays(s: State)
    requires Inv(s) && s.router.Push? && s.router.target.Some? && s.router.target.value in s.senders
    ensures ReplaysOk(s.tasks, s.sessions, s.bypassed,
            Send(s.queues, s.router.target.value, [Logged(s.router.state, s.router.index, s.router.message)]), s.states)
  {
    hide LocksOk, SendersOk, TableOk, OwnersOk, DeliveryOk, QueuesOk, OutcomesOk, CoverageOk, Seen;
    var pc := s.router;
    var c, item := pc.target.value, Logged(pc.state, pc.index, pc.message);
    forall t | t in s.tasks ensures ReplayOk(t, s.tasks[t], s.sessions, s.bypassed, Send(s.queues, c, [item]),
        s.states) {
      assert ReplayOk(t, s.tasks[t], s.sessions, s.bypassed, s.queues, s.states);
      assert ProgressOk(s.tasks[t], s.sessions, s.bypassed) && ObjectOk(s.tasks[t], s.states);
      if s.tasks[t].LoadReplayed? { SeenSend(Queue(s.queues, c), item, s.tasks[t].state); }
    }
  }

  // ---------------------------------------------------------------- responses

  /** A new or forked session is entered for the channel that asked. */
  lemma RespondNewKeeps(s: State, answer: Answer, sid: SessionId)
    requires Inv(s) && CanRespond(s, answer)
    ensures Inv(RespondNew(s, answer, sid))
  {
    hide Inv, Orderly;
    var r := CheckSender(answer.(session := Some(sid)), sid);
    Turned(s, r);
    if sid !in s.sessions {
      var s1 := s.(router := r);
      if Orderly(s, sid) {
        InOrder(s, sid);
        Entered(s1, sid, answer.channel);
      } else {
        Widen(s1, sid);
        Entered(s1.(bypassed := s.bypassed + {sid}), sid, answer.channel);
      }
    }
  }

  lemma InOrder(s: State, sid: SessionId)
    requires Orderly(s, sid)
    ensures forall t :: t in s.tasks && Ref(s.tasks[t]).Has? ==> Ref(s.tasks[t]).sid != sid
  {
    hide Ref;
  }

  lemma Widen(s: State, sid: SessionId)
    requires Inv(s)
    ensures Inv(s.(bypassed := s.bypassed + {sid}))
  {
    hide LocksOk, SendersOk, TableOk, ObjectsOk, RouterOk, OwnersOk, AllProgressOk, TargetOk, DeliveryOk, ReplaysOk,
      QueuesOk, OutcomesOk, CoverageOk;
    Widened(s, s.bypassed + {sid});
    Bypassed(s, s.locks, s.bypassed + {sid});
  }

  lemma RespondFailedCreatedKeeps(s: State, answer: Answer, sid: SessionId)
    requires Inv(s) && CanRespond(s, answer)
    ensures Inv(RespondFailedCreated(s, answer, sid))
  {
    hide Inv;
    if UnownedOrOwnedBy(s.sessions, sid, answer.channel) {
      Removed(s, sid);
      Turned(s.(sessions := Remove(s.sessions, sid)), DropLock(answer, sid));
    } else {
      Turned(s, Deliver(answer));
    }
  }

  /** The claim is released: from here on the session is among the released ones. */
  lemma RespondFailedClaimKeeps(s: State, answer: Answer, sid: SessionId)
    requires Inv(s) && CanRespond(s, answer)
    ensures Inv(RespondFailedClaim(s, answer, sid))
  {
    hide LocksOk, SendersOk, TableOk, ObjectsOk, RouterOk, OwnersOk, AllProgressOk, DeliveryOk, ReplaysOk, QueuesOk,
      OutcomesOk, CoverageOk;
    assert RouterOk(Deliver(answer), s.states, s.tasks) by { DeliverOk(s, answer); }
    if Owns(s.sessions, sid, answer.channel) {
      Disowned(s, sid, answer.channel, Deliver(answer));
      ReleasedCoverage(s, sid, answer);
    } else {
      Turned(s, Deliver(answer));
    }
  }

  lemma DeliverOk(s: State, answer: Answer)
    requires CanRespond(s, answer)
    ensures RouterOk(Deliver(answer), s.states, s.tasks)
  {
  }

  /** A session loses its owner: everything but the question who reaps it. */
  lemma Disowned(s: State, sid: SessionId, c: ChannelId, r: RouterPc)
    requires Inv(s) && Owns(s.sessions, sid, c)
    requires s.router.Ready? || (s.router.LateUnmap? && s.router.sid == sid && s.router.answer.channel == c)
    requires !r.Lookup? && !r.Push?
    ensures var sessions := UnmapIfOwnedBy(s.sessions, sid, c);
            && TableOk(sessions, s.states, s.nextState)
            && OwnersOk(sessions, s.senders, s.tasks, r)
            && AllProgressOk(s.tasks, sessions, s.bypassed)
            && TargetOk(r, s.senders, sessions, s.bypassed)
            && DeliveryOk(sessions, s.senders, s.queues, s.states, s.attached, r)
            && ReplaysOk(s.tasks, sessions, s.bypassed, s.queues, s.states)
  {
    hide LocksOk, SendersOk, ObjectsOk, RouterOk, QueuesOk, OutcomesOk, CoverageOk, OwnersOk, AllProgressOk, DeliveryOk,
      ReplaysOk, IsSuffix, LogWellFormed;
    DisownedOwners(s, sid, c, r);
    DisownedTasks(s, sid, c);
    DisownedDelivery(s, sid, c, r);
  }

  lemma DisownedOwners(s: State, sid: SessionId, c: ChannelId, r: RouterPc)
    requires OwnersOk(s.sessions, s.senders, s.tasks, s.router) && Owns(s.sessions, sid, c)
    requires s.router.Ready? || (s.router.LateUnmap? && s.router.sid == sid && s.router.answer.channel == c)
    ensures OwnersOk(UnmapIfOwnedBy(s.sessions, sid, c), s.senders, s.tasks, r)
  {
    forall x | x in s.sessions && s.sessions[x].channel.Some?
      ensures OwnerLive(x, s.sessions[x].channel.value, s.senders, s.tasks, s.router)
    {
    }
  }

  lemma DisownedTasks(s: State, sid: SessionId, c: ChannelId)
    requires AllProgressOk(s.tasks, s.sessions, s.bypassed)
             && ReplaysOk(s.tasks, s.sessions, s.bypassed, s.queues, s.states)
    ensures AllProgressOk(s.tasks, UnmapIfOwnedBy(s.sessions, sid, c), s.bypassed)
    ensures ReplaysOk(s.tasks, UnmapIfOwnedBy(s.sessions, sid, c), s.bypassed, s.queues, s.states)
  {
    hide Seen;
    forall t | t in s.tasks
      ensures ProgressOk(s.tasks[t], UnmapIfOwnedBy(s.sessions, sid, c), s.bypassed)
      ensures ReplayOk(t, s.tasks[t], UnmapIfOwnedBy(s.sessions, sid, c), s.bypassed, s.queues, s.states)
    {
      assert ProgressOk(s.tasks[t], s.sessions, s.bypassed)
          && ReplayOk(t, s.tasks[t], s.sessions, s.bypassed, s.queues, s.states);
    }
  }

  lemma DisownedDelivery(s: State, sid: SessionId, c: ChannelId, r: RouterPc)
    requires DeliveryOk(s.sessions, s.senders, s.queues, s.states, s.attached, s.router)
    requires !s.router.Lookup? && !s.router.Push? && !r.Lookup? && !r.Push?
    ensures DeliveryOk(UnmapIfOwnedBy(s.sessions, sid, c), s.senders, s.queues, s.states, s.attached, r)
  {
    hide Delivered;
    forall x | x in s.sessions && s.sessions[x].state in s.attached && s.sessions[x].channel.Some?
        && s.sessions[x].channel.value in s.senders
      ensures SessionDelivered(x, s.sessions, s.queues, s.states, s.attached, s.router)
    {
    }
  }

  lemma ReleasedCoverage(s: State, sid: SessionId, answer: Answer)
    requires CoverageOk(s.sessions, s.states, s.released, s.tasks, s.router) && s.router.Ready?
             && Owns(s.sessions, sid, answer.channel)
    ensures CoverageOk(UnmapIfOwnedBy(s.sessions, sid, answer.channel), s.states,
            RespondFailedClaim(s, answer, sid).released, s.tasks,
                       Deliver(answer))
  {
    hide TaskCovers;
    forall x | x in s.sessions && s.sessions[x].channel.None?
      ensures Covered(x, s.sessions[x].state, s.states, s.released, s.tasks, s.router)
    {
    }
  }

  lemma SenderCheckKeeps(s: State)
    requires Inv(s) && s.router.CheckSender?
    ensures Inv(SenderCheck(s))
  {
    hide LocksOk, SendersOk, TableOk, ObjectsOk, RouterOk, OwnersOk, AllProgressOk, TargetOk, DeliveryOk, ReplaysOk,
      QueuesOk, OutcomesOk, CoverageOk;
    var r := SenderCheck(s).router;
    assert RouterOk(r, s.states, s.tasks) by { SameAnswer(s, r); }
    OwnersTurned(s.sessions, s.senders, s.tasks, s.router, r);
    CoverageTurned(s, r);
    Routed(s, r);
  }

  lemma SameAnswer(s: State, r: RouterPc)
    requires RouterOk(s.router, s.states, s.tasks) && Answering(s.router) && Answering(r) && r.answer == s.router.answer
    ensures RouterOk(r, s.states, s.tasks)
  {
  }

  lemma UnmapLateKeeps(s: State)
    requires Inv(s) && s.router.LateUnmap?
    ensures Inv(UnmapLate(s))
  {
    hide LocksOk, SendersOk, TableOk, ObjectsOk, RouterOk, OwnersOk, AllProgressOk, TargetOk, DeliveryOk, ReplaysOk,
      QueuesOk, OutcomesOk, CoverageOk;
    var pc, r := s.router, UnmapLate(s).router;
    assert RouterOk(r, s.states, s.tasks) by { SameAnswer(s, r); }
    if Owns(s.sessions, pc.sid, pc.answer.channel) {
      Disowned(s, pc.sid, pc.answer.channel, r);
      LateCoverage(s);
    } else {
      OwnersTurned(s.sessions, s.senders, s.tasks, s.router, r);
      CoverageTurned(s, r);
      Routed(s, r);
    }
  }

  lemma LateCoverage(s: State)
    requires CoverageOk(s.sessions, s.states, s.released, s.tasks, s.router) && s.router.LateUnmap?
    requires Owns(s.sessions, s.router.sid, s.router.answer.channel)
    ensures CoverageOk(UnmapLate(s).sessions, s.states, s.released, s.tasks, UnmapLate(s).router)
  {
    hide TaskCovers;
    forall x | x in s.sessions && s.sessions[x].channel.None?
      ensures Covered(x, s.sessions[x].state, s.states, s.released, s.tasks, s.router)
    {
    }
  }

  /** The timer of a late response takes over from the router. */
  lemma ArmLateKeeps(s: State, n: nat)
    requires Inv(s) && s.router.LateArm? && Reaper(n) !in s.tasks
    ensures Inv(ArmLate(s, n))
  {
    hide LocksOk, SendersOk, TableOk, ObjectsOk, RouterOk, OwnersOk, AllProgressOk, TargetOk, DeliveryOk, ReplaysOk,
      QueuesOk, OutcomesOk, CoverageOk;
    var pc, r := s.router, Deliver(s.router.answer);
    var s1 := s;
    if pc.sid in s.sessions {
      var timer := Armed(pc.sid, StateOf(s.states, s.sessions[pc.sid].state).cancelCounter);
      assert MayMove(s, Reaper(n), timer) by { NewReaper(s, n, timer); }
      MovedOn(s, Reaper(n), timer);
      s1 := s.(tasks := s.tasks[Reaper(n) := timer]);
    }
    assert RouterOk(r, s1.states, s1.tasks) by { SameAnswer(s1, r); }
    OwnersTurned(s1.sessions, s1.senders, s1.tasks, s1.router, r);
    ArmedLate(s1, n);
    Routed(s1, r);
  }

  lemma NewReaper(s: State, n: nat, pc: Pc)
    requires pc.Armed? && Reaper(n) !in s.tasks
    ensures MayMove(s, Reaper(n), pc) && Ref(pc) == NoLock
  {
  }

  lemma ArmedLate(s: State, n: nat)
    requires CoverageOk(s.sessions, s.states, s.released, s.tasks, s.router) && s.router.LateArm?
    requires s.router.sid in s.sessions ==>
               Reaper(n) in s.tasks && s.tasks[Reaper(n)]
                   == Armed(s.router.sid, StateOf(s.states, s.sessions[s.router.sid].state).cancelCounter)
    ensures CoverageOk(s.sessions, s.states, s.released, s.tasks, Deliver(s.router.answer))
  {
    forall sid | sid in s.sessions && s.sessions[sid].channel.None?
      ensures Covered(sid, s.sessions[sid].state, s.states, s.released, s.tasks, Deliver(s.router.answer))
    {
      assert Covered(sid, s.sessions[sid].state, s.states, s.released, s.tasks, s.router);
      if sid == s.router.sid {
        assert Covers(s.tasks[Reaper(n)], sid, s.sessions[sid].state,
            StateOf(s.states, s.sessions[sid].state).cancelCounter);
      }
    }
  }

  /** The mutex entry of a removed session goes. */
  lemma LockDropKeeps(s: State, sid: SessionId, r: RouterPc)
    requires Inv(s) && RouterOk(r, s.states, s.tasks) && !r.Lookup? && !r.Push?
             && (s.router.DropLock? || s.router.CloseLock?)
    ensures Inv(s.(router := r, locks := Remove(s.locks, sid), bypassed := Bypass(s, sid, None)))
  {
    hide LocksOk, SendersOk, TableOk, ObjectsOk, RouterOk, OwnersOk, AllProgressOk, TargetOk, DeliveryOk, ReplaysOk,
      QueuesOk, OutcomesOk, CoverageOk, Bypass;
    assert s.bypassed <= Bypass(s, sid, None);
    Dropped(s, sid);
    Bypassed(s, Remove(s.locks, sid), Bypass(s, sid, None));
    Turned(s.(locks := Remove(s.locks, sid), bypassed := Bypass(s, sid, None)), r);
  }

  lemma Noted(s: State, o: Outcome)
    requires Inv(s) && OutcomeOk(o, s.queues, s.states)
    ensures Inv(s.(outcomes := s.outcomes + [o]))
  {
    hide LocksOk, SendersOk, TableOk, ObjectsOk, RouterOk, OwnersOk, AllProgressOk, TargetOk, DeliveryOk, ReplaysOk,
      QueuesOk, OutcomeOk, CoverageOk;
  }

  lemma DeliverKeeps(s: State)
    requires Inv(s) && s.router.Deliver?
    ensures Inv(DeliverAnswer(s))
  {
    hide Inv, Send;
    RouterHere(s);
    var answer := s.router.answer;
    if answer.channel in s.senders {
      var c, item := answer.channel, Direct(answer.message);
      Turned(s, Forwarded(answer.close));
      var s1 := s.(router := Forwarded(answer.close));
      Sent(s1, c, item);
      SentQueue(s.queues, c, [item]);
      Noted(s1.(queues := Send(s.queues, c, [item])), Pushed(c, answer.message));
    } else if answer.session.Some? {
      Turned(s, LateOwner(answer, answer.session.value));
    } else {
      Turned(s, Forwarded(answer.close));
      Noted(s.(router := Forwarded(answer.close)), Lost(answer.message));
    }
  }

  lemma LateKeeps(s: State)
    requires Inv(s)
    ensures s.router.LateOwner? ==> Inv(OwnerLate(s))
    ensures s.router.LateFind? ==> Inv(FindLate(s))
  {
    hide Inv;
    RouterHere(s);
    var pc := s.router;
    if pc.LateOwner? { Turned(s, LatePush(pc.answer, pc.sid, SessionChannel(s.sessions, pc.sid))); }
    if pc.LateFind? && pc.sid in s.sessions {
      There(s, pc.sid);
      Turned(s, Append(pc.sid, s.sessions[pc.sid].state, pc.answer.message, pc.answer.close));
    }
    if pc.LateFind? && pc.sid !in s.sessions {
      Turned(s, Forwarded(pc.answer.close));
      Noted(s.(router := Forwarded(pc.answer.close)), Lost(pc.answer.message));
    }
  }

  lemma PushLateKeeps(s: State)
    requires Inv(s) && s.router.LatePush?
    ensures Inv(PushLate(s))
  {
    hide Inv;
    RouterHere(s);
    var pc := s.router;
    if pc.target.Some? && pc.target.value in s.senders {
      var c, item := pc.target.value, Direct(pc.answer.message);
      Turned(s, Forwarded(pc.answer.close));
      var s1 := s.(router := Forwarded(pc.answer.close));
      Sent(s1, c, item);
      SentQueue(s.queues, c, [item]);
      Noted(s1.(queues := Send(s.queues, c, [item])), Pushed(c, pc.answer.message));
    } else {
      Turned(s, LateFind(pc.answer, pc.sid));
    }
  }

  lemma CloseKeeps(s: State)
    requires Inv(s) && s.router.Close?
    ensures Inv(CloseSession(s))
  {
    hide Inv;
    Removed(s, s.router.sid);
    Turned(s.(sessions := Remove(s.sessions, s.router.sid)), CloseLock(s.router.sid));
  }

  lemma DropKeeps(s: State)
    requires Inv(s)
    ensures s.router.DropLock? ==> Inv(LockDrop(s))
    ensures s.router.CloseLock? ==> Inv(LockClose(s))
  {
    hide Inv, Bypass;
    RouterHere(s);
    if s.router.DropLock? { LockDropKeeps(s, s.router.sid, Deliver(s.router.answer)); }
    if s.router.CloseLock? { LockDropKeeps(s, s.router.sid, Ready); }
  }

  lemma RouterKeeps(s: State, a: RouterStep)
    requires Inv(s) && RouterCan(s, a)
    ensures Inv(RouterNext(s, a))
  {
    hide Inv, Receive, AppendMessage, LookupOwner, PushMessage, RespondNew, RespondFailedCreated, RespondFailedClaim,
      SenderCheck, UnmapLate, ArmLate, LockDrop, DeliverAnswer, OwnerLate, PushLate, FindLate, CloseSession, LockClose,
      BufferRead;
    match a
    case DoReceive(sid, message) => ReceiveKeeps(s, sid, message);
    case DoAppend => AppendKeeps(s);
    case DoLookup => LookupKeeps(s);
    case DoPush => PushKeeps(s);
    case DoRespond(answer) => Turned(s, Deliver(answer));
    case DoRespondNew(answer, sid) => RespondNewKeeps(s, answer, sid);
    case DoRespondLoaded(answer, sid) => Turned(s, CheckSender(answer, sid));
    case DoRespondFailed(answer, sid, created) => RespondFailedCreatedKeeps(s, answer, sid);
        RespondFailedClaimKeeps(s, answer, sid);
    case DoCheckSender => SenderCheckKeeps(s);
    case DoLateUnmap => UnmapLateKeeps(s);
    case DoLateArm(n) => ArmLateKeeps(s, n);
    case DoDropLock => DropKeeps(s);
    case DoDeliver => DeliverKeeps(s);
    case DoLateOwner => LateKeeps(s);
    case DoLatePush => PushLateKeeps(s);
    case DoLateFind => LateKeeps(s);
    case DoClose => CloseKeeps(s);
    case DoCloseLock => DropKeeps(s);
  }
}
