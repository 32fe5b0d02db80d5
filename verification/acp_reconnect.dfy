/** A reconnect of the ACP proxy from the start of its replay to any later point at which
    the client still owns the session. */
module AcpReconnect {
  import opened Wrappers
  import opened AcpSession
  import opened AcpTable
  import opened AcpProtocol
  import opened AcpInvariant
  import opened AcpMoves
  import opened AcpTheorems
  import opened AcpEffects
  import opened AcpRuns
  import opened AcpSessions

  // ---------------------------------------------------------------- the attachment stays

  predicate OwnedBy(s: State, sid: SessionId, c: ChannelId, id: StateId) {
    sid in s.sessions && s.sessions[sid] == SessionEntry(id, Some(c))
  }

  ghost predicate SameAttachment(s: State, s': State, id: StateId) {
    (id in s.attached <==> id in s'.attached) && (id in s.attached ==> s'.attached[id] == s.attached[id])
  }

  /** `c` is not in a load of the session that has found it without owner. */
  predicate NotLoading(s: State, c: ChannelId, sid: SessionId) {
    !((At(s, c).LoadChecked? || At(s, c).LoadReplayed?) && At(s, c).sid == sid)
  }

  lemma AttachmentStays(s: State, a: Action, sid: SessionId, c: ChannelId, id: StateId)
    requires Inv(s) && Can(s, a) && OwnedBy(s, sid, c, id) && OwnedBy(Next(s, a), sid, c, id) && NotLoading(s, c, sid)
    ensures SameAttachment(s, Next(s, a), id) && NotLoading(Next(s, a), c, sid)
  {
    hide Inv, ChannelCan, ChannelNext, ReaperCan, ReaperNext, RouterCan, RouterNext, Settle;
    There(s, sid);
    FreshState(s);
    if a.ByChannel? && a.c == c {
      OwnLoadRefused(s, c, a.channelStep, sid);
    } else {
      StepSpares(s, a, c);
    }
    match a
    case ByChannel(d, step) => ChannelAttaches(s, d, step, sid, c);
    case ByReaper(n, step) => ReaperAttaches(s, n, step);
    case ByRouter(step) => RouterAttaches(s, step);
  }

  lemma OwnLoadRefused(s: State, c: ChannelId, a: ChannelStep, sid: SessionId)
    requires ChannelCan(s, c, a) && Owns(s.sessions, sid, c) && NotLoading(s, c, sid)
    ensures NotLoading(ChannelNext(s, c, a), c, sid)
  {
    hide BufferRead, LoadReplay, LoadMap, Claim, Unmap, Arm, Send, LockOf, NextLock;
    if a.DoLoadReplay? || a.DoLoadMap? || a.DoClaim? || a.DoUnmap? || a.DoArm? {
      hide ChannelNext;
      OwnMoves(s, c, a, sid);
    }
  }

  lemma OwnMoves(s: State, c: ChannelId, a: ChannelStep, sid: SessionId)
    requires ChannelCan(s, c, a) && NotLoading(s, c, sid)
    requires a.DoLoadReplay? || a.DoLoadMap? || a.DoClaim? || a.DoUnmap? || a.DoArm?
    ensures NotLoading(ChannelNext(s, c, a), c, sid)
  {
    hide Attach, Created, Replay, Replayed, After, Seen, Send, Unmapped;
  }

  lemma ChannelAttaches(s: State, d: ChannelId, a: ChannelStep, sid: SessionId, c: ChannelId)
    requires Inv(s) && ChannelCan(s, d, a) && NotLoading(s, c, sid)
    requires Owns(s.sessions, sid, c) && Owns(ChannelNext(s, d, a).sessions, sid, c)
    requires s.sessions[sid].state in s.states && s.states[s.sessions[sid].state].id == sid && s.nextState !in s.states
    ensures SameAttachment(s, ChannelNext(s, d, a), s.sessions[sid].state)
  {
    hide Inv, BufferRead, LoadMap, LoadReplay, Claim, Unmapped, Send, After, LockOf, NextLock, NotLoading;
    if a.DoLoadMap? {
      MapSpares(s, d, sid, c);
    } else if a.DoClaim? {
      ClaimSpares(s, d, sid);
    } else if a.DoLoadReplay? {
      ReplaySpares(s, d, sid, c);
    }
  }

  lemma MapSpares(s: State, d: ChannelId, sid: SessionId, c: ChannelId)
    requires Inv(s) && At(s, d).LoadReplayed? && NotLoading(s, c, sid)
    requires Owns(s.sessions, sid, c) && Owns(LoadMap(s, d).sessions, sid, c)
    requires s.sessions[sid].state in s.states && s.states[s.sessions[sid].state].id == sid
    ensures SameAttachment(s, LoadMap(s, d), s.sessions[sid].state)
  {
    hide Inv, Attach, Created;
    if At(s, d).sid in s.sessions { There(s, At(s, d).sid); }
  }

  lemma ReplaySpares(s: State, d: ChannelId, sid: SessionId, c: ChannelId)
    requires Inv(s) && At(s, d).LoadChecked? && NotLoading(s, c, sid) && Owns(s.sessions, sid, c)
    requires s.sessions[sid].state in s.states && s.states[s.sessions[sid].state].id == sid
    ensures SameAttachment(s, LoadReplay(s, d), s.sessions[sid].state)
  {
    hide Inv, Replay, Replayed, After, Seen, Send;
    Here(s, Channel(d));
  }

  lemma ClaimSpares(s: State, d: ChannelId, sid: SessionId)
    requires Inv(s) && ChannelCan(s, d, DoClaim)
    requires sid in s.sessions && s.sessions[sid].channel.Some?
    requires s.sessions[sid].state in s.states && s.states[s.sessions[sid].state].id == sid && s.nextState !in s.states
    ensures SameAttachment(s, Claim(s, d), s.sessions[sid].state)
  {
    hide Inv, Attach, Created;
    if At(s, d).sid in s.sessions { There(s, At(s, d).sid); }
  }

  lemma ReaperAttaches(s: State, n: nat, a: ReaperStep)
    requires ReaperCan(s, n, a)
    ensures ReaperNext(s, n, a).attached == s.attached
  {
    hide LockOf, NextLock, Bypass;
  }

  lemma RouterAttaches(s: State, a: RouterStep)
    requires RouterCan(s, a) && s.nextState !in s.states
    ensures forall id :: id in s.states ==> SameAttachment(s, RouterNext(s, a), id)
  {
    hide BufferRead, Receive, AppendMessage, LookupOwner, PushMessage, RespondNew, RespondFailedCreated,
      RespondFailedClaim, SenderCheck, UnmapLate, ArmLate, LockDrop, DeliverAnswer, OwnerLate, PushLate, FindLate,
      CloseSession, LockClose;
    if a.DoRespondNew? { NewAttaches(s, a.new_, a.newSid); }
  }

  lemma NewAttaches(s: State, answer: Answer, sid: SessionId)
    requires s.nextState !in s.states
    ensures forall id :: id in s.states ==> SameAttachment(s, RespondNew(s, answer, sid), id)
  {
    hide Orderly, Created;
  }

  /** `sid` stays so owned at every state of the run. */
  ghost predicate StaysOwned(s: State, actions: seq<Action>, sid: SessionId, c: ChannelId, id: StateId)
    requires IsRun(s, actions)
    decreases |actions|
  {
    OwnedBy(s, sid, c, id) && (actions == [] || StaysOwned(Next(s, actions[0]), actions[1..], sid, c, id))
  }

  lemma {:induction false} AttachmentKept(s: State, actions: seq<Action>, sid: SessionId, c: ChannelId, id: StateId)
    requires Inv(s) && IsRun(s, actions) && StaysOwned(s, actions, sid, c, id) && NotLoading(s, c, sid)
    requires id in s.attached
    ensures id in Run(s, actions).attached && Run(s, actions).attached[id] == s.attached[id]
    ensures OwnedBy(Run(s, actions), sid, c, id)
    decreases |actions|
  {
    hide Inv, Can, Next, OwnedBy, NotLoading;
    if actions != [] {
      StepKeeps(s, actions[0]);
      FirstOwned(Next(s, actions[0]), actions[1..], sid, c, id);
      AttachmentStays(s, actions[0], sid, c, id);
      AttachmentKept(Next(s, actions[0]), actions[1..], sid, c, id);
    }
  }

  // ---------------------------------------------------------------- when a delivery is complete

  /** The session's delivery to its owner, if it has one, is noted as complete. */
  predicate Attached(s: State, sid: SessionId) {
    sid in s.sessions && s.sessions[sid].channel.Some? ==> s.sessions[sid].state in s.attached
  }

  lemma AttachedStep(s: State, a: Action, sid: SessionId)
    requires Inv(s) && Can(s, a) && sid !in s.bypassed && Attached(s, sid)
    ensures Attached(Next(s, a), sid)
  {
    hide Inv, ChannelCan, ChannelNext, ReaperCan, ReaperNext, RouterCan, RouterNext, Settle;
    FreshState(s);
    if sid in s.sessions { There(s, sid); }
    match a
    case ByChannel(c, step) => ChannelKeepsAttached(s, c, step, sid);
    case ByReaper(n, step) =>
      ReaperAttaches(s, n, step);
      ReaperAdds(s, n, step);
    case ByRouter(step) =>
      RouterAttaches(s, step);
      RouterKeepsAttached(s, step, sid);
  }

  lemma ReaperAdds(s: State, n: nat, a: ReaperStep)
    requires ReaperCan(s, n, a)
    ensures var s' := ReaperNext(s, n, a);
            forall x :: x in s'.sessions ==> x in s.sessions && s'.sessions[x] == s.sessions[x]
  {
    hide Wake, Probe, TakeLock, StopCheck, StopCancel, Discard;
    if !a.DoStopClose? { ReaperFramed(s, n, a); }
  }

  lemma ChannelKeepsAttached(s: State, c: ChannelId, a: ChannelStep, sid: SessionId)
    requires Inv(s) && ChannelCan(s, c, a) && sid !in s.bypassed && Attached(s, sid)
    requires sid in s.sessions ==> s.states[s.sessions[sid].state].id == sid
    ensures Attached(ChannelNext(s, c, a), sid)
  {
    hide Inv, BufferRead, LoadMap, LoadReplay, Claim, Send, LockOf, NextLock, Unmapped;
    if a.DoLoadMap? || a.DoClaim? || a.DoLoadReplay? {
      OwnerAttaches(s, c, sid);
    }
  }

  lemma OwnerAttaches(s: State, c: ChannelId, sid: SessionId)
    requires Inv(s) && sid !in s.bypassed && Attached(s, sid)
    ensures At(s, c).LoadReplayed? ==> Attached(LoadMap(s, c), sid)
    ensures At(s, c).ClaimWait? ==> Attached(Claim(s, c), sid)
    ensures At(s, c).LoadChecked? ==> Attached(LoadReplay(s, c), sid)
  {
    hide Inv, Attach, Created, Replay, Replayed, After, Seen, Send;
    if Channel(c) in s.tasks { Here(s, Channel(c)); }
    if sid in s.sessions { There(s, sid); }
    if At(s, c).LoadReplayed? || At(s, c).ClaimWait? {
      if At(s, c).sid in s.sessions { There(s, At(s, c).sid); }
    }
  }

  lemma RouterKeepsAttached(s: State, a: RouterStep, sid: SessionId)
    requires RouterCan(s, a) && Attached(s, sid) && s.nextState !in s.states
    requires sid in s.sessions ==> s.sessions[sid].state in s.states
    requires forall id :: id in s.states ==> SameAttachment(s, RouterNext(s, a), id)
    ensures Attached(RouterNext(s, a), sid)
  {
    hide BufferRead, Receive, AppendMessage, LookupOwner, PushMessage, LockDrop, DeliverAnswer, OwnerLate, PushLate,
      FindLate, LockClose, SenderCheck, ArmLate, RespondNew, RespondFailedCreated, RespondFailedClaim, UnmapLate,
      CloseSession, SameTable;
    match a
    case DoRespondNew(answer, x) => NewIsAttached(s, answer, x, sid);
    case DoRespondFailed(answer, x, _) => OwnersFreed(s, answer, x);
    case DoLateUnmap => LateFreed(s);
    case DoClose => LateFreed(s);
    case _ =>
      RouterFramed(s, a);
      assert SameTable(s, RouterNext(s, a)) ==>
          RouterNext(s, a).sessions == s.sessions by { TableIsSame(s, RouterNext(s, a)); }
  }

  lemma TableIsSame(s: State, s': State)
    ensures SameTable(s, s') ==> s'.sessions == s.sessions
  {
  }

  lemma NewIsAttached(s: State, answer: Answer, x: SessionId, sid: SessionId)
    requires Attached(s, sid)
    requires sid in s.sessions ==> s.sessions[sid].state in s.states
    requires forall id :: id in s.states ==> SameAttachment(s, RespondNew(s, answer, x), id)
    ensures Attached(RespondNew(s, answer, x), sid)
  {
    hide Orderly, Created;
  }

  /** Sessions of the later table were there before, with the same state object, and have no
      owner they did not have. */
  predicate OnlyFreed(s: State, s': State) {
    forall x :: x in s'.sessions ==>
      x in s.sessions && s'.sessions[x].state == s.sessions[x].state
      && (s'.sessions[x].channel.Some? ==> s.sessions[x].channel.Some?)
  }

  lemma OwnersFreed(s: State, answer: Answer, x: SessionId)
    ensures OnlyFreed(s, RespondFailedClaim(s, answer, x)) && OnlyFreed(s, RespondFailedCreated(s, answer, x))
  {
    hide SeenTo;
  }

  lemma LateFreed(s: State)
    ensures s.router.LateUnmap? ==> OnlyFreed(s, UnmapLate(s))
    ensures s.router.Close? ==> OnlyFreed(s, CloseSession(s))
  {
  }

  /** From any state in which the session is unmarked and without owner, or with a complete
      delivery to it, over every run that does not discard its mutex in use: whoever owns it at
      the end has a complete delivery. */
  lemma {:induction false} AttachedFromOrder(s: State, actions: seq<Action>, sid: SessionId)
    requires Inv(s) && IsRun(s, actions) && Undisturbed(s, actions, sid) && sid !in s.bypassed && Attached(s, sid)
    ensures Attached(Run(s, actions), sid)
    decreases |actions|
  {
    hide Inv, Can, Next, Attached, MayBypass;
    if actions != [] {
      if sid in Next(s, actions[0]).bypassed { BypassedOnlyWhenInUse(s, actions[0], sid); }
      StepKeeps(s, actions[0]);
      AttachedStep(s, actions[0], sid);
      AttachedFromOrder(Next(s, actions[0]), actions[1..], sid);
    }
  }

  // ---------------------------------------------------------------- logs only grow

  lemma LogStepGrows(s: State, a: Action, id: StateId)
    requires Reachable(s) && Can(s, a) && id in s.states
    ensures id in Next(s, a).states && s.states[id].log <= Next(s, a).states[id].log
  {
    hide Reachable, ChannelCan, ChannelNext, ReaperCan, ReaperNext, RouterCan, RouterNext;
    BuffersShrinkByAckOnly(s, a, id);
    if Prunes(s, a, id) { AckKeepsLog(s, a.c, a.channelStep, id); }
  }

  lemma AckKeepsLog(s: State, c: ChannelId, a: ChannelStep, id: StateId)
    requires ChannelCan(s, c, a) && a.DoAckPrune? && At(s, c).state == id && id in s.states
    ensures id in ChannelNext(s, c, a).states && ChannelNext(s, c, a).states[id].log == s.states[id].log
  {
    hide After;
  }

  lemma {:induction false} LogsOnlyGrow(s: State, actions: seq<Action>, id: StateId)
    requires Reachable(s) && IsRun(s, actions) && id in s.states
    ensures id in Run(s, actions).states && s.states[id].log <= Run(s, actions).states[id].log
    decreases |actions|
  {
    hide Reachable, Can, Next, Leads;
    if actions != [] {
      LogStepGrows(s, actions[0], id);
      OneStep(s, actions[0]);
      ReachableOn(s, Next(s, actions[0]));
      LogsOnlyGrow(Next(s, actions[0]), actions[1..], id);
    }
  }

  // ---------------------------------------------------------------- the loading channel waits

  /** No step of the run is a step of `c`. */
  predicate Spares(actions: seq<Action>, c: ChannelId) {
    forall i :: 0 <= i < |actions| ==> !(actions[i].ByChannel? && actions[i].c == c)
  }

  lemma StepSpares(s: State, a: Action, c: ChannelId)
    requires Can(s, a) && !(a.ByChannel? && a.c == c)
    ensures At(Next(s, a), c) == At(s, c)
  {
    hide ChannelCan, ChannelNext, ReaperCan, ReaperNext, RouterCan, RouterNext;
    match a
    case ByChannel(d, step) =>
      ChannelFramed(s, d, step);
      if step.DoArm? { ArmSpares(s, d, step, c); }
    case ByReaper(n, step) => ReaperFramed(s, n, step);
    case ByRouter(step) =>
      RouterFramed(s, step);
      if step.DoLateArm? { LateArmSpares(s, step, c); }
  }

  lemma ArmSpares(s: State, d: ChannelId, a: ChannelStep, c: ChannelId)
    requires ChannelCan(s, d, a) && a.DoArm? && d != c
    ensures At(ChannelNext(s, d, a), c) == At(s, c)
  {
  }

  lemma LateArmSpares(s: State, a: RouterStep, c: ChannelId)
    requires RouterCan(s, a) && a.DoLateArm?
    ensures At(RouterNext(s, a), c) == At(s, c)
  {
  }

  lemma {:induction false} PcStays(s: State, actions: seq<Action>, c: ChannelId)
    requires IsRun(s, actions) && Spares(actions, c)
    ensures At(Run(s, actions), c) == At(s, c)
    decreases |actions|
  {
    hide Can, Next, At;
    if actions != [] {
      StepSpares(s, actions[0], c);
      PcStays(Next(s, actions[0]), actions[1..], c);
    }
  }

  // ---------------------------------------------------------------- the whole reconnect

  lemma {:induction false} ReceivedLength(queue: seq<Item>, id: StateId)
    ensures |Received(queue, id)| == |Seen(queue, id)|
  {
    if queue != [] { ReceivedLength(queue[..|queue| - 1], id); }
  }

  function Dropped(session: Session): int {
    |session.log| - |session.messageBuffer|
  }

  /** `start` is the log index behind the first entry with that id that is still in the buffer,
      or where the buffer begins if there is none. */
  predicate StartsBehind(session: Session, latestId: string, start: int) {
    var dropped := Dropped(session);
    && 0 <= dropped <= start <= |session.log|
    && (start > dropped ==> session.log[start - 1].id == latestId)
    && (forall i :: dropped <= i < (if start > dropped then start - 1 else |session.log|) ==>
          session.log[i].id != latestId)
  }

  /** There is one such place. */
  lemma OneStart(session: Session, latestId: string, start: int, other: int)
    requires StartsBehind(session, latestId, start) && StartsBehind(session, latestId, other)
    ensures start == other
  {
  }

  /** A notification's id leads right behind it, unless it has been pruned. */
  lemma StartOfNotification(session: Session, j: nat)
    requires IsSuffix(session.messageBuffer, session.log)
             && LogWellFormed(session.log, session.notificationIdCounter)
    requires j < |session.log| && session.log[j].message.Notification?
    ensures StartsBehind(session, session.log[j].id, if Dropped(session) <= j then j + 1 else Dropped(session))
  {
    forall i | 0 <= i < |session.log| && i != j ensures session.log[i].id != session.log[j].id {
      NotificationUnique(session.log, session.notificationIdCounter, i, j);
    }
  }

  lemma ReplayedStarts(session: Session, latestId: string)
    requires IsSuffix(session.messageBuffer, session.log)
    ensures StartsBehind(session, latestId, Replayed(session, latestId))
  {
    var buffer, dropped := session.messageBuffer, Dropped(session);
    assert forall i :: 0 <= i < |buffer| ==> buffer[i] == session.log[dropped + i];
    var p := Position(buffer, latestId);
    assert p < |buffer| ==> session.log[dropped + p] == buffer[p];
    forall i | dropped <= i < dropped + p ensures session.log[i].id != latestId {
      assert session.log[i] == buffer[i - dropped];
    }
  }

  /** `c` is about to replay. */
  ghost predicate AboutToReplay(s: State, c: ChannelId) {
    Reachable(s) && At(s, c).LoadChecked? && At(s, c).state in s.states
  }

  /** The state in which `c` becomes owner after some steps of others, with the exclusion
      intact, and one in which it still is. */
  ghost predicate Reconnects(s: State, c: ChannelId, before: seq<Action>, s2: State, after: seq<Action>, end: State)
    requires At(s, c).LoadChecked?
  {
    var sid, id, s1 := At(s, c).sid, At(s, c).state, Settle(LoadReplay(s, c));
    && IsRun(s1, before) && Spares(before, c) && Run(s1, before) == s2
    && sid in s2.sessions && sid !in s2.bypassed
    && At(s2, c).LoadReplayed?
    && var s3 := Settle(LoadMap(s2, c));
       IsRun(s3, after) && StaysOwned(s3, after, sid, c, id) && Run(s3, after) == end
  }

  /** From a load's replay to any later state in which its channel is still the connected
      owner, whatever the others do in between and whatever `latestId` the client named: since
      the replay began, it has received the log from behind the first buffered entry with that
      id (from the start of the buffer if there is none) to the end, in order and without a
      gap. Only the message that was logged but not routed when it became owner comes twice. */
  lemma ReconnectReplaysTheLog(s: State, c: ChannelId, before: seq<Action>, s2: State, after: seq<Action>, end: State)
      returns (start: nat)
    requires AboutToReplay(s, c) && Reconnects(s, c, before, s2, after, end)
    requires c in end.senders && !Routing(end.router, At(s, c).state, c)
    ensures var id := At(s, c).state;
            id in end.states && id in s2.states && s.states[id].log <= end.states[id].log &&
            var log, n := end.states[id].log, |s2.states[id].log|;
            var base, received := |Received(Queue(s.queues, c), id)|, Received(Queue(end.queues, c), id);
            var again := s2.router.Lookup? && s2.router.state == id;
            && StartsBehind(s.states[id], At(s, c).latestId, start)
            && start <= n <= |log| && base <= |received| && (again ==> n > 0)
            && received[base..] == Messages(log[start..n]) + (if again then [log[n - 1].message] else [])
                 + Messages(log[n..])
  {
    hide Inv, Reachable, Leads, IsRun, Run, LoadReplay, LoadMap, Settle, Received, Messages, StaysOwned, Spares,
      Routing, StartsBehind, Replayed;
    var sid, id := At(s, c).sid, At(s, c).state;
    var s1, s3 := Settle(LoadReplay(s, c)), Settle(LoadMap(s2, c));
    start := Replayed(s.states[id], At(s, c).latestId);
    ReplayBegins(s, c);
    PcStays(s1, before, c);
    ReachableBy(s1, before, s2);
    LogsOnlyGrow(s1, before, id);
    MapAttaches(s2, c);
    ReachableHolds(s3);
    FirstOwned(s3, after, sid, c, id);
    AttachmentKept(s3, after, sid, c, id);
    ReachableBy(s3, after, end);
    LogsOnlyGrow(s3, after, id);
    ReplayHasNoGap(end, sid);
    ReceivedLength(Queue(s.queues, c), id);
  }

  /** A late response that is in the log by then, at the start or later, is among what the
      client has received. */
  lemma LateResponseReachesReconnect(s: State, c: ChannelId, before: seq<Action>, s2: State, after: seq<Action>,
      end: State, k: nat) returns (start: nat)
    requires AboutToReplay(s, c) && Reconnects(s, c, before, s2, after, end)
    requires c in end.senders && !Routing(end.router, At(s, c).state, c)
    requires k < |end.outcomes| && end.outcomes[k].Buffered? && end.outcomes[k].state == At(s, c).state
    ensures StartsBehind(s.states[At(s, c).state], At(s, c).latestId, start)
    ensures var base, received := |Received(Queue(s.queues, c), At(s, c).state)|,
                                  Received(Queue(end.queues, c), At(s, c).state);
            base <= |received| && (end.outcomes[k].index >= start ==> end.outcomes[k].message in received[base..])
  {
    hide Reachable, IsRun, Run, Received, Messages, StaysOwned, Spares, Routing, StartsBehind, Replayed, Settle, Leads;
    var id := At(s, c).state;
    start := ReconnectReplaysTheLog(s, c, before, s2, after, end);
    ReachableEnd(s, c, before, s2, after, end);
    SettledResponseKept(end, k);
    var i := end.outcomes[k].index;
    if i >= start {
      Among(end.states[id].log, start, |s2.states[id].log|,
            if s2.router.Lookup? && s2.router.state == id then [end.states[id].log[|s2.states[id].log| - 1].message]
                else [], i);
    }
  }

  lemma Among(log: seq<BufferedMessage>, start: nat, n: nat, again: seq<JsonRpcMessage>, i: nat)
    requires start <= n <= |log| && start <= i < |log|
    ensures log[i].message in Messages(log[start..n]) + again + Messages(log[n..])
  {
    if i < n {
      assert Messages(log[start..n])[i - start] == log[i].message;
    } else {
      assert Messages(log[n..])[i - n] == log[i].message;
    }
  }

  lemma ReachableEnd(s: State, c: ChannelId, before: seq<Action>, s2: State, after: seq<Action>, end: State)
    requires AboutToReplay(s, c) && Reconnects(s, c, before, s2, after, end)
    ensures Reachable(end)
  {
    hide Reachable, Leads, IsRun, Run, LoadReplay, LoadMap, Settle, StaysOwned, Spares;
    LeadsHere(s);
    ByC(s, s, c, DoLoadReplay);
    ReachableOn(s, Settle(LoadReplay(s, c)));
    ReachableBy(Settle(LoadReplay(s, c)), before, s2);
    LeadsHere(s2);
    ByC(s2, s2, c, DoLoadMap);
    ReachableOn(s2, Settle(LoadMap(s2, c)));
    ReachableBy(Settle(LoadMap(s2, c)), after, end);
  }

  lemma ReachableBy(s: State, actions: seq<Action>, s': State)
    requires Reachable(s) && IsRun(s, actions) && Run(s, actions) == s'
    ensures Reachable(s')
  {
    hide IsRun, Run, Reachable;
    assert Leads(s, s');
    ReachableOn(s, s');
  }

  lemma FirstOwned(s: State, actions: seq<Action>, sid: SessionId, c: ChannelId, id: StateId)
    requires IsRun(s, actions) && StaysOwned(s, actions, sid, c, id)
    ensures OwnedBy(s, sid, c, id)
  {
    hide Next, Can;
  }

  lemma ReplayBegins(s: State, c: ChannelId)
    requires AboutToReplay(s, c)
    ensures var id, s1 := At(s, c).state, Settle(LoadReplay(s, c));
            && Reachable(s1) && At(s1, c).LoadReplayed? && At(s1, c).sid == At(s, c).sid && At(s1, c).state == id
            && At(s1, c).from == Replayed(s.states[id], At(s, c).latestId)
            && StartsBehind(s.states[id], At(s, c).latestId, At(s1, c).from)
            && At(s1, c).base == |Seen(Queue(s.queues, c), id)|
            && id in s1.states && s1.states[id].log == s.states[id].log
  {
    hide Reachable, Leads, Seen, Replay, After, Inv, Replayed, StartsBehind, Settle;
    ReachableHolds(s);
    WellFormed(s, At(s, c).state);
    ReplayedStarts(s.states[At(s, c).state], At(s, c).latestId);
    LeadsHere(s);
    ByC(s, s, c, DoLoadReplay);
    ReachableOn(s, Settle(LoadReplay(s, c)));
  }

  lemma MapAttaches(s: State, c: ChannelId)
    requires Reachable(s) && At(s, c).LoadReplayed? && At(s, c).sid in s.sessions && At(s, c).sid !in s.bypassed
    ensures var pc, s3 := At(s, c), Settle(LoadMap(s, c));
            && Reachable(s3) && pc.state in s.states && s3.states == s.states && s3.queues == s.queues
            && NotLoading(s3, c, pc.sid) && pc.state in s3.attached
            && s3.attached[pc.state] == Attachment(c, pc.base, pc.from, |s.states[pc.state].log|,
                                                   s.router.Lookup? && s.router.state == pc.state)
  {
    hide Reachable, Leads, Inv, Settle;
    ReachableHolds(s);
    Here(s, Channel(c));
    LeadsHere(s);
    ByC(s, s, c, DoLoadMap);
    ReachableOn(s, Settle(LoadMap(s, c)));
  }
}
