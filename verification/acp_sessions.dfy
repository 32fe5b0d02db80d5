/** What single steps of the ACP proxy may do to a session: remove it, extend its log, prune
    its buffer, void its timers, and get past its mutex. */
module AcpSessions {
  import opened Wrappers
  import opened AcpSession
  import opened AcpTable
  import opened AcpProtocol
  import opened AcpInvariant
  import opened AcpMoves
  import opened AcpTheorems
  import opened AcpEffects
  import opened AcpRuns

  // ---------------------------------------------------------------- leaving the table

  /** The step is entitled to remove the session. */
  predicate MayRemove(s: State, a: Action, sid: SessionId) {
    match a
    case ByChannel(_, _) => false
    case ByReaper(n, step) => step.DoStopClose? && ReaperAt(s, n).Stopping? && ReaperAt(s, n).sid == sid
    case ByRouter(step) =>
      || (step.DoClose? && s.router.Close? && s.router.sid == sid)
      || (step.DoRespondFailed? && step.created && step.failedSid == sid
          && UnownedOrOwnedBy(s.sessions, sid, step.failed.channel))
  }

  /** A session leaves the table exactly when its close is answered, when the load that created
      it fails while nobody else owns it, or when the reaper closes it, which it does only
      while nobody owns it. */
  lemma SessionsLeaveTable(s: State, a: Action, sid: SessionId)
    requires Reachable(s) && Can(s, a) && sid in s.sessions
    ensures sid !in Next(s, a).sessions <==> MayRemove(s, a, sid)
    ensures sid !in Next(s, a).sessions && a.ByReaper? && sid !in s.bypassed ==> s.sessions[sid].channel == None
  {
    hide Reachable, ChannelCan, ChannelNext, ReaperCan, ReaperNext, RouterCan, RouterNext, Settle;
    match a
    case ByChannel(c, step) => ChannelKeepsSessions(s, c, step);
    case ByReaper(n, step) =>
      if MayRemove(s, a, sid) { EntitledRemoves(s, a, sid); }
      if sid !in Next(s, a).sessions {
        ReaperRemoves(s, n, step, sid);
        if sid !in s.bypassed { ReaperSparesOwners(s, n); }
      }
    case ByRouter(step) =>
      if MayRemove(s, a, sid) { EntitledRemoves(s, a, sid); }
      if sid !in Next(s, a).sessions { RouterRemoves(s, step, sid); }
  }

  lemma EntitledRemoves(s: State, a: Action, sid: SessionId)
    requires Can(s, a) && MayRemove(s, a, sid)
    ensures sid !in Next(s, a).sessions
  {
    hide StopClose, CloseSession, RespondFailedCreated, Settle;
    match a
    case ByReaper(n, _) => ReaperCloses(s, n);
    case ByRouter(step) =>
      if step.DoClose? { AnswerCloses(s); } else { CreatedTable(s, step.failed, sid); }
  }

  lemma ReaperCloses(s: State, n: nat)
    requires ReaperAt(s, n).Stopping?
    ensures ReaperAt(s, n).sid !in StopClose(s, n).sessions
  {
  }

  lemma AnswerCloses(s: State)
    requires s.router.Close?
    ensures s.router.sid !in CloseSession(s).sessions
  {
  }

  lemma ChannelKeepsSessions(s: State, c: ChannelId, a: ChannelStep)
    requires ChannelCan(s, c, a)
    ensures s.sessions.Keys <= ChannelNext(s, c, a).sessions.Keys
  {
    hide BufferRead, Join, LoadBegin, LoadAcquire, LoadBump, LoadCheck, LoadReplay, LoadFinish, ClaimBegin, ClaimFinish,
      AckBegin, AckCheck, AckPrune, Leave, Arm, Finish, Attach, Created, Unmapped;
    if !a.DoLoadMap? && !a.DoClaim? && !a.DoUnmap? { ChannelFramed(s, c, a); }
  }

  lemma ReaperRemoves(s: State, n: nat, a: ReaperStep, sid: SessionId)
    requires ReaperCan(s, n, a) && sid in s.sessions && sid !in ReaperNext(s, n, a).sessions
    ensures a.DoStopClose? && ReaperAt(s, n).Stopping? && ReaperAt(s, n).sid == sid
  {
    hide Wake, Probe, TakeLock, StopCheck, StopCancel, Discard;
    if !a.DoStopClose? { ReaperFramed(s, n, a); }
  }

  lemma RouterRemoves(s: State, a: RouterStep, sid: SessionId)
    requires RouterCan(s, a) && sid in s.sessions && sid !in RouterNext(s, a).sessions
    ensures MayRemove(s, ByRouter(a), sid)
  {
    hide BufferRead, Receive, AppendMessage, LookupOwner, PushMessage, LockDrop, DeliverAnswer, OwnerLate, PushLate,
      FindLate, LockClose, SenderCheck, ArmLate, RespondNew, RespondFailedCreated, RespondFailedClaim, UnmapLate,
      CloseSession;
    match a
    case DoRespondNew(answer, new_) => NewKeeps(s, answer, new_);
    case DoRespondFailed(answer, failed, created) => FailedRemoves(s, answer, failed, sid);
    case DoLateUnmap => LateKeeps(s);
    case DoClose => CloseRemoves(s, sid);
    case _ => RouterFramed(s, a);
  }

  lemma NewKeeps(s: State, answer: Answer, new_: SessionId)
    ensures s.sessions.Keys <= RespondNew(s, answer, new_).sessions.Keys
  {
    hide Bypass, Created;
  }

  lemma FailedRemoves(s: State, answer: Answer, failed: SessionId, sid: SessionId)
    requires sid in s.sessions
    ensures sid in RespondFailedClaim(s, answer, failed).sessions
    ensures sid in RespondFailedCreated(s, answer, failed).sessions
            || (sid == failed && UnownedOrOwnedBy(s.sessions, sid, answer.channel))
  {
    hide Remove, RespondFailedCreated, RespondFailedClaim, UnmapIfOwnedBy, UnownedOrOwnedBy;
    ReleaseKeeps(s.sessions, failed, answer.channel);
    assert sid in UnmapIfOwnedBy(s.sessions, failed, answer.channel);
    ClaimTable(s, answer, failed);
    CreatedTable(s, answer, failed);
  }

  lemma ReleaseKeeps<S>(table: Table<S>, sid: SessionId, c: ChannelId)
    ensures UnmapIfOwnedBy(table, sid, c).Keys == table.Keys
    ensures !Owns(table, sid, c) ==> UnmapIfOwnedBy(table, sid, c) == table
  {
  }

  lemma ClaimTable(s: State, answer: Answer, failed: SessionId)
    ensures RespondFailedClaim(s, answer, failed).sessions == UnmapIfOwnedBy(s.sessions, failed, answer.channel)
  {
    hide UnmapIfOwnedBy;
    ReleaseKeeps(s.sessions, failed, answer.channel);
  }

  lemma CreatedTable(s: State, answer: Answer, failed: SessionId)
    ensures RespondFailedCreated(s, answer, failed).sessions ==
              if UnownedOrOwnedBy(s.sessions, failed, answer.channel) then Remove(s.sessions, failed) else s.sessions
  {
    hide Remove, UnownedOrOwnedBy;
  }

  lemma LateKeeps(s: State)
    requires s.router.LateUnmap?
    ensures s.sessions.Keys == UnmapLate(s).sessions.Keys
  {
  }

  lemma CloseRemoves(s: State, sid: SessionId)
    requires s.router.Close? && sid in s.sessions
    ensures sid in CloseSession(s).sessions || sid == s.router.sid
  {
  }

  // ---------------------------------------------------------------- mutex entries

  /** A load, a claim or a stopping reaper asks for the session's mutex. */
  predicate Asks(s: State, a: Action, sid: SessionId) {
    match a
    case ByChannel(_, step) =>
      (step.DoLoadBegin? && step.loadSid == sid) || (step.DoClaimBegin? && step.claimSid == sid)
    case ByReaper(n, step) => step.DoTakeLock? && ReaperAt(s, n).Matched? && ReaperAt(s, n).sid == sid
    case ByRouter(_) => false
  }

  /** A session has been removed, and its mutex entry goes next. */
  predicate Discards(s: State, a: Action, sid: SessionId) {
    match a
    case ByChannel(_, _) => false
    case ByReaper(n, step) => step.DoDiscard? && ReaperAt(s, n).Discarding? && ReaperAt(s, n).sid == sid
    case ByRouter(step) =>
      || (step.DoDropLock? && s.router.DropLock? && s.router.sid == sid)
      || (step.DoCloseLock? && s.router.CloseLock? && s.router.sid == sid)
  }

  /** A session's mutex stays the registered one until it is discarded: an entry is made exactly
      when somebody asks for it and there is none, and taken away exactly by a discard. */
  lemma MutexStaysUntilDiscarded(s: State, a: Action, sid: SessionId)
    requires Can(s, a)
    ensures sid in s.locks && sid in Next(s, a).locks ==> Next(s, a).locks[sid] == s.locks[sid]
    ensures sid in s.locks ==> (sid !in Next(s, a).locks <==> Discards(s, a, sid))
    ensures sid !in s.locks ==> (sid in Next(s, a).locks <==> Asks(s, a, sid))
  {
    hide ChannelCan, ChannelNext, ReaperCan, ReaperNext, RouterCan, RouterNext, Settle;
    match a
    case ByChannel(c, step) => ChannelLocks(s, c, step, sid);
    case ByReaper(n, step) => ReaperLocks(s, n, step, sid);
    case ByRouter(step) => RouterLocks(s, step, sid);
  }

  lemma ChannelLocks(s: State, c: ChannelId, a: ChannelStep, sid: SessionId)
    requires ChannelCan(s, c, a)
    ensures var locks := ChannelNext(s, c, a).locks;
            if Asks(s, ByChannel(c, a), sid) then sid in locks && (sid in s.locks ==> locks[sid] == s.locks[sid])
            else (sid in locks <==> sid in s.locks) && (sid in s.locks ==> locks[sid] == s.locks[sid])
  {
    hide BufferRead, Attach, Created, Replay, Replayed, After, Seen, Send, Unmapped, Remove;
  }

  lemma ReaperLocks(s: State, n: nat, a: ReaperStep, sid: SessionId)
    requires ReaperCan(s, n, a)
    ensures var locks := ReaperNext(s, n, a).locks;
            && (sid in s.locks && sid in locks ==> locks[sid] == s.locks[sid])
            && (sid in s.locks ==> (sid !in locks <==> Discards(s, ByReaper(n, a), sid)))
            && (sid !in s.locks ==> (sid in locks <==> Asks(s, ByReaper(n, a), sid)))
  {
    hide Bypass;
  }

  lemma RouterLocks(s: State, a: RouterStep, sid: SessionId)
    requires RouterCan(s, a)
    ensures var locks := RouterNext(s, a).locks;
            && (sid in s.locks && sid in locks ==> locks[sid] == s.locks[sid])
            && (sid in s.locks ==> (sid !in locks <==> Discards(s, ByRouter(a), sid)))
            && (sid !in s.locks ==> sid !in locks)
  {
    if a.DoDropLock? || a.DoCloseLock? {
      hide LockDrop, LockClose;
      DiscardLocks(s);
    } else {
      hide RouterCan, RouterNext;
      OtherLocks(s, a);
    }
  }

  lemma OtherLocks(s: State, a: RouterStep)
    requires RouterCan(s, a) && !a.DoDropLock? && !a.DoCloseLock?
    ensures RouterNext(s, a).locks == s.locks
  {
    hide BufferRead, Receive, AppendMessage, LookupOwner, PushMessage, DeliverAnswer, OwnerLate, PushLate, FindLate,
      SenderCheck, ArmLate, UnmapLate, RespondNew, RespondFailedClaim, RespondFailedCreated, CloseSession, LockDrop,
      LockClose;
    match a
    case DoReceive(x, message) => ReceiveLocks(s, x, message);
    case DoRespondNew(answer, x) => NewLocks(s, answer, x);
    case DoRespondFailed(answer, x, _) => FailedLocks(s, answer, x);
    case DoLateArm(n) => ArmLocks(s, n);
    case DoDeliver => DeliveryLocks(s);
    case DoLatePush => DeliveryLocks(s);
    case DoLateOwner => SearchLocks(s);
    case DoLateFind => SearchLocks(s);
    case DoCheckSender => SessionLocks(s);
    case DoLateUnmap => SessionLocks(s);
    case DoClose => SessionLocks(s);
    case _ => MessageLocks(s);
  }

  lemma ReceiveLocks(s: State, sid: SessionId, message: JsonRpcMessage)
    ensures Receive(s, sid, message).locks == s.locks
  {
  }

  lemma NewLocks(s: State, answer: Answer, sid: SessionId)
    ensures RespondNew(s, answer, sid).locks == s.locks
  {
    hide Orderly, Created;
  }

  lemma FailedLocks(s: State, answer: Answer, sid: SessionId)
    ensures RespondFailedClaim(s, answer, sid).locks == s.locks
    ensures RespondFailedCreated(s, answer, sid).locks == s.locks
  {
    hide SeenTo;
  }

  lemma ArmLocks(s: State, n: nat)
    requires s.router.LateArm?
    ensures ArmLate(s, n).locks == s.locks
  {
  }

  lemma MessageLocks(s: State)
    ensures s.router.Append? ==> AppendMessage(s).locks == s.locks
    ensures s.router.Lookup? ==> LookupOwner(s).locks == s.locks
    ensures s.router.Push? ==> PushMessage(s).locks == s.locks
  {
    hide Appended, Labelled, StateOf, Send, Forwarded, SessionChannel;
  }

  lemma SessionLocks(s: State)
    ensures s.router.CheckSender? ==> SenderCheck(s).locks == s.locks
    ensures s.router.LateUnmap? ==> UnmapLate(s).locks == s.locks
    ensures s.router.Close? ==> CloseSession(s).locks == s.locks
  {
    hide Remove, UnmapIfOwnedBy, Owns;
  }

  lemma DeliveryLocks(s: State)
    ensures s.router.Deliver? ==> DeliverAnswer(s).locks == s.locks
    ensures s.router.LatePush? ==> PushLate(s).locks == s.locks
  {
    hide Send, Forwarded;
  }

  lemma SearchLocks(s: State)
    ensures s.router.LateOwner? ==> OwnerLate(s).locks == s.locks
    ensures s.router.LateFind? ==> FindLate(s).locks == s.locks
  {
  }

  lemma DiscardLocks(s: State)
    ensures s.router.DropLock? ==> LockDrop(s).locks == Remove(s.locks, s.router.sid)
    ensures s.router.CloseLock? ==> LockClose(s).locks == Remove(s.locks, s.router.sid)
  {
    hide Bypass;
  }

  // ---------------------------------------------------------------- log and buffer

  /** What one step can do to a state object's log and buffer. */
  ghost predicate BufferMoves(s: State, s': State, id: StateId) {
    && id in s.states && id in s'.states
    && var was, now := s.states[id], s'.states[id];
       || (now.log == was.log && now.messageBuffer == was.messageBuffer)
       || (exists entry :: now.log == was.log + [entry] && now.messageBuffer == was.messageBuffer + [entry])
  }

  predicate Prunes(s: State, a: Action, id: StateId) {
    a.ByChannel? && a.channelStep.DoAckPrune? && At(s, a.c).AckOwned? && At(s, a.c).state == id
  }

  /** Nothing is ever taken out of a log, and out of a buffer only by the acknowledgement of
      a channel that was found to own the session. */
  lemma BuffersShrinkByAckOnly(s: State, a: Action, id: StateId)
    requires Reachable(s) && Can(s, a) && id in s.states
    ensures Prunes(s, a, id) || BufferMoves(s, Next(s, a), id)
  {
    hide Reachable, ChannelCan, ChannelNext, ReaperCan, ReaperNext, RouterCan, RouterNext, Inv;
    ReachableHolds(s);
    FreshState(s);
    match a
    case ByChannel(c, step) => ChannelBuffers(s, c, step, id);
    case ByReaper(n, step) => ReaperBuffers(s, n, step, id);
    case ByRouter(step) => RouterBuffers(s, step, id);
  }

  lemma ChannelBuffers(s: State, c: ChannelId, a: ChannelStep, id: StateId)
    requires ChannelCan(s, c, a) && id in s.states && s.nextState !in s.states
    ensures Prunes(s, ByChannel(c, a), id) || BufferMoves(s, ChannelNext(s, c, a), id)
  {
    hide BufferRead, Join, LoadBegin, LoadAcquire, LoadCheck, LoadMap, LoadFinish, ClaimBegin, ClaimFinish, AckBegin,
      AckCheck, Leave, Unmap, Arm, Finish, Send, Replay, Attach, Created, MapChannel, Replayed, After;
    ChannelFramed(s, c, a);
  }

  lemma ReaperBuffers(s: State, n: nat, a: ReaperStep, id: StateId)
    requires ReaperCan(s, n, a) && id in s.states
    ensures BufferMoves(s, ReaperNext(s, n, a), id)
  {
    hide Wake, Probe, TakeLock, StopCheck, StopClose, Discard;
    ReaperFramed(s, n, a);
  }

  lemma RouterBuffers(s: State, a: RouterStep, id: StateId)
    requires RouterCan(s, a) && id in s.states && s.nextState !in s.states
    ensures BufferMoves(s, RouterNext(s, a), id)
  {
    hide BufferRead, Receive, LookupOwner, PushMessage, RespondFailedCreated, RespondFailedClaim, SenderCheck,
      UnmapLate, ArmLate, LockDrop, DeliverAnswer, OwnerLate, PushLate, FindLate, CloseSession, LockClose, Bypass,
      Created, Labelled;
    RouterFramed(s, a);
  }

  /** Acknowledging the notification at log index `j` keeps exactly what follows it, or what
      had been kept already. */
  lemma AckPrunesToLatest(s: State, c: ChannelId, j: nat)
    requires Reachable(s) && At(s, c).AckOwned? && At(s, c).state in s.states
    requires var log := s.states[At(s, c).state].log;
             j < |log| && log[j].message.Notification? && log[j].id == At(s, c).latestId
    ensures var session, pruned := s.states[At(s, c).state], AckPrune(s, c).states[At(s, c).state];
            var dropped := |session.log| - |session.messageBuffer|;
            && dropped >= 0 && pruned.log == session.log
            && pruned.messageBuffer == session.log[(if dropped <= j then j + 1 else dropped)..]
  {
    hide Inv, Reachable;
    ReachableHolds(s);
    var session := s.states[At(s, c).state];
    WellFormed(s, At(s, c).state);
    ReplayRefinesLog(session.log, session.notificationIdCounter, |session.log| - |session.messageBuffer|, j);
  }

  // ---------------------------------------------------------------- timers

  lemma {:induction false} CountersOnlyGrow(s: State, actions: seq<Action>, id: StateId)
    requires Inv(s) && IsRun(s, actions) && id in s.states
    ensures id in Run(s, actions).states && s.states[id].cancelCounter <= Run(s, actions).states[id].cancelCounter
    decreases |actions|
  {
    hide Inv, Can, Next;
    if actions != [] {
      StepKeeps(s, actions[0]);
      StepGrows(s, actions[0]);
      CountersOnlyGrow(Next(s, actions[0]), actions[1..], id);
    }
  }

  lemma StepGrows(s: State, a: Action)
    requires Inv(s) && Can(s, a)
    ensures CountersGrow(s, Next(s, a))
  {
    hide Inv, ChannelCan, ChannelNext, ReaperCan, ReaperNext, RouterCan, RouterNext;
    FreshState(s);
    match a
    case ByChannel(c, step) => ChannelCounters(s, c, step);
    case ByReaper(n, step) => ReaperCounters(s, n, step);
    case ByRouter(step) => RouterCounters(s, step);
  }

  /** A timer armed with a session's counter is still pending when, any number of steps
      later, a load has found the session. Once the load has bumped the counter the timer
      never stops that session, whatever happens after. */
  lemma LoadVoidsTimer(s: State, before: seq<Action>, c: ChannelId, n: nat, sid: SessionId, id: StateId,
      after: seq<Action>)
    requires Inv(s) && Reaper(n) in s.tasks && id in s.states
             && s.tasks[Reaper(n)] == Armed(sid, s.states[id].cancelCounter)
    requires IsRun(s, before) && At(Run(s, before), c).LoadFound? && At(Run(s, before), c).state == id
    requires ReaperAt(Run(s, before), n) == Armed(sid, s.states[id].cancelCounter)
             || ReaperAt(Run(s, before), n) == Probing(sid, s.states[id].cancelCounter)
    requires IsRun(Settle(LoadBump(Run(s, before), c)), after)
    ensures NotMatched(Run(Settle(LoadBump(Run(s, before), c)), after), n, sid, s.states[id].cancelCounter, id)
  {
    hide Inv, IsRun, Run, Settle;
    var found := Run(s, before);
    RunKeeps(s, before);
    CountersOnlyGrow(s, before, id);
    var bumped := Settle(LoadBump(found, c));
    assert Can(found, ByChannel(c, DoLoadBump)) && Next(found, ByChannel(c, DoLoadBump)) == bumped;
    StepKeeps(found, ByChannel(c, DoLoadBump));
    TimerVoidAfterLoad(bumped, after, n, sid, s.states[id].cancelCounter, id);
  }

  // ---------------------------------------------------------------- bypassed exclusion

  /** The step discards or ignores a mutex that somebody else holds or waits for. */
  ghost predicate MayBypass(s: State, a: Action, sid: SessionId) {
    match a
    case ByChannel(_, _) => false
    case ByReaper(n, step) => step.DoDiscard? && ReaperAt(s, n).Discarding? && ReaperAt(s, n).sid == sid
        && Contended(s.tasks, sid, Some(Reaper(n)))
    case ByRouter(step) =>
      || (step.DoRespondNew? && step.newSid == sid && sid !in s.sessions && !Orderly(s, sid))
      || (step.DoDropLock? && s.router.DropLock? && s.router.sid == sid && Contended(s.tasks, sid, None))
      || (step.DoCloseLock? && s.router.CloseLock? && s.router.sid == sid && Contended(s.tasks, sid, None))
  }

  /** The exclusion of a session is bypassed only when its mutex entry is discarded while
      somebody else is at it, or when an answer of the agent creates the session while somebody
      is past a mutex of it or at another than the registered one. */
  lemma BypassedOnlyWhenInUse(s: State, a: Action, sid: SessionId)
    requires Can(s, a) && sid !in s.bypassed && sid in Next(s, a).bypassed
    ensures MayBypass(s, a, sid)
  {
    hide ChannelCan, ChannelNext, ReaperCan, ReaperNext, RouterCan, RouterNext, MayBypass;
    match a
    case ByChannel(c, step) => ChannelBypasses(s, c, step);
    case ByReaper(n, step) => ReaperBypasses(s, n, step, sid);
    case ByRouter(step) => RouterBypasses(s, step, sid);
  }

  lemma ChannelBypasses(s: State, c: ChannelId, a: ChannelStep)
    requires ChannelCan(s, c, a)
    ensures ChannelNext(s, c, a).bypassed <= s.bypassed
  {
    hide BufferRead, Orderly, Attach, Created, Replay, Replayed, After, Seen, Send, Unmapped, LockOf, NextLock;
  }

  lemma ReaperBypasses(s: State, n: nat, a: ReaperStep, sid: SessionId)
    requires ReaperCan(s, n, a) && sid !in s.bypassed && sid in ReaperNext(s, n, a).bypassed
    ensures MayBypass(s, ByReaper(n, a), sid)
  {
    hide Contended, LockOf, NextLock;
  }

  lemma RouterBypasses(s: State, a: RouterStep, sid: SessionId)
    requires RouterCan(s, a) && sid !in s.bypassed && sid in RouterNext(s, a).bypassed
    ensures MayBypass(s, ByRouter(a), sid)
  {
    hide BufferRead, Contended, Orderly, Created, Receive, AppendMessage, LookupOwner, PushMessage, DeliverAnswer,
      OwnerLate, PushLate, FindLate, SenderCheck, ArmLate, UnmapLate, RespondFailedClaim, RespondFailedCreated,
      CloseSession;
  }

  /** Nobody is past a mutex of the session or waits for another than the registered one, and
      the router is not about to push one of its messages. */
  predicate InOrder(s: State, sid: SessionId) {
    Orderly(s, sid) && !Pushing(s.router, sid)
  }

  lemma {:induction false} MarksAreCurrent(s: State, actions: seq<Action>, sid: SessionId)
    requires IsRun(s, actions) && (sid in s.bypassed ==> !InOrder(s, sid))
    ensures sid in Run(s, actions).bypassed ==> !InOrder(Run(s, actions), sid)
    decreases |actions|
  {
    hide Can, Taken, InOrder, Settle;
    if actions != [] {
      SettleMarks(Taken(s, actions[0]), sid);
      MarksAreCurrent(Next(s, actions[0]), actions[1..], sid);
    }
  }

  lemma SettleMarks(s: State, sid: SessionId)
    ensures sid in Settle(s).bypassed ==> !InOrder(Settle(s), sid)
  {
  }

  /** No step of the run discards a mutex of the session in use or ignores one. */
  ghost predicate Undisturbed(s: State, actions: seq<Action>, sid: SessionId)
    requires IsRun(s, actions)
    decreases |actions|
  {
    actions == [] || (!MayBypass(s, actions[0], sid) && Undisturbed(Next(s, actions[0]), actions[1..], sid))
  }

  lemma {:induction false} StaysUnmarked(s: State, actions: seq<Action>, sid: SessionId)
    requires IsRun(s, actions) && Undisturbed(s, actions, sid) && sid !in s.bypassed
    ensures sid !in Run(s, actions).bypassed
    decreases |actions|
  {
    hide Can, Next, MayBypass;
    if actions != [] {
      if sid in Next(s, actions[0]).bypassed { BypassedOnlyWhenInUse(s, actions[0], sid); }
      StaysUnmarked(Next(s, actions[0]), actions[1..], sid);
    }
  }

  /** From any state in which the session is in order, over every run that does not discard its
      mutex in use: at most one task is past the mutex, loads past their check and stopping
      reapers have the session without owner, and no step passes it from owner to owner. */
  lemma ExclusionFromOrder(s: State, actions: seq<Action>, sid: SessionId, t: Task, u: Task, a: Action)
    requires Reachable(s) && InOrder(s, sid) && IsRun(s, actions) && Undisturbed(s, actions, sid)
    ensures var end := Run(s, actions);
            && (t in end.tasks && u in end.tasks && PastMutex(end.tasks[t], sid) && PastMutex(end.tasks[u], sid) ==>
                  t == u)
            && (t in end.tasks && PastCheck(end.tasks[t], sid) ==> SessionChannel(end.sessions, sid) == None)
            && (Can(end, a) ==> ThroughNone(end, Next(end, a), sid))
  {
    hide Reachable, Inv, IsRun, Run, Undisturbed, InOrder, Can, Next, ThroughNone, Leads;
    var start :| IsRun(INIT, start) && Run(INIT, start) == s by { ReachedBy(s); }
    MarksAreCurrent(INIT, start, sid);
    StaysUnmarked(s, actions, sid);
    assert Leads(s, Run(s, actions)) by { LeadsBy(s, actions); }
    ReachableOn(s, Run(s, actions));
    var end := Run(s, actions);
    ReachableHolds(end);
    if t in end.tasks { Here(end, t); }
    if t in end.tasks && u in end.tasks && PastMutex(end.tasks[t], sid) && PastMutex(end.tasks[u], sid) {
      MutualExclusion(end, t, u);
    }
    if Can(end, a) { OwnersChangeThroughNone(end, a, sid); }
  }

  predicate PastMutex(pc: Pc, sid: SessionId) {
    Ref(pc).Has? && Ref(pc).sid == sid
  }

  /** A load past its check that the session has no owner, or a reaper past its own. */
  predicate PastCheck(pc: Pc, sid: SessionId) {
    (pc.LoadChecked? || pc.LoadReplayed? || pc.Stopping?) && pc.sid == sid
  }

  lemma ReachedBy(s: State)
    requires Reachable(s)
    ensures exists start :: IsRun(INIT, start) && Run(INIT, start) == s
  {
    hide IsRun, Run;
  }

  lemma LeadsBy(s: State, actions: seq<Action>)
    requires IsRun(s, actions)
    ensures Leads(s, Run(s, actions))
  {
    hide IsRun, Run;
  }
}
