/** Sessions of the ACP proxy without owner, among them those whose claim is released because
    the agent failed the load: which of them does a reaper get to? */
module AcpReleased {
  import opened Wrappers
  import opened AcpSession
  import opened AcpTable
  import opened AcpProtocol
  import opened AcpLocks
  import opened AcpInvariant
  import opened AcpMoves
  import opened AcpTheorems
  import opened AcpEffects
  import opened AcpRuns

  /** The task sees to the session, or is a reaper past its test for an earlier session of
      that name, which stops whatever it finds. */
  predicate Sees(pc: Pc, sid: SessionId, id: StateId, counter: nat) {
    Covers(pc, sid, id, counter) || ((pc.Matched? || pc.StopWait? || pc.Stopping?) && pc.sid == sid)
  }

  ghost predicate Attended(s: State, sid: SessionId, id: StateId) {
    || LateArming(s.router, sid)
    || exists t :: t in s.tasks && Sees(s.tasks[t], sid, id, StateOf(s.states, id).cancelCounter)
  }

  /** The session is in the table, nobody owns it and nobody sees to it. */
  ghost predicate Forgotten(s: State, sid: SessionId, id: StateId) {
    sid in s.sessions && s.sessions[sid] == SessionEntry(id, None) && id in s.states && !Attended(s, sid, id)
  }

  /** The step belongs to a load or claim of the session, to its close, or to the failure of
      a load that created it. */
  predicate Touches(s: State, a: Action, sid: SessionId) {
    match a
    case ByChannel(c, step) =>
      var pc := At(s, c);
      || (step.DoLoadAcquire? && pc.LoadWait? && pc.sid == sid)
      || (step.DoLoadBump? && pc.LoadFound? && pc.sid == sid)
      || (step.DoLoadCheck? && pc.LoadBumped? && pc.sid == sid)
      || (step.DoLoadReplay? && pc.LoadChecked? && pc.sid == sid)
      || (step.DoLoadMap? && pc.LoadReplayed? && pc.sid == sid)
      || (step.DoClaim? && pc.ClaimWait? && pc.sid == sid)
    case ByReaper(_, _) => false
    case ByRouter(step) =>
      || (step.DoClose? && s.router.Close? && s.router.sid == sid)
      || (step.DoRespondFailed? && step.created && step.failedSid == sid)
  }

  // ---------------------------------------------------------------- steps

  /** Entry, counter and flag of the session are as before. */
  ghost predicate SameSession(s: State, s': State, sid: SessionId, id: StateId) {
    && sid in s.sessions && sid in s'.sessions && s'.sessions[sid] == s.sessions[sid]
    && id in s.states && id in s'.states && s'.states[id].cancelCounter == s.states[id].cancelCounter
         && s'.states[id].cancelled == s.states[id].cancelled
  }

  lemma ForgottenStep(s: State, a: Action, sid: SessionId, id: StateId)
    requires Inv(s) && Can(s, a) && Forgotten(s, sid, id) && !Touches(s, a, sid)
    ensures Forgotten(Next(s, a), sid, id) && SameSession(s, Next(s, a), sid, id)
  {
    hide Inv, ChannelCan, ChannelNext, ReaperCan, ReaperNext, RouterCan, RouterNext, Sees, Touches;
    FreshState(s);
    match a
    case ByChannel(c, step) =>
      ChannelFramed(s, c, step);
      ChannelForgets(s, c, step, sid, id);
      ChannelPasses(s, c, step, sid, id);
    case ByReaper(n, step) =>
      ReaperFramed(s, n, step);
      ReaperForgets(s, n, step, sid, id);
    case ByRouter(step) =>
      RouterForgets(s, step, sid, id);
      RouterPasses(s, step, sid, id);
  }

  lemma ChannelForgets(s: State, c: ChannelId, a: ChannelStep, sid: SessionId, id: StateId)
    requires Inv(s) && ChannelCan(s, c, a) && Forgotten(s, sid, id) && !Touches(s, ByChannel(c, a), sid)
             && s.nextState !in s.states
    ensures SameSession(s, ChannelNext(s, c, a), sid, id)
  {
    hide Inv, Attended, BufferRead, LoadBump, LoadReplay, Attach, Created, After, Seen, Send, Unmapped, LockOf,
      NextLock;
    There(s, sid);
    if a.DoLoadBump? || a.DoLoadReplay? { ObjectForgets(s, c, sid, id); }
  }

  lemma ObjectForgets(s: State, c: ChannelId, sid: SessionId, id: StateId)
    requires Inv(s) && Forgotten(s, sid, id) && s.states[id].id == sid
    ensures At(s, c).LoadFound? && At(s, c).sid != sid ==> SameSession(s, LoadBump(s, c), sid, id)
    ensures At(s, c).LoadChecked? && At(s, c).sid != sid ==> SameSession(s, LoadReplay(s, c), sid, id)
  {
    hide Inv, Attended, Replay, Replayed, After, Seen, Send;
    if At(s, c).LoadFound? || At(s, c).LoadChecked? { Here(s, Channel(c)); }
  }

  predicate Loading(a: ChannelStep) {
    a.DoLoadAcquire? || a.DoLoadBump? || a.DoLoadCheck? || a.DoLoadReplay? || a.DoLoadMap? || a.DoLoadFinish?
  }

  /** What the channel does next does not see to the session. */
  lemma ChannelPasses(s: State, c: ChannelId, a: ChannelStep, sid: SessionId, id: StateId)
    requires ChannelCan(s, c, a) && Forgotten(s, sid, id) && !Touches(s, ByChannel(c, a), sid)
    ensures var s' := ChannelNext(s, c, a);
            forall t :: t in s'.tasks ==> !Sees(s'.tasks[t], sid, id, s.states[id].cancelCounter)
  {
    hide BufferRead, Send, Unmap, Arm, Claim, Leave, LoadAcquire, LoadBump, LoadCheck, LoadReplay, LoadMap, LoadFinish;
    if Loading(a) {
      hide ChannelCan, ChannelNext, Touches, Forgotten;
      LoadingPasses(s, c, a, sid, id);
    } else if a.DoUnmap? {
      UnmapPasses(s, c, sid, id);
    } else if a.DoArm? {
      ArmPasses(s, c, a.timer, a.n, sid, id);
    } else if a.DoClaim? || a.DoLeave? {
      EndPasses(s, c, sid, id);
    }
  }

  lemma LoadingPasses(s: State, c: ChannelId, a: ChannelStep, sid: SessionId, id: StateId)
    requires ChannelCan(s, c, a) && Forgotten(s, sid, id) && !Touches(s, ByChannel(c, a), sid) && Loading(a)
    ensures var s' := ChannelNext(s, c, a);
            forall t :: t in s'.tasks ==> !Sees(s'.tasks[t], sid, id, s.states[id].cancelCounter)
  {
    hide Attach, Replay, Replayed, After, Seen, Send;
  }

  lemma EndPasses(s: State, c: ChannelId, sid: SessionId, id: StateId)
    requires Forgotten(s, sid, id)
    ensures ChannelCan(s, c, DoClaim) ==>
              forall t :: t in Claim(s, c).tasks ==> !Sees(Claim(s, c).tasks[t], sid, id, s.states[id].cancelCounter)
    ensures ChannelCan(s, c, DoLeave) ==>
              forall t :: t in Leave(s, c).tasks ==> !Sees(Leave(s, c).tasks[t], sid, id, s.states[id].cancelCounter)
  {
    hide Orderly, Attach, Created, Unmapped;
  }

  lemma ArmPasses(s: State, c: ChannelId, timer: (SessionId, nat), n: nat, sid: SessionId, id: StateId)
    requires ChannelCan(s, c, DoArm(timer, n)) && Forgotten(s, sid, id)
    ensures forall t :: t in Arm(s, c, timer, n).tasks ==>
            !Sees(Arm(s, c, timer, n).tasks[t], sid, id, s.states[id].cancelCounter)
  {
    assert !Sees(At(s, c), sid, id, s.states[id].cancelCounter);
  }

  lemma UnmapPasses(s: State, c: ChannelId, sid: SessionId, id: StateId)
    requires Forgotten(s, sid, id)
    ensures forall t :: t in Unmap(s, c).tasks ==> !Sees(Unmap(s, c).tasks[t], sid, id, s.states[id].cancelCounter)
  {
  }

  lemma ReaperForgets(s: State, n: nat, a: ReaperStep, sid: SessionId, id: StateId)
    requires Inv(s) && ReaperCan(s, n, a) && Forgotten(s, sid, id)
    ensures SameSession(s, ReaperNext(s, n, a), sid, id)
    ensures !Sees(ReaperAt(ReaperNext(s, n, a), n), sid, id, s.states[id].cancelCounter)
  {
    hide Inv, LockOf, NextLock, Discard, StopCancel, StopClose;
    assert !Sees(ReaperAt(s, n), sid, id, s.states[id].cancelCounter);
    There(s, sid);
    if a.DoStopCancel? || a.DoStopClose? || a.DoDiscard? {
      hide ReaperCan, ReaperNext, Forgotten, Sees, Attended;
      if a.DoStopCancel? { CancelForgets(s, n, sid, id); } else { CloseForgets(s, n, a, sid, id); }
    }
  }

  lemma CloseForgets(s: State, n: nat, a: ReaperStep, sid: SessionId, id: StateId)
    requires ReaperCan(s, n, a) && (a.DoStopClose? || a.DoDiscard?) && Forgotten(s, sid, id)
    ensures SameSession(s, ReaperNext(s, n, a), sid, id)
    ensures !Sees(ReaperAt(ReaperNext(s, n, a), n), sid, id, s.states[id].cancelCounter)
  {
    hide Bypass;
    assert !Sees(ReaperAt(s, n), sid, id, s.states[id].cancelCounter);
  }

  lemma CancelForgets(s: State, n: nat, sid: SessionId, id: StateId)
    requires Inv(s) && ReaperCan(s, n, DoStopCancel) && Forgotten(s, sid, id) && s.states[id].id == sid
    ensures SameSession(s, ReaperNext(s, n, DoStopCancel), sid, id)
    ensures !Sees(ReaperAt(ReaperNext(s, n, DoStopCancel), n), sid, id, s.states[id].cancelCounter)
  {
    hide Inv;
    assert !Sees(ReaperAt(s, n), sid, id, s.states[id].cancelCounter);
    Here(s, Reaper(n));
  }

  lemma RouterForgets(s: State, a: RouterStep, sid: SessionId, id: StateId)
    requires RouterCan(s, a) && Forgotten(s, sid, id) && !Touches(s, ByRouter(a), sid) && s.nextState !in s.states
    ensures SameSession(s, RouterNext(s, a), sid, id)
  {
    hide Attended, BufferRead, Receive, AppendMessage, LookupOwner, PushMessage, LockDrop, DeliverAnswer, OwnerLate,
      PushLate, FindLate, LockClose, SenderCheck, ArmLate, RespondNew, RespondFailedCreated, RespondFailedClaim,
      UnmapLate, CloseSession;
    match a
    case DoAppend => AppendForgets(s, sid, id);
    case DoRespondNew(answer, x) => NewForgets(s, answer, x, sid, id);
    case DoRespondFailed(answer, x, created) => if created { CreatedForgets(s, answer, x, sid, id); }
        else { ClaimForgets(s, answer, x, sid, id); }
    case DoLateUnmap => LateForgets(s, sid, id);
    case DoClose => LateForgets(s, sid, id);
    case _ => RouterFramed(s, a);
  }

  lemma AppendForgets(s: State, sid: SessionId, id: StateId)
    requires s.router.Append? && Forgotten(s, sid, id)
    ensures SameSession(s, AppendMessage(s), sid, id)
  {
    hide Attended, Labelled;
  }

  lemma NewForgets(s: State, answer: Answer, x: SessionId, sid: SessionId, id: StateId)
    requires Forgotten(s, sid, id) && s.nextState !in s.states
    ensures SameSession(s, RespondNew(s, answer, x), sid, id)
  {
    hide Attended, Orderly, Created;
  }

  lemma CreatedForgets(s: State, answer: Answer, x: SessionId, sid: SessionId, id: StateId)
    requires Forgotten(s, sid, id) && x != sid
    ensures SameSession(s, RespondFailedCreated(s, answer, x), sid, id)
  {
    hide Attended;
  }

  lemma ClaimForgets(s: State, answer: Answer, x: SessionId, sid: SessionId, id: StateId)
    requires Forgotten(s, sid, id)
    ensures SameSession(s, RespondFailedClaim(s, answer, x), sid, id)
  {
    hide Attended, SeenTo;
  }

  lemma LateForgets(s: State, sid: SessionId, id: StateId)
    requires Forgotten(s, sid, id)
    ensures s.router.LateUnmap? ==> SameSession(s, UnmapLate(s), sid, id)
    ensures s.router.Close? && s.router.sid != sid ==> SameSession(s, CloseSession(s), sid, id)
  {
    hide Attended;
  }

  lemma RouterPasses(s: State, a: RouterStep, sid: SessionId, id: StateId)
    requires RouterCan(s, a) && Forgotten(s, sid, id)
    ensures !LateArming(RouterNext(s, a).router, sid)
    ensures var s' := RouterNext(s, a);
            forall t :: t in s'.tasks ==> !Sees(s'.tasks[t], sid, id, s.states[id].cancelCounter)
  {
    hide BufferRead, Receive, AppendMessage, LookupOwner, PushMessage, LockDrop, DeliverAnswer, OwnerLate, PushLate,
      FindLate, LockClose, SenderCheck, RespondNew, RespondFailedClaim, RespondFailedCreated, CloseSession, Sees;
    RouterFramed(s, a);
    if a.DoLateArm? { LateArmPasses(s, a.n, sid, id); }
  }

  lemma LateArmPasses(s: State, n: nat, sid: SessionId, id: StateId)
    requires s.router.LateArm? && Forgotten(s, sid, id)
    ensures forall t :: t in ArmLate(s, n).tasks ==> !Sees(ArmLate(s, n).tasks[t], sid, id, s.states[id].cancelCounter)
  {
  }

  // ---------------------------------------------------------------- runs

  ghost predicate Untouched(s: State, actions: seq<Action>, sid: SessionId)
    requires IsRun(s, actions)
    decreases |actions|
  {
    actions == [] || (!Touches(s, actions[0], sid) && Untouched(Next(s, actions[0]), actions[1..], sid))
  }

  lemma {:induction false} ForgottenStays(s: State, actions: seq<Action>, sid: SessionId, id: StateId)
    requires Inv(s) && IsRun(s, actions) && Untouched(s, actions, sid) && Forgotten(s, sid, id)
    ensures Forgotten(Run(s, actions), sid, id) && Run(s, actions).states[id].cancelled == s.states[id].cancelled
    decreases |actions|
  {
    hide Inv, Can, Next, Attended, Touches;
    if actions != [] {
      StepKeeps(s, actions[0]);
      ForgottenStep(s, actions[0], sid, id);
      ForgottenStays(Next(s, actions[0]), actions[1..], sid, id);
    }
  }

  // ---------------------------------------------------------------- who is reaped

  /** A reaper is past its check and about to close or cancel the session. */
  ghost predicate Reaped(s: State, sid: SessionId) {
    exists n :: ReaperAt(s, n).Stopping? && ReaperAt(s, n).sid == sid
  }

  /** Some continuation without a load, claim or close of the session gets a reaper to stop it. */
  ghost predicate CanBeReaped(s: State, sid: SessionId) {
    exists actions :: IsRun(s, actions) && Untouched(s, actions, sid) && Reaped(Run(s, actions), sid)
  }

  ghost predicate LeadsUntouched(s: State, s': State, sid: SessionId) {
    exists actions :: IsRun(s, actions) && Untouched(s, actions, sid) && Run(s, actions) == s'
  }

  lemma {:induction false} OneMore(s: State, actions: seq<Action>, a: Action, sid: SessionId)
    requires IsRun(s, actions) && Untouched(s, actions, sid)
    requires Can(Run(s, actions), a) && !Touches(Run(s, actions), a, sid)
    ensures IsRun(s, actions + [a]) && Untouched(s, actions + [a], sid)
    ensures Run(s, actions + [a]) == Next(Run(s, actions), a)
    decreases |actions|
  {
    hide Can, Next, Touches;
    if actions == [] {
      assert actions + [a] == [a] && [a][1..] == [];
    } else {
      assert (actions + [a])[1..] == actions[1..] + [a];
      OneMore(Next(s, actions[0]), actions[1..], a, sid);
    }
  }

  lemma StepUntouched(start: State, s: State, a: Action, sid: SessionId)
    requires LeadsUntouched(start, s, sid) && Can(s, a) && !Touches(s, a, sid)
    ensures LeadsUntouched(start, Next(s, a), sid)
  {
    hide IsRun, Run, Untouched, Can, Next, Touches;
    var actions :| IsRun(start, actions) && Untouched(start, actions, sid) && Run(start, actions) == s;
    OneMore(start, actions, a, sid);
  }

  /** Nobody holds a mutex of the session. */
  predicate MutexesFree(s: State, sid: SessionId) {
    && LockOf(s, sid) !in s.held
    && forall t :: t in s.tasks && Ref(s.tasks[t]) != NoLock && Ref(s.tasks[t]).sid == sid ==>
         Ref(s.tasks[t]).lock !in s.held
  }

  /** A session without owner whose mutexes are free, whatever became of its last owner: some
      continuation gets a reaper to stop it if and only if somebody sees to it. */
  lemma OwnerlessIsReapedExactlyWhenAttended(s: State, sid: SessionId)
    requires Reachable(s) && MutexesFree(s, sid) && sid in s.sessions && s.sessions[sid].channel.None?
    ensures CanBeReaped(s, sid) <==> Attended(s, sid, s.sessions[sid].state)
  {
    hide Reachable, Inv, Attended, MutexesFree, Untouched, IsRun, Run, Reaped;
    ReachableHolds(s);
    There(s, sid);
    var id := s.sessions[sid].state;
    if Attended(s, sid, id) {
      AttendedIsReaped(s, sid, id);
    } else {
      forall actions | IsRun(s, actions) && Untouched(s, actions, sid) ensures !Reaped(Run(s, actions), sid) {
        ForgottenStays(s, actions, sid, id);
        ForgottenIsNotReaped(Run(s, actions), sid, id);
      }
    }
  }

  lemma ForgottenIsNotReaped(s: State, sid: SessionId, id: StateId)
    requires Forgotten(s, sid, id)
    ensures !Reaped(s, sid)
  {
  }

  /** The agent fails a load of a session that existed before, and the claim is released. The
      session is reaped in some continuation if and only if some task sees to it at that moment:
      the timer that was armed when its last owner left may still be pending with the current
      counter, or it may have given up while the claim stood. */
  lemma ReleasedIsReapedExactlyWhenSeen(s: State, answer: Answer, sid: SessionId)
    requires Reachable(s) && CanRespond(s, answer) && Owns(s.sessions, sid, answer.channel) && MutexesFree(s, sid)
    ensures var id := s.sessions[sid].state;
            CanBeReaped(Settle(RespondFailedClaim(s, answer, sid)), sid)
            <==> exists t :: t in s.tasks && Sees(s.tasks[t], sid, id, StateOf(s.states, id).cancelCounter)
  {
    hide Inv, Reachable, Sees, SeenTo, CanRespond, Leads, Settle, CanBeReaped;
    ReachableHolds(s);
    There(s, sid);
    var s' := Settle(RespondFailedClaim(s, answer, sid));
    LeadsHere(s);
    ByR(s, s, DoRespondFailed(answer, sid, false));
    ReachableOn(s, s');
    OwnerlessIsReapedExactlyWhenAttended(s', sid);
  }

  // ---------------------------------------------------------------- from a timer to the stop

  lemma AttendedIsReaped(s: State, sid: SessionId, id: StateId)
    requires Inv(s) && MutexesFree(s, sid) && sid in s.sessions && s.sessions[sid] == SessionEntry(id, None)
    requires id in s.states && Attended(s, sid, id)
    ensures CanBeReaped(s, sid)
  {
    hide Inv, Untouched, IsRun, Run, CanBeReaped, LeadsUntouched, Covers, KindOk;
    var counter := s.states[id].cancelCounter;
    assert LeadsUntouched(s, s, sid) by { Start(s, sid); }
    if LateArming(s.router, sid) {
      var n := FreshReaper(s.tasks);
      StepUntouched(s, s, ByRouter(DoLateArm(n)), sid);
      ArmedGetsThere(s, Settle(ArmLate(s, n)), sid, n);
    } else {
      var t :| t in s.tasks && Sees(s.tasks[t], sid, id, counter);
      SeerGetsThere(s, t, sid, id);
    }
  }

  lemma Start(s: State, sid: SessionId)
    ensures LeadsUntouched(s, s, sid)
  {
    assert IsRun(s, []) && Untouched(s, [], sid) && Run(s, []) == s;
  }

  lemma SeerGetsThere(s: State, t: Task, sid: SessionId, id: StateId)
    requires Inv(s) && MutexesFree(s, sid) && sid in s.sessions && s.sessions[sid] == SessionEntry(id, None)
    requires id in s.states && LeadsUntouched(s, s, sid)
    requires t in s.tasks && Sees(s.tasks[t], sid, id, s.states[id].cancelCounter)
    ensures CanBeReaped(s, sid)
  {
    hide Inv, CanBeReaped, LeadsUntouched, ReplayOk, ProgressOk, ObjectOk;
    Here(s, t);
    HasIsHeld(s, t);
    match s.tasks[t]
    case Arming(_) =>
      var n := FreshReaper(s.tasks);
      StepUntouched(s, s, ByChannel(t.c, DoArm((sid, s.states[id].cancelCounter), n)), sid);
      ArmedGetsThere(s, Settle(Arm(s, t.c, (sid, s.states[id].cancelCounter), n)), sid, n);
    case Armed(_, _) => ArmedGetsThere(s, s, sid, t.n);
    case Probing(_, _) => ProbingGetsThere(s, s, sid, t.n);
    case Matched(_, _) => MatchedGetsThere(s, s, sid, t.n);
    case StopWait(_, _, _) => WaiterGetsThere(s, s, sid, t.n);
    case _ =>
  }

  lemma HasIsHeld(s: State, t: Task)
    requires Inv(s) && t in s.tasks
    ensures Ref(s.tasks[t]).Has? ==> Ref(s.tasks[t]).lock in s.held
  {
    hide SendersOk, TableOk, ObjectsOk, RouterOk, OwnersOk, AllProgressOk, TargetOk, DeliveryOk, ReplaysOk, QueuesOk,
      OutcomesOk, CoverageOk, Ref;
    assert RefOk(Ref(s.tasks[t]), t, s.locks, s.nextLock, s.held, s.bypassed);
  }

  lemma ArmedGetsThere(start: State, s: State, sid: SessionId, n: nat)
    requires LeadsUntouched(start, s, sid) && SessionChannel(s.sessions, sid).None? && sid in s.sessions
    requires LockOf(s, sid) !in s.held
    requires ReaperAt(s, n) == Armed(sid, StateOf(s.states, s.sessions[sid].state).cancelCounter)
    ensures CanBeReaped(start, sid)
  {
    hide LeadsUntouched, CanBeReaped;
    StepUntouched(start, s, ByReaper(n, DoWake), sid);
    ProbingGetsThere(start, Settle(Wake(s, n)), sid, n);
  }

  lemma ProbingGetsThere(start: State, s: State, sid: SessionId, n: nat)
    requires LeadsUntouched(start, s, sid) && SessionChannel(s.sessions, sid).None? && sid in s.sessions
    requires LockOf(s, sid) !in s.held
    requires ReaperAt(s, n) == Probing(sid, StateOf(s.states, s.sessions[sid].state).cancelCounter)
    ensures CanBeReaped(start, sid)
  {
    hide LeadsUntouched, CanBeReaped;
    StepUntouched(start, s, ByReaper(n, DoProbe), sid);
    MatchedGetsThere(start, Settle(Probe(s, n)), sid, n);
  }

  lemma MatchedGetsThere(start: State, s: State, sid: SessionId, n: nat)
    requires LeadsUntouched(start, s, sid) && SessionChannel(s.sessions, sid).None?
    requires LockOf(s, sid) !in s.held && ReaperAt(s, n).Matched? && ReaperAt(s, n).sid == sid
    ensures CanBeReaped(start, sid)
  {
    hide LeadsUntouched, CanBeReaped;
    StepUntouched(start, s, ByReaper(n, DoTakeLock), sid);
    WaiterGetsThere(start, Settle(TakeLock(s, n)), sid, n);
  }

  lemma WaiterGetsThere(start: State, s: State, sid: SessionId, n: nat)
    requires LeadsUntouched(start, s, sid) && SessionChannel(s.sessions, sid).None?
    requires ReaperAt(s, n).StopWait? && ReaperAt(s, n).sid == sid && ReaperAt(s, n).lock !in s.held
    ensures CanBeReaped(start, sid)
  {
    hide LeadsUntouched, CanBeReaped;
    StepUntouched(start, s, ByReaper(n, DoStopCheck), sid);
    ReapedBy(start, Settle(StopCheck(s, n)), sid, n);
  }

  lemma ReapedBy(start: State, s: State, sid: SessionId, n: nat)
    requires LeadsUntouched(start, s, sid) && ReaperAt(s, n).Stopping? && ReaperAt(s, n).sid == sid
    ensures CanBeReaped(start, sid)
  {
    hide IsRun, Run, Untouched;
    var actions :| IsRun(start, actions) && Untouched(start, actions, sid) && Run(start, actions) == s;
    assert Reaped(Run(start, actions), sid);
  }

  lemma FreshReaper(tasks: map<Task, Pc>) returns (n: nat)
    ensures Reaper(n) !in tasks
  {
    var used := set t | t in tasks && t.Reaper? :: t.n;
    n := Above(used);
    forall k | Reaper(k) in tasks ensures k in used {
      assert Reaper(k).Reaper? && Reaper(k).n == k;
    }
  }

  lemma Above(numbers: set<nat>) returns (n: nat)
    ensures forall m :: m in numbers ==> m < n
  {
    n := 0;
    if numbers != {} {
      var m :| m in numbers;
      n := Above(numbers - {m});
      forall k | k in numbers ensures k == m || k < n {
        assert k == m || k in numbers - {m};
      }
      n := if m >= n then m + 1 else n;
    }
  }
}
