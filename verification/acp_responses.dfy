/** Responses of the agent: what becomes of each one the router takes on. */
module AcpResponses {
  import opened Wrappers
  import opened AcpSession
  import opened AcpTable
  import opened AcpProtocol
  import opened AcpLocks
  import opened AcpInvariant
  import opened AcpMoves
  import opened AcpTheorems
  import opened AcpEffects
  import opened AcpCrashes
  import opened AcpRuns

  /** The router works on the response: on its session, on its delivery to the channel that
      asked, or on the search for the session's present owner. */
  predicate Underway(r: RouterPc, answer: Answer) {
    && answer.message.Response?
    && Answering(r) && r.answer == answer
    && (r.LateOwner? || r.LatePush? || r.LateFind? ==> answer.session == Some(r.sid))
  }

  /** The search has ended in a state object, and the response is about to enter its log. */
  predicate Entering(r: RouterPc, answer: Answer, id: StateId) {
    answer.message.Response? && r.Append? && r.message == answer.message && r.state == id
  }

  /** The channel is connected, and asked for the response or owns its session. */
  predicate GoesTo(s: State, answer: Answer, c: ChannelId) {
    && Underway(s.router, answer) && c in s.senders
    && (|| (s.router.Deliver? && c == answer.channel)
        || (s.router.LatePush? && (s.router.sid !in s.bypassed ==> Owns(s.sessions, s.router.sid, c))))
  }

  /** The search finds the response's session with this state object. */
  predicate FoundIn(s: State, answer: Answer, id: StateId) {
    && Underway(s.router, answer) && s.router.LateFind?
    && s.router.sid in s.sessions && s.sessions[s.router.sid].state == id
  }

  /** The channel that asked is gone and there is no session to look up, or it is not in the table. */
  predicate Homeless(s: State, answer: Answer) {
    && Underway(s.router, answer)
    && (|| (s.router.Deliver? && answer.channel !in s.senders && answer.session.None?)
        || (s.router.LateFind? && s.router.sid !in s.sessions))
  }

  // ---------------------------------------------------------------- taking a response on

  /** The response the agent gives with this step, with the session it turns out to concern. */
  function Given(a: RouterStep): Option<Answer> {
    match a
    case DoRespond(answer) => Some(answer)
    case DoRespondNew(answer, sid) => Some(answer.(session := Some(sid)))
    case DoRespondLoaded(answer, _) => Some(answer)
    case DoRespondFailed(answer, _, _) => Some(answer)
    case _ => None
  }

  lemma EveryResponseIsTakenOn(s: State, a: RouterStep)
    requires RouterCan(s, a) && Given(a).Some?
    ensures Underway(Next(s, ByRouter(a)).router, Given(a).value) && Next(s, ByRouter(a)).outcomes == s.outcomes
  {
    hide RespondNew, RespondFailedCreated, RespondFailedClaim, Settle;
    match a
    case DoRespondNew(answer, sid) => NewTurns(s, answer, sid);
    case DoRespondFailed(answer, sid, _) => FailedTurns(s, answer, sid);
    case _ =>
  }

  lemma NewTurns(s: State, answer: Answer, sid: SessionId)
    ensures RespondNew(s, answer, sid).router == CheckSender(answer.(session := Some(sid)), sid)
  {
    hide Orderly, Created;
  }

  lemma FailedTurns(s: State, answer: Answer, sid: SessionId)
    ensures RespondFailedClaim(s, answer, sid).router == Deliver(answer)
    ensures RespondFailedCreated(s, answer, sid).router in {Deliver(answer), DropLock(answer, sid)}
  {
    hide SeenTo;
  }

  // ---------------------------------------------------------------- the owner looked up

  /** A connected channel that a late response is about to be pushed to still owns the session. */
  ghost predicate LateTargetOk(s: State) {
    s.router.LatePush? && s.router.target.Some? ==>
      && Channel(s.router.target.value) in s.tasks
      && (s.router.target.value in s.senders && s.router.sid !in s.bypassed ==>
            Owns(s.sessions, s.router.sid, s.router.target.value))
  }

  lemma LateTargetStep(s: State, a: Action)
    requires Inv(s) && LateTargetOk(s) && Can(s, a)
    ensures LateTargetOk(Next(s, a))
  {
    hide Inv, ChannelCan, ChannelNext, ReaperCan, ReaperNext, RouterCan, RouterNext, Orderly;
    match a
    case ByChannel(c, step) =>
      ChannelFramed(s, c, step);
      ChannelSenders(s, c, step);
      ChannelMarks(s, c, step);
      if s.router.LatePush? && s.router.target.Some? { TargetStays(s, c, step, s.router.target.value); }
    case ByReaper(n, step) =>
      ReaperSenders(s, n, step);
      ReaperMarks(s, n, step);
      if s.router.LatePush? && s.router.sid !in s.bypassed && SessionChannel(s.sessions, s.router.sid).Some? {
        ReaperLeaves(s, n, step, s.router.sid);
      }
    case ByRouter(step) => LateTargetRouted(s, step);
  }

  lemma ChannelMarks(s: State, c: ChannelId, a: ChannelStep)
    requires ChannelCan(s, c, a)
    ensures ChannelNext(s, c, a).bypassed == s.bypassed
  {
    hide BufferRead, LoadBegin, LoadAcquire, LoadBump, LoadCheck, LoadReplay, LoadMap, LoadFinish, Unmapped;
    if a.DoLoadBegin? || a.DoLoadAcquire? || a.DoLoadBump? || a.DoLoadCheck? || a.DoLoadReplay? || a.DoLoadMap?
        || a.DoLoadFinish? {
      hide ChannelNext, ChannelCan;
      LoadMarks(s, c, a);
    }
  }

  lemma LoadMarks(s: State, c: ChannelId, a: ChannelStep)
    requires ChannelCan(s, c, a)
    requires a.DoLoadBegin? || a.DoLoadAcquire? || a.DoLoadBump? || a.DoLoadCheck? || a.DoLoadReplay? || a.DoLoadMap?
             || a.DoLoadFinish?
    ensures ChannelNext(s, c, a).bypassed == s.bypassed
  {
    hide Attach, Replay, Replayed, After, Seen, Send, LockOf, NextLock;
  }

  lemma ReaperMarks(s: State, n: nat, a: ReaperStep)
    requires ReaperCan(s, n, a)
    ensures s.bypassed <= ReaperNext(s, n, a).bypassed
  {
    hide LockOf, NextLock, Contended;
  }

  lemma TargetStays(s: State, c: ChannelId, a: ChannelStep, d: ChannelId)
    requires Inv(s) && ChannelCan(s, c, a) && s.router.LatePush?
    requires d in s.senders && s.router.sid !in s.bypassed ==> Owns(s.sessions, s.router.sid, d)
    ensures d in s.senders && s.router.sid !in s.bypassed ==> Owns(ChannelNext(s, c, a).sessions, s.router.sid, d)
  {
    hide Inv, ChannelCan, ChannelNext;
    if d in s.senders && s.router.sid !in s.bypassed {
      if c == d {
        OwnStepKeeps(s, c, a, s.router.sid);
      } else {
        ChannelLeaves(s, c, a, s.router.sid, d);
      }
    }
  }

  lemma OwnStepKeeps(s: State, c: ChannelId, a: ChannelStep, sid: SessionId)
    requires Inv(s) && ChannelCan(s, c, a) && Owns(s.sessions, sid, c) && c in s.senders
    ensures Owns(ChannelNext(s, c, a).sessions, sid, c)
  {
    hide Inv, BufferRead, Attach, Created, Replay, Replayed, After, Seen, Send, Unmapped, LockOf, NextLock;
    if a.DoUnmap? { Here(s, Channel(c)); }
  }

  lemma LateTargetRouted(s: State, a: RouterStep)
    requires Inv(s) && RouterCan(s, a)
    ensures LateTargetOk(RouterNext(s, a)) && LateTargetOk(Settle(RouterNext(s, a)))
  {
    hide Inv, Receive, AppendMessage, LookupOwner, PushMessage, LockDrop, DeliverAnswer, OwnerLate, PushLate, FindLate,
      LockClose, SenderCheck, ArmLate, RespondNew, RespondFailedClaim, RespondFailedCreated, UnmapLate, CloseSession,
      BufferRead, Orderly, LateTargetOk;
    if a.DoLateOwner? {
      LookedUp(s);
    } else {
      NotPushingLate(s, a);
    }
  }

  lemma LookedUp(s: State)
    requires Inv(s) && s.router.LateOwner?
    ensures LateTargetOk(OwnerLate(s)) && LateTargetOk(Settle(OwnerLate(s)))
  {
    hide LocksOk, SendersOk, TableOk, ObjectsOk, RouterOk, AllProgressOk, TargetOk, DeliveryOk, ReplaysOk, QueuesOk,
      OutcomesOk, CoverageOk, Settle;
  }

  lemma NotPushingLate(s: State, a: RouterStep)
    requires RouterCan(s, a) && !a.DoLateOwner?
    ensures LateTargetOk(RouterNext(s, a)) && LateTargetOk(Settle(RouterNext(s, a)))
  {
    hide Receive, AppendMessage, LookupOwner, PushMessage, LockDrop, DeliverAnswer, OwnerLate, PushLate, FindLate,
      LockClose, SenderCheck, ArmLate, RespondNew, RespondFailedClaim, RespondFailedCreated, UnmapLate, CloseSession,
      BufferRead, Settle;
    match a
    case DoRespondNew(answer, sid) => NewTurns(s, answer, sid);
    case DoRespondFailed(answer, sid, _) => FailedTurns(s, answer, sid);
    case DoReceive(sid, message) => ReceiveTurns(s, sid, message);
    case DoLateArm(n) => ArmTurns(s, n);
    case _ =>
      MessageTurns(s);
      SessionTurns(s);
      DeliveryTurns(s);
      SearchTurns(s);
  }

  lemma ReceiveTurns(s: State, sid: SessionId, message: JsonRpcMessage)
    requires s.router.Ready?
    ensures !Receive(s, sid, message).router.LatePush?
  {
  }

  lemma ArmTurns(s: State, n: nat)
    requires s.router.LateArm?
    ensures ArmLate(s, n).router.Deliver?
  {
  }

  lemma MessageTurns(s: State)
    ensures s.router.Append? ==> AppendMessage(s).router.Lookup?
    ensures s.router.Lookup? ==> LookupOwner(s).router.Push?
    ensures s.router.Push? ==> !PushMessage(s).router.LatePush?
    ensures s.router.Close? ==> CloseSession(s).router.CloseLock?
    ensures s.router.CloseLock? ==> LockClose(s).router.Ready?
  {
    hide Appended, Labelled, Send, StateOf, Bypass, Remove, SessionChannel;
  }

  lemma SessionTurns(s: State)
    ensures s.router.CheckSender? ==> !SenderCheck(s).router.LatePush?
    ensures s.router.LateUnmap? ==> !UnmapLate(s).router.LatePush?
    ensures s.router.DropLock? ==> LockDrop(s).router.Deliver?
  {
    hide Bypass, Remove, UnmapIfOwnedBy, Owns;
  }

  lemma DeliveryTurns(s: State)
    ensures s.router.Deliver? ==> !DeliverAnswer(s).router.LatePush?
  {
    hide Send;
  }

  lemma SearchTurns(s: State)
    ensures s.router.LatePush? ==> !PushLate(s).router.LatePush?
    ensures s.router.LateFind? ==> !FindLate(s).router.LatePush?
  {
    hide Send;
  }

  lemma {:induction false} LateTargetKept(s: State, actions: seq<Action>)
    requires Inv(s) && LateTargetOk(s) && IsRun(s, actions)
    ensures LateTargetOk(Run(s, actions))
    decreases |actions|
  {
    hide Inv, LateTargetOk, Can, Next;
    if actions != [] {
      StepKeeps(s, actions[0]);
      LateTargetStep(s, actions[0]);
      LateTargetKept(Next(s, actions[0]), actions[1..]);
    }
  }

  lemma LateTargetHolds(s: State)
    requires Reachable(s)
    ensures LateTargetOk(s)
  {
    hide Inv, IsRun, Run;
    var actions :| IsRun(INIT, actions) && Run(INIT, actions) == s;
    InitHolds();
    LateTargetKept(INIT, actions);
  }

  // ---------------------------------------------------------------- single steps

  /** The response stays underway, is pushed, enters a log, or is given up. */
  ghost predicate Settles(s: State, s': State, answer: Answer) {
    || (Underway(s'.router, answer) && s'.outcomes == s.outcomes)
    || (exists c :: s'.outcomes == s.outcomes + [Pushed(c, answer.message)] && GoesTo(s, answer, c))
    || (exists id :: s'.outcomes == s.outcomes && Entering(s'.router, answer, id) && FoundIn(s, answer, id))
    || (s'.outcomes == s.outcomes + [Lost(answer.message)] && Homeless(s, answer))
  }

  lemma StepSettles(s: State, a: Action, answer: Answer)
    requires Can(s, a) && Underway(s.router, answer) && LateTargetOk(s)
    ensures Settles(s, Next(s, a), answer)
  {
    hide ChannelCan, ChannelNext, ReaperCan, ReaperNext, RouterCan, RouterNext, LateTargetOk, GoesTo, FoundIn, Homeless,
      Underway, Entering, Settle;
    match a
    case ByChannel(c, step) => ChannelFramed(s, c, step);
    case ByReaper(n, step) => ReaperFramed(s, n, step);
    case ByRouter(step) => RouterSettles(s, step, answer);
  }

  lemma RouterSettles(s: State, a: RouterStep, answer: Answer)
    requires RouterCan(s, a) && Underway(s.router, answer) && LateTargetOk(s)
    ensures Settles(s, RouterNext(s, a), answer)
  {
    hide BufferRead, Receive, AppendMessage, LookupOwner, PushMessage, LockDrop, DeliverAnswer, OwnerLate, PushLate,
      FindLate, LockClose, SenderCheck, ArmLate, RespondNew, RespondFailedClaim, RespondFailedCreated, UnmapLate,
      CloseSession, Settles, LateTargetOk;
    match a
    case DoDeliver => DeliverSettles(s, answer);
    case DoLateOwner => SearchSettles(s, answer);
    case DoLatePush => SearchSettles(s, answer);
    case DoLateFind => SearchSettles(s, answer);
    case DoLateArm(n) => TimerSettles(s, answer, n);
    case _ => SessionSettles(s, answer);
  }

  lemma DeliverSettles(s: State, answer: Answer)
    requires Underway(s.router, answer) && s.router.Deliver?
    ensures Settles(s, DeliverAnswer(s), answer)
  {
    hide Send, Forwarded;
    if answer.channel in s.senders { assert GoesTo(s, answer, answer.channel); }
  }

  lemma SearchSettles(s: State, answer: Answer)
    requires Underway(s.router, answer) && LateTargetOk(s)
    ensures s.router.LateOwner? ==> Settles(s, OwnerLate(s), answer)
    ensures s.router.LatePush? ==> Settles(s, PushLate(s), answer)
    ensures s.router.LateFind? ==> Settles(s, FindLate(s), answer)
  {
    hide Send, Forwarded, SessionChannel;
    var r := s.router;
    if r.LatePush? && r.target.Some? && r.target.value in s.senders { assert GoesTo(s, answer, r.target.value); }
    if r.LateFind? && r.sid in s.sessions { assert FoundIn(s, answer, s.sessions[r.sid].state); }
  }

  /** The work on the session ends in the delivery. */
  lemma SessionSettles(s: State, answer: Answer)
    requires Underway(s.router, answer)
    ensures s.router.CheckSender? ==> Settles(s, SenderCheck(s), answer)
    ensures s.router.LateUnmap? ==> Settles(s, UnmapLate(s), answer)
    ensures s.router.DropLock? ==> Settles(s, LockDrop(s), answer)
  {
    hide Bypass, Remove, UnmapIfOwnedBy, Owns;
  }

  lemma TimerSettles(s: State, answer: Answer, n: nat)
    requires Underway(s.router, answer) && s.router.LateArm?
    ensures Settles(s, ArmLate(s, n), answer)
  {
  }

  /** What is about to enter a log does so. */
  lemma StepEnters(s: State, a: Action, answer: Answer, id: StateId)
    requires Can(s, a) && Entering(s.router, answer, id)
    ensures || (Entering(Next(s, a).router, answer, id) && Next(s, a).outcomes == s.outcomes)
            || exists i :: Next(s, a).outcomes == s.outcomes + [Buffered(id, i, answer.message)]
  {
    hide ChannelCan, ChannelNext, ReaperCan, ReaperNext, Receive, LookupOwner, PushMessage, LockDrop, DeliverAnswer,
      OwnerLate, PushLate, FindLate, LockClose, SenderCheck, ArmLate, RespondNew, RespondFailedClaim, Settle,
      RespondFailedCreated, UnmapLate, CloseSession, Labelled, StateOf, Appended;
    match a
    case ByChannel(c, step) => ChannelFramed(s, c, step);
    case ByReaper(n, step) => ReaperFramed(s, n, step);
    case ByRouter(step) =>
  }

  // ---------------------------------------------------------------- runs

  lemma OutcomesGrow(s: State, a: Action)
    requires Can(s, a)
    ensures s.outcomes <= Next(s, a).outcomes
  {
    hide ChannelCan, ChannelNext, ReaperCan, ReaperNext, RouterCan, RouterNext, Settle;
    match a
    case ByChannel(c, step) => ChannelFramed(s, c, step);
    case ByReaper(n, step) => ReaperFramed(s, n, step);
    case ByRouter(step) => RouterNotes(s, step);
  }

  lemma RouterNotes(s: State, a: RouterStep)
    requires RouterCan(s, a)
    ensures s.outcomes <= RouterNext(s, a).outcomes
  {
    hide BufferRead, Receive, LookupOwner, PushMessage, LockDrop, OwnerLate, LockClose, SenderCheck, ArmLate,
      RespondNew, RespondFailedClaim, RespondFailedCreated, UnmapLate, CloseSession, AppendMessage, DeliverAnswer,
      PushLate, FindLate;
  }

  lemma {:induction false} OutcomesStay(s: State, actions: seq<Action>)
    requires IsRun(s, actions)
    ensures s.outcomes <= Run(s, actions).outcomes
    decreases |actions|
  {
    hide Can, Next;
    if actions != [] {
      OutcomesGrow(s, actions[0]);
      OutcomesStay(Next(s, actions[0]), actions[1..]);
    }
  }

  /** The run passes through this state. */
  ghost predicate Visits(s: State, actions: seq<Action>, x: State) {
    exists i :: 0 <= i <= |actions| && VisitsAt(s, actions, x, i)
  }

  ghost predicate VisitsAt(s: State, actions: seq<Action>, x: State, i: int) {
    0 <= i <= |actions| && IsRun(s, actions[..i]) && Run(s, actions[..i]) == x
  }

  lemma VisitsStart(s: State, actions: seq<Action>)
    ensures Visits(s, actions, s)
  {
    assert actions[..0] == [];
    assert VisitsAt(s, actions, s, 0);
  }

  lemma VisitsLater(s: State, actions: seq<Action>, x: State)
    requires IsRun(s, actions) && actions != [] && Visits(Next(s, actions[0]), actions[1..], x)
    ensures Visits(s, actions, x)
  {
    hide Can, Next;
    var i :| 0 <= i <= |actions[1..]| && VisitsAt(Next(s, actions[0]), actions[1..], x, i);
    assert actions[..i + 1][1..] == actions[1..][..i] && actions[..i + 1][0] == actions[0];
    assert VisitsAt(s, actions, x, i + 1);
  }

  /** The outcome is that of the response: it went to a channel entitled to it, or into the log
      of the state object the search found its session with, or it was given up where it had
      no home. */
  ghost predicate Reports(o: Outcome, s: State, actions: seq<Action>, answer: Answer) {
    match o
    case Pushed(c, m) => m == answer.message && exists x :: Visits(s, actions, x) && GoesTo(x, answer, c)
    case Buffered(id, _, m) => m == answer.message && exists x :: Visits(s, actions, x) && FoundIn(x, answer, id)
    case Lost(m) => m == answer.message && exists x :: Visits(s, actions, x) && Homeless(x, answer)
  }

  /** The search found its session's state object, and the response has yet to enter that log. */
  ghost predicate StillEntering(s: State, actions: seq<Action>, answer: Answer)
    requires IsRun(s, actions)
  {
    exists id, x :: Entering(Run(s, actions).router, answer, id) && Visits(s, actions, x) && FoundIn(x, answer, id)
  }

  lemma {:induction false} EntersLog(s: State, actions: seq<Action>, answer: Answer, id: StateId)
    requires IsRun(s, actions) && Entering(s.router, answer, id)
    ensures var s', n := Run(s, actions), |s.outcomes|;
            || (s'.outcomes == s.outcomes && Entering(s'.router, answer, id))
            || (s.outcomes < s'.outcomes && s'.outcomes[n].Buffered? && s'.outcomes[n].state == id
                && s'.outcomes[n].message == answer.message)
    decreases |actions|
  {
    hide Can, Next, Entering;
    if actions != [] {
      StepEnters(s, actions[0], answer, id);
      OutcomesStay(Next(s, actions[0]), actions[1..]);
      if Entering(Next(s, actions[0]).router, answer, id) && Next(s, actions[0]).outcomes == s.outcomes {
        EntersLog(Next(s, actions[0]), actions[1..], answer, id);
      }
    }
  }

  /** Over every run a response that the router has taken on is settled once it is not worked on
      any more, and the first outcome noted since is its own: pushed to the channel that asked,
      or, with that gone, to the owner of its session, or put in the log of its session, or
      given up because it names no session or one that was not in the table. */
  lemma {:induction false} EveryResponseSettles(s: State, actions: seq<Action>, answer: Answer)
    requires Reachable(s) && IsRun(s, actions) && Underway(s.router, answer)
    ensures var s', n := Run(s, actions), |s.outcomes|;
            || (s'.outcomes == s.outcomes && (Underway(s'.router, answer) || StillEntering(s, actions, answer)))
            || (s.outcomes < s'.outcomes && Reports(s'.outcomes[n], s, actions, answer))
    decreases |actions|
  {
    hide Reachable, Can, Next, Underway, GoesTo, FoundIn, Homeless, Entering, LateTargetOk, Visits, Leads;
    if actions != [] {
      var s1, n := Next(s, actions[0]), |s.outcomes|;
      LateTargetHolds(s);
      StepSettles(s, actions[0], answer);
      OutcomesStay(s1, actions[1..]);
      VisitsStart(s, actions);
      if Underway(s1.router, answer) && s1.outcomes == s.outcomes {
        OneStep(s, actions[0]);
        ReachableOn(s, s1);
        EveryResponseSettles(s1, actions[1..], answer);
        Later(s, actions, answer);
      } else if s1.outcomes == s.outcomes {
        var id :| Entering(s1.router, answer, id) && FoundIn(s, answer, id);
        EntersLog(s1, actions[1..], answer, id);
      } else {
        assert Run(s, actions).outcomes[n] == s1.outcomes[n];
      }
    }
  }

  /** What a run from the next state passes, this one passes, too. */
  lemma Later(s: State, actions: seq<Action>, answer: Answer)
    requires IsRun(s, actions) && actions != []
    ensures forall o :: Reports(o, Next(s, actions[0]), actions[1..], answer) ==> Reports(o, s, actions, answer)
    ensures StillEntering(Next(s, actions[0]), actions[1..], answer) ==> StillEntering(s, actions, answer)
  {
    hide Can, Next, Visits, GoesTo, FoundIn, Homeless, Entering;
    forall x | Visits(Next(s, actions[0]), actions[1..], x) ensures Visits(s, actions, x) {
      VisitsLater(s, actions, x);
    }
  }
}
