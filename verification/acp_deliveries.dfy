/** Responses of the agent that have somewhere to go get there: to the channel that asked as long
    as it is connected, to a connected owner after that; and a close removes its session
    (tidewave-core/src/ws/acp.rs). */
module AcpDeliveries {
  import opened Wrappers
  import opened AcpSession
  import opened AcpTable
  import opened AcpProtocol
  import opened AcpInvariant
  import opened AcpEffects
  import opened AcpResponses

  // ---------------------------------------------------------------- to the channel that asked

  /** On its way to the channel that asked. */
  predicate HeadsBack(r: RouterPc, answer: Answer) {
    Underway(r, answer) && (r.CheckSender? || r.DropLock? || r.Deliver?)
  }

  ghost predicate StaysConnected(s: State, actions: seq<Action>, c: ChannelId)
    requires IsRun(s, actions)
    decreases |actions|
  {
    c in s.senders && (actions == [] || StaysConnected(Next(s, actions[0]), actions[1..], c))
  }

  lemma DirectStep(s: State, a: Action, answer: Answer)
    requires Can(s, a) && HeadsBack(s.router, answer) && answer.channel in s.senders
    ensures (HeadsBack(Next(s, a).router, answer) && Next(s, a).outcomes == s.outcomes)
            || Next(s, a).outcomes == s.outcomes + [Pushed(answer.channel, answer.message)]
  {
    hide ChannelCan, ChannelNext, ReaperCan, ReaperNext, Settle;
    match a
    case ByChannel(c, step) => ChannelFramed(s, c, step);
    case ByReaper(n, step) => ReaperFramed(s, n, step);
    case ByRouter(step) => DirectRouted(s, step, answer);
  }

  lemma DirectRouted(s: State, a: RouterStep, answer: Answer)
    requires RouterCan(s, a) && HeadsBack(s.router, answer) && answer.channel in s.senders
    ensures (HeadsBack(RouterNext(s, a).router, answer) && RouterNext(s, a).outcomes == s.outcomes)
            || RouterNext(s, a).outcomes == s.outcomes + [Pushed(answer.channel, answer.message)]
  {
    hide SenderCheck, LockDrop, DeliverAnswer;
    if s.router.Deliver? {
      DeliversDirectly(s);
    } else {
      ChecksAndDrops(s);
    }
  }

  lemma DeliversDirectly(s: State)
    requires s.router.Deliver? && s.router.answer.channel in s.senders
    ensures DeliverAnswer(s).outcomes == s.outcomes + [Pushed(s.router.answer.channel, s.router.answer.message)]
  {
    hide Send, Forwarded;
  }

  lemma ChecksAndDrops(s: State)
    ensures s.router.CheckSender? && s.router.answer.channel in s.senders ==>
              SenderCheck(s).router == Deliver(s.router.answer)
    ensures s.router.DropLock? ==> LockDrop(s).router == Deliver(s.router.answer)
  {
    hide Bypass, Remove;
  }

  /** As long as the channel that asked is connected, its response is on its way to it, and once
      it is not any more, it is in that channel's queue. */
  lemma {:induction false} ConnectedAskerIsAnswered(s: State, actions: seq<Action>, answer: Answer)
    requires IsRun(s, actions) && HeadsBack(s.router, answer) && StaysConnected(s, actions, answer.channel)
    ensures var s', n := Run(s, actions), |s.outcomes|;
            || (HeadsBack(s'.router, answer) && s'.outcomes == s.outcomes)
            || (s.outcomes < s'.outcomes && s'.outcomes[n] == Pushed(answer.channel, answer.message))
    decreases |actions|
  {
    hide Can, Next, HeadsBack;
    if actions != [] {
      DirectStep(s, actions[0], answer);
      OutcomesStay(Next(s, actions[0]), actions[1..]);
      if Next(s, actions[0]).outcomes == s.outcomes {
        ConnectedAskerIsAnswered(Next(s, actions[0]), actions[1..], answer);
      }
    }
  }

  // ---------------------------------------------------------------- to the present owner

  /** On its way to `c`, the channel that asked being gone. */
  predicate Rerouted(r: RouterPc, answer: Answer, sid: SessionId, c: ChannelId) {
    && Underway(r, answer) && answer.session == Some(sid)
    && (r.Deliver? || r.LateOwner? || (r.LatePush? && r.target == Some(c)))
  }

  /** At every state of the run `c` is the connected owner, and the channel that asked is gone. */
  ghost predicate StaysOwner(s: State, actions: seq<Action>, sid: SessionId, c: ChannelId, asker: ChannelId)
    requires IsRun(s, actions)
    decreases |actions|
  {
    && Owns(s.sessions, sid, c) && c in s.senders && asker !in s.senders
    && (actions == [] || StaysOwner(Next(s, actions[0]), actions[1..], sid, c, asker))
  }

  lemma ReroutedStep(s: State, a: Action, answer: Answer, sid: SessionId, c: ChannelId)
    requires Can(s, a) && Rerouted(s.router, answer, sid, c)
    requires Owns(s.sessions, sid, c) && c in s.senders && answer.channel !in s.senders
    ensures (Rerouted(Next(s, a).router, answer, sid, c) && Next(s, a).outcomes == s.outcomes)
            || Next(s, a).outcomes == s.outcomes + [Pushed(c, answer.message)]
  {
    hide ChannelCan, ChannelNext, ReaperCan, ReaperNext, Settle;
    match a
    case ByChannel(d, step) => ChannelFramed(s, d, step);
    case ByReaper(n, step) => ReaperFramed(s, n, step);
    case ByRouter(step) => ReroutedOn(s, step, answer, sid, c);
  }

  lemma ReroutedOn(s: State, a: RouterStep, answer: Answer, sid: SessionId, c: ChannelId)
    requires RouterCan(s, a) && Rerouted(s.router, answer, sid, c)
    requires Owns(s.sessions, sid, c) && c in s.senders && answer.channel !in s.senders
    ensures (Rerouted(RouterNext(s, a).router, answer, sid, c) && RouterNext(s, a).outcomes == s.outcomes)
            || RouterNext(s, a).outcomes == s.outcomes + [Pushed(c, answer.message)]
  {
    hide DeliverAnswer, OwnerLate, PushLate;
    if s.router.Deliver? { TurnsLate(s); } else { FindsOwner(s, c); }
  }

  lemma TurnsLate(s: State)
    requires s.router.Deliver? && s.router.answer.channel !in s.senders && s.router.answer.session.Some?
    ensures DeliverAnswer(s).router == LateOwner(s.router.answer, s.router.answer.session.value)
    ensures DeliverAnswer(s).outcomes == s.outcomes
  {
    hide Send, Forwarded;
  }

  lemma FindsOwner(s: State, c: ChannelId)
    ensures s.router.LateOwner? && Owns(s.sessions, s.router.sid, c) ==>
              OwnerLate(s).router == LatePush(s.router.answer, s.router.sid, Some(c))
                  && OwnerLate(s).outcomes == s.outcomes
    ensures s.router.LatePush? && s.router.target == Some(c) && c in s.senders ==>
              PushLate(s).outcomes == s.outcomes + [Pushed(c, s.router.answer.message)]
  {
    hide Send, Forwarded;
  }

  /** With the channel that asked gone and the session owned by a connected channel all along, the
      response goes to that owner, and is neither buffered nor lost. */
  lemma {:induction false} ConnectedOwnerGetsLateResponse(s: State, actions: seq<Action>, answer: Answer,
      sid: SessionId,
      c: ChannelId)
    requires IsRun(s, actions) && Rerouted(s.router, answer, sid, c)
    requires StaysOwner(s, actions, sid, c, answer.channel)
    ensures var s', n := Run(s, actions), |s.outcomes|;
            || (Rerouted(s'.router, answer, sid, c) && s'.outcomes == s.outcomes)
            || (s.outcomes < s'.outcomes && s'.outcomes[n] == Pushed(c, answer.message))
    decreases |actions|
  {
    hide Can, Next, Rerouted;
    if actions != [] {
      ReroutedStep(s, actions[0], answer, sid, c);
      OutcomesStay(Next(s, actions[0]), actions[1..]);
      if Next(s, actions[0]).outcomes == s.outcomes {
        ConnectedOwnerGetsLateResponse(Next(s, actions[0]), actions[1..], answer, sid, c);
      }
    }
  }

  // ---------------------------------------------------------------- closing

  /** The router is still to remove the session. */
  predicate StillCloses(r: RouterPc, sid: SessionId) {
    || (Answering(r) && r.answer.close == Some(sid))
    || ((r.Append? || r.Lookup? || r.Push?) && r.close == Some(sid))
    || r == Close(sid)
  }

  /** It has just removed it, and takes its mutex entry next. */
  predicate HasClosed(s: State, sid: SessionId) {
    s.router == CloseLock(sid) && sid !in s.sessions
  }

  lemma ClosesStep(s: State, a: Action, sid: SessionId)
    requires Can(s, a) && StillCloses(s.router, sid)
    ensures StillCloses(Next(s, a).router, sid) || HasClosed(Next(s, a), sid)
  {
    hide ChannelCan, ChannelNext, ReaperCan, ReaperNext, Settle, RouterCan, RouterNext, StillCloses, HasClosed;
    match a
    case ByChannel(c, step) => ChannelFramed(s, c, step);
    case ByReaper(n, step) => ReaperFramed(s, n, step);
    case ByRouter(step) => ClosesRouted(s, step, sid);
  }

  lemma ClosesRouted(s: State, a: RouterStep, sid: SessionId)
    requires RouterCan(s, a) && StillCloses(s.router, sid)
    ensures StillCloses(RouterNext(s, a).router, sid) || HasClosed(RouterNext(s, a), sid)
    ensures HasClosed(RouterNext(s, a), sid) ==> HasClosed(Settle(RouterNext(s, a)), sid)
  {
    hide BufferRead, AppendMessage, LookupOwner, PushMessage, SenderCheck, UnmapLate, ArmLate, LockDrop, DeliverAnswer,
      OwnerLate, PushLate, FindLate, CloseSession, Settle;
    match a
    case DoAppend => MessageCloses(s, sid);
    case DoLookup => MessageCloses(s, sid);
    case DoPush => MessageCloses(s, sid);
    case DoCheckSender => SessionCloses(s, sid);
    case DoLateUnmap => SessionCloses(s, sid);
    case DoDropLock => SessionCloses(s, sid);
    case DoLateArm(n) => TimerCloses(s, n, sid);
    case DoDeliver => DeliveryCloses(s, sid);
    case DoLateOwner => SearchCloses(s, sid);
    case DoLatePush => SearchCloses(s, sid);
    case DoLateFind => SearchCloses(s, sid);
    case _ => Removes(s);
  }

  lemma MessageCloses(s: State, sid: SessionId)
    requires (s.router.Append? || s.router.Lookup? || s.router.Push?) && s.router.close == Some(sid)
    ensures s.router.Append? ==> StillCloses(AppendMessage(s).router, sid)
    ensures s.router.Lookup? ==> StillCloses(LookupOwner(s).router, sid)
    ensures s.router.Push? ==> StillCloses(PushMessage(s).router, sid)
  {
    hide Appended, Labelled, StateOf, Send, SessionChannel;
  }

  lemma SessionCloses(s: State, sid: SessionId)
    requires Answering(s.router) && s.router.answer.close == Some(sid)
    ensures s.router.CheckSender? ==> StillCloses(SenderCheck(s).router, sid)
    ensures s.router.LateUnmap? ==> StillCloses(UnmapLate(s).router, sid)
    ensures s.router.DropLock? ==> StillCloses(LockDrop(s).router, sid)
  {
    hide Bypass, Remove, UnmapIfOwnedBy, Owns;
  }

  lemma TimerCloses(s: State, n: nat, sid: SessionId)
    requires s.router.LateArm? && s.router.answer.close == Some(sid)
    ensures StillCloses(ArmLate(s, n).router, sid)
  {
  }

  lemma DeliveryCloses(s: State, sid: SessionId)
    requires s.router.Deliver? && s.router.answer.close == Some(sid)
    ensures StillCloses(DeliverAnswer(s).router, sid)
  {
    hide Send;
  }

  lemma SearchCloses(s: State, sid: SessionId)
    requires Answering(s.router) && s.router.answer.close == Some(sid)
    ensures s.router.LateOwner? ==> StillCloses(OwnerLate(s).router, sid)
    ensures s.router.LatePush? ==> StillCloses(PushLate(s).router, sid)
    ensures s.router.LateFind? ==> StillCloses(FindLate(s).router, sid)
  {
    hide Send, SessionChannel;
  }

  lemma Removes(s: State)
    requires s.router.Close?
    ensures HasClosed(CloseSession(s), s.router.sid)
  {
  }

  /** The response to a close, whatever becomes of it, makes the router remove the session before
      it turns to anything else. */
  lemma {:induction false} AnsweredCloseRemovesSession(s: State, actions: seq<Action>, sid: SessionId)
    requires IsRun(s, actions) && StillCloses(s.router, sid)
    ensures StillCloses(Run(s, actions).router, sid) || exists x :: Visits(s, actions, x) && HasClosed(x, sid)
    decreases |actions|
  {
    hide Can, Next, StillCloses, HasClosed, Visits;
    if actions != [] {
      var s1 := Next(s, actions[0]);
      ClosesStep(s, actions[0], sid);
      if HasClosed(s1, sid) {
        VisitsStart(s1, actions[1..]);
        VisitsLater(s, actions, s1);
      } else {
        AnsweredCloseRemovesSession(s1, actions[1..], sid);
        if x :| Visits(s1, actions[1..], x) && HasClosed(x, sid) {
          VisitsLater(s, actions, x);
        }
      }
    }
  }
}
