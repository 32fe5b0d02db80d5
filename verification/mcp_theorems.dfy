/** What the MCP proxy guarantees in every reachable state and over every run. */
module McpTheorems {
  import opened Wrappers
  import opened McpProtocol
  import opened McpInvariant
  import opened McpSteps

  // ---------------------------------------------------------------- the invariant over runs

  lemma StepKeeps(s: State, a: Action)
    requires Inv(s) && Can(s, a)
    ensures Inv(Next(s, a))
  {
    hide ChannelCan, HandlerCan, ChannelNext, HandlerNext, Registrations, Borrowings, Known, NumbersDistinct, Entries,
      Departures, Sending, SendersKnown, Cared, Deliveries, Outcomes;
    if ChannelCan(s, a) {
      ChannelStepKeeps(s, a);
    } else {
      HandlerStepKeeps(s, a);
    }
  }

  lemma ChannelStepKeeps(s: State, a: Action)
    requires Inv(s) && ChannelCan(s, a)
    ensures Inv(ChannelNext(s, a))
  {
    hide ChannelCan, ChannelNext, Registrations, Borrowings, Known, NumbersDistinct, Entries, Departures, Sending,
      SendersKnown, Cared, Deliveries, Outcomes;
    ChannelKeepsRegistrations(s, a);
    ChannelKeepsBorrowings(s, a);
    ChannelKeepsKnown(s, a);
    ChannelKeepsNumbersDistinct(s, a);
    ChannelKeepsEntries(s, a);
    ChannelKeepsDepartures(s, a);
    ChannelKeepsSending(s, a);
    ChannelKeepsSendersKnown(s, a);
    ChannelKeepsCared(s, a);
    ChannelKeepsDeliveries(s, a);
    ChannelKeepsOutcomes(s, a);
  }

  lemma HandlerStepKeeps(s: State, a: Action)
    requires Inv(s) && HandlerCan(s, a)
    ensures Inv(HandlerNext(s, a))
  {
    hide HandlerCan, HandlerNext, Registrations, Borrowings, Known, NumbersDistinct, Entries, Departures, Sending,
      SendersKnown, Cared, Deliveries, Outcomes;
    HandlerKeepsRegistrations(s, a);
    HandlerKeepsBorrowings(s, a);
    HandlerKeepsKnown(s, a);
    HandlerKeepsNumbersDistinct(s, a);
    HandlerKeepsEntries(s, a);
    HandlerKeepsDepartures(s, a);
    HandlerKeepsSending(s, a);
    HandlerKeepsSendersKnown(s, a);
    HandlerKeepsCared(s, a);
    HandlerKeepsDeliveries(s, a);
    HandlerKeepsOutcomes(s, a);
  }

  lemma {:induction false} RunKeeps(s: State, actions: seq<Action>)
    requires Inv(s) && IsRun(s, actions)
    ensures Inv(Run(s, actions))
    decreases |actions|
  {
    hide Can, Next, Inv;
    if actions != [] {
      StepKeeps(s, actions[0]);
      RunKeeps(Next(s, actions[0]), actions[1..]);
    }
  }

  lemma ReachableHolds(s: State)
    requires Reachable(s)
    ensures Inv(s)
  {
    hide Inv, IsRun, Run;
    var actions :| IsRun(INIT, actions) && Run(INIT, actions) == s;
    InitHolds();
    RunKeeps(INIT, actions);
  }

  // ---------------------------------------------------------------- no stranded entries

  predicate Unregistered(pc: ChannelPc) {
    pc.Scanning? || pc.Draining? || pc.Failing? || pc.Exited?
  }

  /** Nobody can still install an entry for a channel that has unregistered. */
  ghost predicate NobodyHolds(s: State, c: ChannelId) {
    forall h :: h in s.handlers && Borrows(s.handlers[h]) ==> s.handlers[h].channel != Some(c)
  }

  lemma UnregisteredIsLetGo(s: State, c: ChannelId)
    requires Inv(s) && c in s.channels && Unregistered(s.channels[c].pc)
    ensures NobodyHolds(s, c)
  {
    hide Known, NumbersDistinct, Entries, Departures, Sending, SendersKnown, Cared, Deliveries, Outcomes;
    forall h | h in s.handlers && Borrows(s.handlers[h]) ensures s.handlers[h].channel != Some(c) {
      assert s.handlers[h].session in s.sessions;
    }
  }

  lemma UnregisteredStep(s: State, a: Action, c: ChannelId)
    requires Inv(s) && Can(s, a) && c in s.channels && Unregistered(s.channels[c].pc)
    ensures var s' := Next(s, a);
            && c in s'.channels && Unregistered(s'.channels[c].pc)
            && (s.channels[c].pc.Exited? ==> s'.channels[c].pc.Exited?)
            && KeysOf(s', c) <= KeysOf(s, c)
  {
    hide Inv, ChannelNext, HandlerNext, ChannelCan, HandlerCan, KeysOf, NobodyHolds;
    UnregisteredIsLetGo(s, c);
    if ChannelCan(s, a) {
      UnregisteredChannelStep(s, a, c);
    } else {
      UnregisteredHandlerStep(s, a, c);
    }
  }

  lemma UnregisteredChannelStep(s: State, a: Action, c: ChannelId)
    requires ChannelCan(s, a) && c in s.channels && Unregistered(s.channels[c].pc)
    ensures var s' := ChannelNext(s, a);
            && c in s'.channels && Unregistered(s'.channels[c].pc)
            && (s.channels[c].pc.Exited? ==> s'.channels[c].pc.Exited?)
            && KeysOf(s', c) <= KeysOf(s, c)
  {
    hide ChannelCan, ChannelNext;
    var d := ChannelEffect(s, a);
    if d == c {
      DepartureGoesOn(s, a, c);
    }
  }

  lemma DepartureGoesOn(s: State, a: Action, c: ChannelId)
    requires ChannelCan(s, a) && c in s.channels && Unregistered(s.channels[c].pc)
    ensures var s' := ChannelNext(s, a);
            && c in s'.channels && Unregistered(s'.channels[c].pc)
            && (s.channels[c].pc.Exited? ==> s'.channels[c].pc.Exited?)
  {
    hide Borrowed, ConnectionClosed, ResponseId, Listens, ProxyId, KeysOf;
  }

  lemma UnregisteredHandlerStep(s: State, a: Action, c: ChannelId)
    requires HandlerCan(s, a) && c in s.channels && NobodyHolds(s, c)
    ensures var s' := HandlerNext(s, a);
            s'.channels == s.channels && KeysOf(s', c) <= KeysOf(s, c)
  {
    hide Borrowed, SenderGone, ProxyId;
  }

  /** Once a channel has unregistered its entries only shrink, over every run; once it has
      exited there is none, and none can ever be inserted. */
  lemma {:induction false} DepartedStaysClean(s: State, c: ChannelId, actions: seq<Action>)
    requires Inv(s) && c in s.channels && Unregistered(s.channels[c].pc) && IsRun(s, actions)
    ensures var s' := Run(s, actions);
            && KeysOf(s', c) <= KeysOf(s, c)
            && NobodyHolds(s', c)
            && (s.channels[c].pc.Exited? ==> KeysOf(s', c) == {})
    decreases |actions|
  {
    hide Can, Next, Inv, KeysOf, NobodyHolds;
    if s.channels[c].pc.Exited? {
      ExitedIsClean(s, c);
    }
    if actions == [] {
      UnregisteredIsLetGo(s, c);
    } else {
      StepKeeps(s, actions[0]);
      UnregisteredStep(s, actions[0], c);
      DepartedStaysClean(Next(s, actions[0]), c, actions[1..]);
    }
  }

  lemma ExitedIsClean(s: State, c: ChannelId)
    requires Inv(s) && c in s.channels && s.channels[c].pc.Exited?
    ensures KeysOf(s, c) == {}
  {
    hide Registrations, Borrowings, Known, NumbersDistinct, Entries, Sending, SendersKnown, Cared, Deliveries, Outcomes;
  }

  /** Every entry belongs to one handler that has not finished, no two to the same, and a
      finished handler has left none behind. */
  lemma EntriesHaveOneOwner(s: State)
    requires Reachable(s)
    ensures forall k :: k in s.awaiting ==>
              var h := s.awaiting[k].handler;
              h in s.handlers && (Listens(s.handlers[h]) || s.handlers[h].phase.Leaving?) && !s.handlers[h].phase.Done?
    ensures forall j, k :: j in s.awaiting && k in s.awaiting && s.awaiting[j].handler == s.awaiting[k].handler ==>
            j == k
  {
    hide Reachable;
    ReachableHolds(s);
    hide Registrations, Borrowings, Known, NumbersDistinct, Departures, Sending, SendersKnown, Cared, Deliveries,
      Outcomes, ProxyId;
  }

  // ---------------------------------------------------------------- answers

  /** What a handler returns came from the channel it asked, under the client's own id:
      the browser's response to its proxy id, or the closing error. */
  lemma AnsweredByOwnChannel(s: State, h: HandlerId)
    requires Reachable(s) && h in s.handlers
    requires s.handlers[h].phase.Done? && s.handlers[h].phase.outcome.Answered?
    ensures h in s.delivered && s.delivered[h].reply == s.handlers[h].phase.outcome.reply
    ensures Numbered(s.handlers[h]) && RightAnswer(s.handlers[h], s.delivered[h])
  {
    hide Reachable;
    ReachableHolds(s);
    hide Registrations, Borrowings, Known, NumbersDistinct, Entries, Departures, Sending, SendersKnown, Cared,
      RightAnswer, ProxyId;
    assert OutcomeFits(s, h);
  }

  lemma DeliveryStays(s: State, a: Action, h: HandlerId)
    requires Inv(s) && Can(s, a) && h in s.delivered
    ensures h in Next(s, a).delivered && Next(s, a).delivered[h] == s.delivered[h]
  {
    hide ChannelNext, HandlerNext, ChannelCan, HandlerCan, Registrations, Borrowings, NumbersDistinct, Entries,
      Departures, SendersKnown, Cared, Deliveries, Outcomes;
    if ChannelCan(s, a) {
      var c := ChannelEffect(s, a);
    } else {
      var g := HandlerEffect(s, a);
    }
  }

  /** A request is completed at most once: over every run the first answer stays. */
  lemma {:induction false} CompletedAtMostOnce(s: State, h: HandlerId, actions: seq<Action>)
    requires Inv(s) && h in s.delivered && IsRun(s, actions)
    ensures h in Run(s, actions).delivered && Run(s, actions).delivered[h] == s.delivered[h]
    decreases |actions|
  {
    hide Can, Next, Inv;
    if actions != [] {
      StepKeeps(s, actions[0]);
      DeliveryStays(s, actions[0], h);
      CompletedAtMostOnce(Next(s, actions[0]), h, actions[1..]);
    }
  }

  /** The closed-oneshot error is never returned: a waiting handler keeps a sender. */
  lemma NoRequestStarves(s: State, h: HandlerId)
    requires Reachable(s)
    ensures !Can(s, Starve(h))
    ensures h in s.handlers && s.handlers[h].phase.Done? ==> s.handlers[h].phase.outcome != ServerError
  {
    hide Reachable;
    ReachableHolds(s);
    hide Registrations, Borrowings, Known, NumbersDistinct, Entries, Departures, Sending, SendersKnown, Cared,
      Deliveries;
    assert h in s.handlers ==> OutcomeFits(s, h);
    NeverStarves(s, h);
  }

  /** A waiting handler is answered, or its channel task is still to act for it, or the
      task has crashed with the entry still there. */
  lemma WaitingIsCaredFor(s: State, h: HandlerId)
    requires Reachable(s) && PhaseAt(s, h).Waiting?
    ensures Numbered(s.handlers[h])
    ensures var k := KeyOf(s.handlers[h]);
            var pc := ChannelAt(s, k.channel);
            || h in s.delivered
            || Sends(pc, h)
            || (k in s.awaiting && s.awaiting[k].handler == h
                && match pc
                   case Listening => true
                   case Answering(_, _) => true
                   case Closing => true
                   case Scanning(due) => k in due
                   case Draining(keys) => k in keys
                   case Failing(keys, _) => k in keys
                   case Crashed => true
                   case _ => false)
  {
    hide Reachable;
    ReachableHolds(s);
    hide Registrations, Borrowings, NumbersDistinct, Entries, Sending, SendersKnown, Deliveries, Outcomes, ProxyId;
    assert Fits(s, s.handlers[h]) && HasHope(s, h);
  }

  /** Nobody waits forever on a channel that has left: its exit answered everyone. */
  lemma DepartedChannelAnsweredAll(s: State, h: HandlerId)
    requires Reachable(s) && PhaseAt(s, h).Waiting?
    requires s.handlers[h].channel.Some? && ChannelAt(s, s.handlers[h].channel.value).Exited?
    ensures Can(s, Take(h))
  {
    hide Reachable;
    WaitingIsCaredFor(s, h);
  }

  /** A handler that waits, or whose message was accepted, has pushed the client's message to
      the channel it found, a request under a proxy id that no other handler's request has. */
  lemma ForwardedUnderProxyId(s: State, h: HandlerId)
    requires Reachable(s) && h in s.handlers
    requires s.handlers[h].phase.Waiting? || s.handlers[h].phase == Done(Accepted)
    ensures s.handlers[h].channel.Some? && s.handlers[h].sent.Some?
    ensures var x, m := s.handlers[h], s.handlers[h].sent.value;
            && m == x.request.(id := m.id)
            && (if x.number.Some? then m.id == Some(ProxyId(x.number.value)) else m == x.request)
            && (x.phase.Waiting? ==> x.number.Some? && RequestId(x.request).Some?)
    ensures forall g :: g in s.handlers && g != h && Numbered(s.handlers[g]) && Numbered(s.handlers[h]) ==>
              KeyOf(s.handlers[g]) != KeyOf(s.handlers[h])
  {
    hide Reachable;
    ReachableHolds(s);
    hide Registrations, Borrowings, Entries, Departures, Sending, SendersKnown, Cared, Deliveries, Outcomes, ProxyId;
    assert Fits(s, s.handlers[h]);
    KeysDistinct(s);
  }

  // ---------------------------------------------------------------- registration

  /** A session loses its channel only to that channel's own exit, to a newly registered
      one, or to a handler whose push through it failed. */
  lemma RegistrationLostToOwnExit(s: State, a: Action, session: SessionId)
    requires Can(s, a) && session in s.sessions
    requires session !in Next(s, a).sessions || Next(s, a).sessions[session] != s.sessions[session]
    ensures var c := s.sessions[session];
            || a == Unregister(c)
            || (a.Register? && a.c != c && s.channels[a.c].session == session)
            || (a.Forget? && s.handlers[a.h].channel == Some(c) && s.handlers[a.h].phase == Unregistering)
  {
    hide ChannelCan, ChannelNext, HandlerCan, HandlerNext;
    if ChannelCan(s, a) {
      ChannelRegisters(s, a, session);
    } else {
      HandlerForgets(s, a, session);
    }
  }

  lemma ChannelRegisters(s: State, a: Action, session: SessionId)
    requires ChannelCan(s, a) && session in s.sessions
    requires session !in ChannelNext(s, a).sessions || ChannelNext(s, a).sessions[session] != s.sessions[session]
    ensures var c := s.sessions[session];
            a == Unregister(c) || (a.Register? && a.c != c && s.channels[a.c].session == session)
  {
    hide Borrowed, KeysOf, ConnectionClosed, ResponseId, Listens;
  }

  lemma HandlerForgets(s: State, a: Action, session: SessionId)
    requires HandlerCan(s, a) && session in s.sessions
    requires session !in HandlerNext(s, a).sessions || HandlerNext(s, a).sessions[session] != s.sessions[session]
    ensures a.Forget? && s.handlers[a.h].channel == Some(s.sessions[session]) && s.handlers[a.h].phase == Unregistering
  {
    hide KeyOf, SenderGone, Borrowed, RequestId;
  }

  // ---------------------------------------------------------------- crashed channels

  ghost predicate StuckAt(s: State, h: HandlerId, c: ChannelId) {
    && PhaseAt(s, h).Waiting?
    && Numbered(s.handlers[h])
    && s.handlers[h].channel == Some(c)
    && h !in s.delivered
    && c in s.channels && s.channels[c].pc.Crashed?
  }

  lemma StuckStep(s: State, a: Action, h: HandlerId, c: ChannelId)
    requires Inv(s) && Can(s, a) && StuckAt(s, h, c) && a != Abort(h)
    ensures StuckAt(Next(s, a), h, c)
  {
    hide ChannelCan, HandlerCan, ChannelNext, HandlerNext, Registrations, Borrowings, Known, NumbersDistinct, Entries,
      Departures, SendersKnown, Cared, Deliveries, Outcomes, KeyOf;
    if ChannelCan(s, a) {
      assert Listens(s.handlers[h]);
      var d := ChannelEffect(s, a);
      assert d in s.channels && Sends(s.channels[d].pc, h) ==> SendsFor(s, d, h);
    } else {
      var g := HandlerEffect(s, a);
      TakeNeedsAnswer(s, h);
      NeverStarves(s, h);
    }
  }

  lemma TakeNeedsAnswer(s: State, h: HandlerId)
    requires h !in s.delivered
    ensures !HandlerCan(s, Take(h))
  {
  }

  /** A channel task that panics on a binary payload skips its cleanup: whoever waits for
      it waits until the agent gives up. */
  lemma {:induction false} CrashStrands(s: State, h: HandlerId, c: ChannelId, actions: seq<Action>)
    requires Inv(s) && StuckAt(s, h, c) && IsRun(s, actions) && Abort(h) !in actions
    ensures StuckAt(Run(s, actions), h, c)
    decreases |actions|
  {
    hide Can, Next, Inv, StuckAt;
    if actions != [] {
      StepKeeps(s, actions[0]);
      StuckStep(s, actions[0], h, c);
      CrashStrands(Next(s, actions[0]), h, c, actions[1..]);
    }
  }

  const ASKED := Message(Some(AcpSession.Number(7)), true, false, false, 3)

  lemma ConnectAndLook() returns (s: State)
    ensures Reachable(s) && s.delivered == map[] && s.nextProxy == 1 && s.channels == map[1 := Channel(0, Listening)]
    ensures s.handlers == map[0 := Handler(0, ASKED, Some(1), None, None, Holding)]
  {
    hide IsRun, Run, Reachable, ProxyId, KeyOf, SenderGone, KeysOf;
    StartReachable();
    s := Follow(INIT, Join(0));
    s := Follow(s, Register(1));
    s := Follow(s, Arrive(0, 0, ASKED));
    s := Follow(s, Look(0));
  }

  lemma InstallAnswer() returns (s: State)
    ensures Reachable(s) && s.delivered == map[] && s.channels == map[1 := Channel(0, Listening)]
    ensures s.handlers == map[0 := Handler(0, ASKED, Some(1), Some(1), None, Ready)]
  {
    hide IsRun, Run, Reachable, ProxyId, SenderGone, KeysOf, Borrowed;
    s := ConnectAndLook();
    s := Follow(s, Draw(0));
    s := Follow(s, Install(0));
  }

  /** Such a state is reached: a request is pushed, then a binary message arrives. */
  lemma CrashHappens() returns (s: State)
    ensures Reachable(s) && StuckAt(s, 0, 1)
  {
    hide IsRun, Run, Reachable, ProxyId, KeyOf, SenderGone, KeysOf, Borrowed;
    s := InstallAnswer();
    s := Follow(s, Push(0, true));
    s := Follow(s, Release(0));
    s := Follow(s, Crash(1));
  }

  lemma StartReachable()
    ensures Reachable(INIT)
  {
    assert IsRun(INIT, []) && Run(INIT, []) == INIT;
  }

  lemma Follow(s: State, a: Action) returns (s': State)
    requires Reachable(s) && Can(s, a)
    ensures s' == Next(s, a) && Reachable(s')
  {
    s' := Next(s, a);
    var actions :| IsRun(INIT, actions) && Run(INIT, actions) == s;
    Append(INIT, actions, a);
  }

  lemma {:induction false} Append(s: State, actions: seq<Action>, a: Action)
    requires IsRun(s, actions) && Can(Run(s, actions), a)
    ensures IsRun(s, actions + [a]) && Run(s, actions + [a]) == Next(Run(s, actions), a)
    decreases |actions|
  {
    hide Can, Next;
    if actions == [] {
      assert [a][1..] == [] && [] + [a] == [a];
    } else {
      Append(Next(s, actions[0]), actions[1..], a);
      assert (actions + [a])[1..] == actions[1..] + [a];
    }
  }
}
