/** What agents get from the MCP proxy and what it is made from, over whole runs: each handler's
    message is the one that arrived, each answer is one the browser has sent, and the
    disconnected reply stands for a missing channel or a failed push (tidewave-core/src/ws/mcp.rs). */
module McpOutcomes {
  import opened Wrappers
  import opened McpProtocol
  import opened McpInvariant
  import opened McpSteps
  import opened McpTheorems

  // ---------------------------------------------------------------- the disconnected reply

  /** A disconnected reply carries the id of the client's message, or null if that has none. */
  lemma DisconnectedNamesRequest(s: State, h: HandlerId)
    requires Reachable(s) && h in s.handlers
    requires s.handlers[h].phase.Done? && s.handlers[h].phase.outcome.Disconnected?
    ensures var id, asked := s.handlers[h].phase.outcome.id, s.handlers[h].request.id;
            asked == Some(id) || (asked == None && id.Null?)
  {
    hide Reachable;
    ReachableHolds(s);
    hide Registrations, Borrowings, Known, NumbersDistinct, Entries, Departures, Sending, SendersKnown, Cared,
      Deliveries;
    assert OutcomeFits(s, h);
  }

  /** The handler's lookup finds no channel, or its push fails. */
  predicate Misses(s: State, a: Action, h: HandlerId) {
    (a == Look(h) && h in s.handlers && s.handlers[h].session !in s.sessions) || a == Push(h, false)
  }

  ghost predicate MissesIn(s: State, actions: seq<Action>, h: HandlerId)
    requires IsRun(s, actions)
    decreases |actions|
  {
    actions != [] && (Misses(s, actions[0], h) || MissesIn(Next(s, actions[0]), actions[1..], h))
  }

  /** The handler's phase tells whether it has missed its browser. */
  predicate Tells(s: State, h: HandlerId, missed: bool) {
    if h !in s.handlers then !missed else
    match s.handlers[h].phase
    case Pushed(ok) => missed == !ok
    case Unregistering => missed
    case Leaving(outcome) => missed == outcome.Disconnected?
    case Done(outcome) => missed == outcome.Disconnected?
    case _ => !missed
  }

  lemma TellsStep(s: State, a: Action, h: HandlerId, missed: bool)
    requires Can(s, a) && Tells(s, h, missed)
    ensures Tells(Next(s, a), h, missed || Misses(s, a, h))
  {
    hide ChannelCan, ChannelNext, HandlerCan, HandlerNext;
    if ChannelCan(s, a) {
      var c := ChannelEffect(s, a);
      NotOfHandler(s, a, h);
    } else {
      HandlerTells(s, a, h, missed);
    }
  }

  lemma NotOfHandler(s: State, a: Action, h: HandlerId)
    requires ChannelCan(s, a)
    ensures a != Look(h) && a != Push(h, false)
  {
  }

  lemma HandlerTells(s: State, a: Action, h: HandlerId, missed: bool)
    requires HandlerCan(s, a) && Tells(s, h, missed)
    ensures Tells(HandlerNext(s, a), h, missed || Misses(s, a, h))
  {
    hide SenderGone, Borrowed, KeyOf, ProxyId, RequestId;
  }

  lemma {:induction false} TellsOverRun(s: State, actions: seq<Action>, h: HandlerId, missed: bool)
    requires IsRun(s, actions) && Tells(s, h, missed)
    ensures Tells(Run(s, actions), h, missed || MissesIn(s, actions, h))
    decreases |actions|
  {
    hide Can, Next, Tells, Misses;
    if actions != [] {
      TellsStep(s, actions[0], h, missed);
      TellsOverRun(Next(s, actions[0]), actions[1..], h, missed || Misses(s, actions[0], h));
    }
  }

  /** Over every run: a handler ends with the disconnected reply if and only if its lookup found
      no registered channel or its push failed. */
  lemma DisconnectedExactlyWhenMissed(actions: seq<Action>, h: HandlerId)
    requires IsRun(INIT, actions) && h in Run(INIT, actions).handlers && PhaseAt(Run(INIT, actions), h).Done?
    ensures PhaseAt(Run(INIT, actions), h).outcome.Disconnected? <==> MissesIn(INIT, actions, h)
  {
    hide IsRun, Run, MissesIn;
    TellsOverRun(INIT, actions, h, false);
  }

  // ---------------------------------------------------------------- what arrived

  lemma RequestStep(s: State, a: Action, h: HandlerId)
    requires Can(s, a) && h in Next(s, a).handlers
    ensures var x := Next(s, a).handlers[h];
            if h in s.handlers then x.session == s.handlers[h].session && x.request == s.handlers[h].request
            else a == Arrive(h, x.session, x.request)
  {
    hide ChannelCan, ChannelNext, HandlerCan, HandlerNext;
    if ChannelCan(s, a) {
      var c := ChannelEffect(s, a);
    } else {
      HandlerKeepsRequest(s, a, h);
    }
  }

  lemma HandlerKeepsRequest(s: State, a: Action, h: HandlerId)
    requires HandlerCan(s, a) && h in HandlerNext(s, a).handlers
    ensures var x := HandlerNext(s, a).handlers[h];
            if h in s.handlers then x.session == s.handlers[h].session && x.request == s.handlers[h].request
            else a == Arrive(h, x.session, x.request)
  {
    hide SenderGone, Borrowed, KeyOf, ProxyId, RequestId;
  }

  lemma HandlerFrame(s: State, a: Action)
    requires HandlerCan(s, a)
    ensures var s' := HandlerNext(s, a);
            s'.channels == s.channels && s'.delivered == s.delivered && s.handlers.Keys <= s'.handlers.Keys
  {
    hide SenderGone, Borrowed, KeyOf, ProxyId, RequestId;
  }

  lemma {:induction false} RequestsKept(s: State, actions: seq<Action>, h: HandlerId)
    requires IsRun(s, actions) && h in Run(s, actions).handlers
    ensures var x := Run(s, actions).handlers[h];
            if h in s.handlers then x.session == s.handlers[h].session && x.request == s.handlers[h].request
            else Arrive(h, x.session, x.request) in actions
    decreases |actions|
  {
    hide Can, Next;
    if actions != [] {
      RequestsKept(Next(s, actions[0]), actions[1..], h);
      if h in Next(s, actions[0]).handlers { RequestStep(s, actions[0], h); }
      if h in s.handlers { StillThere(s, actions[0], h); }
    }
  }

  lemma StillThere(s: State, a: Action, h: HandlerId)
    requires Can(s, a) && h in s.handlers
    ensures h in Next(s, a).handlers
  {
    hide ChannelCan, ChannelNext, HandlerCan, HandlerNext;
    if ChannelCan(s, a) {
      var c := ChannelEffect(s, a);
    } else {
      HandlerFrame(s, a);
    }
  }

  /** From the start of any run: a handler works for the session and on the message it was
      called with. */
  lemma HandlersKeepTheirRequest(actions: seq<Action>, h: HandlerId)
    requires IsRun(INIT, actions) && h in Run(INIT, actions).handlers
    ensures Arrive(h, Run(INIT, actions).handlers[h].session, Run(INIT, actions).handlers[h].request) in actions
  {
    hide IsRun, Run;
    RequestsKept(INIT, actions, h);
  }

  // ---------------------------------------------------------------- what browsers sent

  /** The channel is about to answer with this message, or has done so. */
  ghost predicate Has(s: State, c: ChannelId, m: Message) {
    || (c in s.channels && s.channels[c].pc.Answering? && s.channels[c].pc.message == m)
    || (exists h :: h in s.delivered && s.delivered[h].from == c && s.delivered[h].source == Some(m))
  }

  /** The channel has been left, or has failed somebody's request for that. */
  ghost predicate Departs(s: State, c: ChannelId) {
    || (c in s.channels && (s.channels[c].pc.Closing? || Unregistered(s.channels[c].pc)))
    || (exists h :: h in s.delivered && s.delivered[h].from == c && s.delivered[h].source == None)
  }

  lemma HasStep(s: State, a: Action, c: ChannelId, m: Message)
    requires Can(s, a) && Has(Next(s, a), c, m)
    ensures Has(s, c, m) || a == Receive(c, m)
  {
    hide ChannelCan, ChannelNext, HandlerCan, HandlerNext;
    if ChannelCan(s, a) {
      ChannelHas(s, a, c, m);
    } else {
      HandlerFrame(s, a);
    }
  }

  lemma ChannelHas(s: State, a: Action, c: ChannelId, m: Message)
    requires ChannelCan(s, a) && Has(ChannelNext(s, a), c, m)
    ensures Has(s, c, m) || a == Receive(c, m)
  {
    hide Borrowed, KeysOf, ConnectionClosed, ResponseId, Listens;
    var s' := ChannelNext(s, a);
    if h :| h in s'.delivered && s'.delivered[h].from == c && s'.delivered[h].source == Some(m) {
      assert h in s.delivered && s.delivered[h] == s'.delivered[h] ==> Has(s, c, m);
    }
  }

  lemma DepartsStep(s: State, a: Action, c: ChannelId)
    requires Can(s, a) && Departs(Next(s, a), c)
    ensures Departs(s, c) || a == Close(c)
  {
    hide ChannelCan, ChannelNext, HandlerCan, HandlerNext;
    if ChannelCan(s, a) {
      ChannelDeparts(s, a, c);
    } else {
      HandlerFrame(s, a);
    }
  }

  lemma ChannelDeparts(s: State, a: Action, c: ChannelId)
    requires ChannelCan(s, a) && Departs(ChannelNext(s, a), c)
    ensures Departs(s, c) || a == Close(c)
  {
    hide Borrowed, KeysOf, ConnectionClosed, ResponseId, Listens, Received, Departs;
    assert a.Fail? || a.Reply? || a.Receive? || ChannelNext(s, a).delivered == s.delivered;
    if a.Receive? {
      ReceivedLeaves(s, a.c, a.m, c);
    } else if !a.Reply? && !a.Fail? {
      hide ChannelCan, ChannelNext;
      PcDeparts(s, a, c);
    } else {
      hide ChannelCan, ChannelNext;
      SendDeparts(s, a, c);
    }
  }

  lemma ReceivedLeaves(s: State, d: ChannelId, m: Message, c: ChannelId)
    requires ChannelAt(s, d).Listening? && Departs(Received(s, d, m), c)
    ensures Departs(s, c)
  {
    hide ResponseId;
  }

  lemma PcDeparts(s: State, a: Action, c: ChannelId)
    requires ChannelCan(s, a) && !a.Receive? && !a.Reply? && !a.Fail? && Departs(ChannelNext(s, a), c)
    ensures Departs(s, c) || a == Close(c)
  {
    hide Borrowed, KeysOf, Received;
  }

  lemma SendDeparts(s: State, a: Action, c: ChannelId)
    requires ChannelCan(s, a) && (a.Reply? || a.Fail?) && Departs(ChannelNext(s, a), c)
    ensures Departs(s, c)
  {
    hide ConnectionClosed, Listens;
    var s' := ChannelNext(s, a);
    if h :| h in s'.delivered && s'.delivered[h].from == c && s'.delivered[h].source == None {
      assert h in s.delivered && s.delivered[h] == s'.delivered[h] ==> Departs(s, c);
    }
  }

  lemma {:induction false} SourcesKept(s: State, actions: seq<Action>, c: ChannelId, m: Message)
    requires IsRun(s, actions)
    ensures Has(Run(s, actions), c, m) ==> Has(s, c, m) || Receive(c, m) in actions
    ensures Departs(Run(s, actions), c) ==> Departs(s, c) || Close(c) in actions
    decreases |actions|
  {
    hide Can, Next, Has, Departs;
    if actions != [] {
      SourcesKept(Next(s, actions[0]), actions[1..], c, m);
      if Has(Next(s, actions[0]), c, m) { HasStep(s, actions[0], c, m); }
      if Departs(Next(s, actions[0]), c) { DepartsStep(s, actions[0], c); }
    }
  }

  /** From the start of any run: what a handler answers is a message its channel's browser has
      sent, but for the id, or the closing error of a channel that was left. */
  lemma AnswersComeFromTheBrowser(actions: seq<Action>, h: HandlerId)
    requires IsRun(INIT, actions) && h in Run(INIT, actions).handlers
    requires PhaseAt(Run(INIT, actions), h).Done? && PhaseAt(Run(INIT, actions), h).outcome.Answered?
    ensures var s := Run(INIT, actions);
            var x, reply := s.handlers[h], s.handlers[h].phase.outcome.reply;
            && x.channel.Some? && reply.id == RequestId(x.request) && reply.id.Some?
            && ((exists m :: Receive(x.channel.value, m) in actions && reply == m.(id := reply.id))
                || (Close(x.channel.value) in actions && reply == ConnectionClosed(reply.id.value)))
  {
    hide IsRun, Run, Has, Departs, RequestId, ProxyId;
    var s := Run(INIT, actions);
    assert Reachable(s) by { ReachedBy(actions); }
    AnsweredByOwnChannel(s, h);
    var d, c := s.delivered[h], s.handlers[h].channel.value;
    AskedWithId(s, h);
    if d.source.Some? {
      HasDelivered(s, h);
      SourcesKept(INIT, actions, c, d.source.value);
      NothingAtFirst(c, d.source.value);
    } else {
      HasDelivered(s, h);
      SourcesKept(INIT, actions, c, s.handlers[h].request);
      NothingAtFirst(c, s.handlers[h].request);
    }
  }

  lemma ReachedBy(actions: seq<Action>)
    requires IsRun(INIT, actions)
    ensures Reachable(Run(INIT, actions))
  {
    hide IsRun, Run;
  }

  lemma AskedWithId(s: State, h: HandlerId)
    requires Reachable(s) && h in s.handlers && Numbered(s.handlers[h])
    ensures RequestId(s.handlers[h].request).Some?
  {
    hide Reachable;
    ReachableHolds(s);
    hide Registrations, Borrowings, NumbersDistinct, Entries, Departures, Sending, SendersKnown, Cared, Deliveries,
      Outcomes, RequestId;
    assert Fits(s, s.handlers[h]);
  }

  lemma HasDelivered(s: State, h: HandlerId)
    requires h in s.delivered
    ensures s.delivered[h].source.Some? ==> Has(s, s.delivered[h].from, s.delivered[h].source.value)
    ensures s.delivered[h].source.None? ==> Departs(s, s.delivered[h].from)
  {
  }

  lemma NothingAtFirst(c: ChannelId, m: Message)
    ensures !Has(INIT, c, m) && !Departs(INIT, c)
  {
  }

  // ---------------------------------------------------------------- registration

  /** A channel that unregisters, or that a push through it has failed, is not registered any
      more, and one that registers is. */
  lemma RegistrationFollows(s: State, a: Action, session: SessionId)
    requires Inv(s) && Can(s, a)
    ensures a.Register? && s.channels[a.c].session == session ==> Next(s, a).sessions == s.sessions[session := a.c]
    ensures session in s.sessions && a == Unregister(s.sessions[session]) ==> session !in Next(s, a).sessions
    ensures session in s.sessions && a.Forget? && s.handlers[a.h].session == session
              && s.handlers[a.h].channel == Some(s.sessions[session]) ==>
              session !in Next(s, a).sessions
  {
    hide Borrowings, Known, NumbersDistinct, Entries, Departures, Sending, SendersKnown, Cared, Deliveries, Outcomes,
      Borrowed, KeysOf;
  }
}
