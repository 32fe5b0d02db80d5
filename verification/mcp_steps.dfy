/** Every step of the MCP proxy keeps the invariant. */
module McpSteps {
  import opened Wrappers
  import opened McpProtocol
  import opened McpInvariant

  lemma KeysDistinct(s: State)
    requires NumbersDistinct(s)
    ensures forall g, h ::
            g in s.handlers && h in s.handlers && g != h && Numbered(s.handlers[g]) && Numbered(s.handlers[h]) ==>
              KeyOf(s.handlers[g]) != KeyOf(s.handlers[h])
  {
    hide ProxyId;
    forall g, h | g in s.handlers && h in s.handlers && g != h && Numbered(s.handlers[g]) && Numbered(s.handlers[h])
      ensures KeyOf(s.handlers[g]) != KeyOf(s.handlers[h])
    {
      if KeyOf(s.handlers[g]) == KeyOf(s.handlers[h]) {
        ProxyIdInjective(s.handlers[g].number.value, s.handlers[h].number.value);
      }
    }
  }

  /** The sending half of a waiting handler's oneshot is never dropped unused. */
  lemma NeverStarves(s: State, h: HandlerId)
    requires Known(s) && Cared(s)
    ensures !HandlerCan(s, Starve(h))
  {
    if h in s.handlers && s.handlers[h].phase.Waiting? {
      assert Fits(s, s.handlers[h]) && HasHope(s, h);
    }
  }

  /** What one handler step can do to the shared maps. */
  lemma HandlerEffect(s: State, a: Action) returns (h: HandlerId)
    requires HandlerCan(s, a) && Known(s)
    ensures var s' := HandlerNext(s, a);
            && s'.channels == s.channels && s'.delivered == s.delivered
            && h in s'.handlers
            && s'.handlers == s.handlers[h := s'.handlers[h]]
            && (PhaseAt(s, h).Waiting? ==> a == Take(h) || a == Starve(h) || a == Abort(h))
            && (s'.awaiting == s.awaiting || OwnEntryChanges(s, s', h))
            && (h in s.handlers && Unfinished(s.handlers[h]) && s'.handlers[h].phase.Done? ==>
                  OwnEntryChanges(s, s', h))
            && (Listens(s'.handlers[h]) ==>
                  && h in s.handlers
                  && (Listens(s.handlers[h]) || (s.handlers[h].phase.Drawn? && OwnEntryChanges(s, s', h))))
            && (h in s.handlers && Installed(s.handlers[h]) ==>
                  && s'.handlers[h] == s.handlers[h].(sent := s'.handlers[h].sent, phase := s'.handlers[h].phase)
                  && Installed(s'.handlers[h]))
  {
    hide ProxyId;
    h := a.h;
  }

  /** The acting handler keeps knowing only drawn channels and numbers. */
  lemma ActorFits(s: State, a: Action) returns (h: HandlerId)
    requires HandlerCan(s, a) && Known(s) && Registrations(s)
    ensures var s' := HandlerNext(s, a);
            && s'.channels == s.channels && s'.nextChannel == s.nextChannel && s.nextProxy <= s'.nextProxy
            && h in s'.handlers && s'.handlers == s.handlers[h := s'.handlers[h]]
            && Fits(s', s'.handlers[h])
  {
    hide SenderGone, Borrowed, KeyOf, Listens, ProxyId, RequestId;
    h := a.h;
    if a.Arrive? || a.Look? || a.Draw? || a.Install? || a.Push? {
      hide HandlerCan, HandlerNext, Fits;
      RequestFits(s, a);
    } else {
      assert Fits(s, s.handlers[h]);
    }
  }

  lemma RequestFits(s: State, a: Action)
    requires HandlerCan(s, a) && Known(s) && Registrations(s)
    requires a.Arrive? || a.Look? || a.Draw? || a.Install? || a.Push?
    ensures var h, s' := a.h, HandlerNext(s, a);
            && s'.channels == s.channels && s'.nextChannel == s.nextChannel && s.nextProxy <= s'.nextProxy
            && h in s'.handlers && s'.handlers == s.handlers[h := s'.handlers[h]]
            && Fits(s', s'.handlers[h])
  {
    hide SenderGone, Borrowed, KeyOf, Listens, ProxyId, RequestId;
    assert a.h in s.handlers ==> Fits(s, s.handlers[a.h]);
  }

  lemma FitsKeeps(s: State, s': State, x: Handler)
    requires Fits(s, x) && s'.channels == s.channels && s.nextProxy <= s'.nextProxy
    ensures Fits(s', x)
  {
  }

  predicate Unfinished(x: Handler) {
    Numbered(x) && (Listens(x) || x.phase.Leaving?)
  }

  /** The handler installs its entry, or cleans it up when it has finished. */
  ghost predicate OwnEntryChanges(s: State, s': State, h: HandlerId) {
    && h in s.handlers && h in s'.handlers
    && Numbered(s.handlers[h])
    && var x, k := s.handlers[h], KeyOf(s.handlers[h]);
       || (&& x.phase.Drawn? && s'.handlers[h] == x.(phase := Ready)
           && k in s'.awaiting && s'.awaiting == s.awaiting[k := s'.awaiting[k]]
           && s'.awaiting[k].handler == h && RequestId(x.request) == Some(s'.awaiting[k].clientId))
       || (Installed(x) && s'.awaiting == s.awaiting - {k} && s'.handlers[h].phase.Done?)
  }

  /** What one channel step can do to the shared maps. */
  lemma ChannelEffect(s: State, a: Action) returns (c: ChannelId)
    requires ChannelCan(s, a)
    ensures var s' := ChannelNext(s, a);
            && s'.handlers == s.handlers
            && c in s'.channels
            && s'.channels == s.channels[c := s'.channels[c]]
            && (c in s.channels ==> !s.channels[c].pc.Crashed? && !s.channels[c].pc.Exited?)
            && (c in s.channels || !IsSending(s'.channels[c].pc))
            && (Quiet(s, s', c) || Takes(s, s', c) || Delivers(s, s', c))
  {
    hide ResponseId, ConnectionClosed;
    c := if a.Join? then s.nextChannel else a.c;
    match a
    case Drain(_, k) =>
      assert k in s.awaiting ==> TakesEntry(s, ChannelNext(s, a), c, k);
    case Receive(_, m) =>
      if ResponseId(m).Some? {
        var k := Key(s.channels[c].session, c, ResponseId(m).value);
        assert k in s.awaiting ==> TakesEntry(s, ChannelNext(s, a), c, k);
      }
    case _ =>
  }

  predicate IsSending(pc: ChannelPc) {
    pc.Answering? || pc.Failing?
  }

  ghost predicate Quiet(s: State, s': State, c: ChannelId) {
    && s'.awaiting == s.awaiting && s'.delivered == s.delivered
    && !IsSending(ChannelAt(s, c)) && !IsSending(ChannelAt(s', c))
  }

  ghost predicate Takes(s: State, s': State, c: ChannelId) {
    && s'.delivered == s.delivered
    && !IsSending(ChannelAt(s, c)) && IsSending(ChannelAt(s', c))
    && exists k :: TakesEntry(s, s', c, k)
  }

  ghost predicate TakesEntry(s: State, s': State, c: ChannelId, k: Key)
    requires IsSending(ChannelAt(s', c))
  {
    && k in s.awaiting && k.channel == c
    && s'.awaiting == s.awaiting - {k}
    && ChannelAt(s', c).answer == s.awaiting[k]
    && (ChannelAt(s', c).Answering? ==> ResponseId(ChannelAt(s', c).message) == Some(k.id))
  }

  ghost predicate Delivers(s: State, s': State, c: ChannelId) {
    && s'.awaiting == s.awaiting
    && IsSending(ChannelAt(s, c)) && !IsSending(ChannelAt(s', c))
    && var pc := ChannelAt(s, c);
       var h := pc.answer.handler;
       if h in s.handlers && Listens(s.handlers[h]) then
         s'.delivered == s.delivered[h := DeliveryOf(c, pc)]
       else
         s'.delivered == s.delivered
  }

  function DeliveryOf(c: ChannelId, pc: ChannelPc): Delivery
    requires IsSending(pc)
  {
    if pc.Answering? then Delivery(c, Some(pc.message), pc.message.(id := Some(pc.answer.clientId)))
    else Delivery(c, None, ConnectionClosed(pc.answer.clientId))
  }

  lemma ChannelKeepsRegistrations(s: State, a: Action)
    requires ChannelCan(s, a)
    requires Registrations(s)
    ensures Registrations(ChannelNext(s, a))
  {
    hide Borrowed, ConnectionClosed, ResponseId, Listens, ProxyId, Received, Send, KeysOf;
    if a.Receive? {
      ReceivedFrame(s, a.c, a.m);
    } else if a.Reply? || a.Fail? {
      SendFrame();
    }
  }

  lemma ReceivedFrame(s: State, c: ChannelId, m: Message)
    requires ChannelAt(s, c).Listening?
    ensures var s' := Received(s, c, m);
            && s'.sessions == s.sessions && s'.handlers == s.handlers && s'.nextChannel == s.nextChannel
            && s'.nextProxy == s.nextProxy && c in s.channels && c in s'.channels
            && s'.channels == s.channels[c := Channel(s.channels[c].session, s'.channels[c].pc)]
            && (s'.channels[c].pc.Listening? || s'.channels[c].pc.Answering?)
  {
    hide ResponseId;
  }

  lemma SendFrame()
    ensures forall s, h, d :: Send(s, h, d) == s.(delivered := Send(s, h, d).delivered)
  {
  }

  lemma ChannelKeepsBorrowings(s: State, a: Action)
    requires ChannelCan(s, a)
    requires Borrowings(s)
    ensures Borrowings(ChannelNext(s, a))
  {
    hide ConnectionClosed, ResponseId, Listens, ProxyId;
  }

  lemma ChannelKeepsKnown(s: State, a: Action)
    requires ChannelCan(s, a)
    requires Known(s)
    ensures Known(ChannelNext(s, a))
  {
    hide ChannelCan, ChannelNext, RequestId, HasPushed;
    ChannelFrame(s, a);
    forall h | h in s.handlers ensures Fits(ChannelNext(s, a), s.handlers[h]) {
      assert Fits(s, s.handlers[h]);
    }
  }

  /** Channels keep their session, and new ones get the next id. */
  lemma ChannelFrame(s: State, a: Action)
    requires ChannelCan(s, a)
    ensures var s' := ChannelNext(s, a);
            && s'.handlers == s.handlers && s'.nextProxy == s.nextProxy && s.nextChannel <= s'.nextChannel
            && (forall c :: c in s.channels ==> c in s'.channels && s'.channels[c].session == s.channels[c].session)
            && (forall c :: c in s'.channels ==> c in s.channels || c < s'.nextChannel)
  {
    hide Borrowed, ConnectionClosed, Received, Send, KeysOf;
    if a.Receive? {
      ReceivedFrame(s, a.c, a.m);
    } else if a.Reply? || a.Fail? {
      SendFrame();
    }
  }

  lemma ChannelKeepsNumbersDistinct(s: State, a: Action)
    requires ChannelCan(s, a)
    requires NumbersDistinct(s)
    ensures NumbersDistinct(ChannelNext(s, a))
  {
  }

  lemma ChannelKeepsEntries(s: State, a: Action)
    requires ChannelCan(s, a)
    requires Entries(s)
    ensures Entries(ChannelNext(s, a))
  {
    hide ChannelCan, ChannelNext, ProxyId;
    var c := ChannelEffect(s, a);
  }

  lemma ChannelKeepsDepartures(s: State, a: Action)
    requires ChannelCan(s, a)
    requires Departures(s)
    ensures Departures(ChannelNext(s, a))
  {
    hide Borrowed, ConnectionClosed, ResponseId, Listens, ProxyId;
  }

  lemma ChannelKeepsSending(s: State, a: Action)
    requires ChannelCan(s, a)
    requires Sending(s) && Entries(s) && Deliveries(s)
    ensures Sending(ChannelNext(s, a))
  {
    hide ProxyId;
    hide ChannelCan, ChannelNext;
    var c := ChannelEffect(s, a);
  }

  lemma ChannelKeepsSendersKnown(s: State, a: Action)
    requires ChannelCan(s, a)
    requires SendersKnown(s) && Entries(s)
    ensures SendersKnown(ChannelNext(s, a))
  {
    hide ProxyId;
    hide ChannelCan, ChannelNext;
    var c := ChannelEffect(s, a);
  }

  lemma ChannelKeepsCared(s: State, a: Action)
    requires ChannelCan(s, a)
    requires Cared(s)
    ensures Cared(ChannelNext(s, a))
  {
    hide ProxyId;
    hide ChannelCan, ChannelNext;
    var c := ChannelEffect(s, a);
  }

  lemma ChannelKeepsDeliveries(s: State, a: Action)
    requires ChannelCan(s, a)
    requires Deliveries(s) && Sending(s) && SendersKnown(s)
    ensures Deliveries(ChannelNext(s, a))
  {
    hide ProxyId;
    hide ChannelCan, ChannelNext;
    var c := ChannelEffect(s, a);
  }

  lemma ChannelKeepsOutcomes(s: State, a: Action)
    requires ChannelCan(s, a)
    requires Outcomes(s)
    ensures Outcomes(ChannelNext(s, a))
  {
    hide ProxyId;
    hide ChannelCan, ChannelNext;
    var c := ChannelEffect(s, a);
  }

  lemma HandlerKeepsRegistrations(s: State, a: Action)
    requires HandlerCan(s, a)
    requires Registrations(s)
    ensures Registrations(HandlerNext(s, a))
  {
  }

  lemma HandlerKeepsBorrowings(s: State, a: Action)
    requires HandlerCan(s, a)
    requires Borrowings(s)
    ensures Borrowings(HandlerNext(s, a))
  {
  }

  lemma HandlerKeepsKnown(s: State, a: Action)
    requires HandlerCan(s, a)
    requires Known(s) && Registrations(s)
    ensures Known(HandlerNext(s, a))
  {
    hide ProxyId;
    hide HandlerCan, HandlerNext, Fits;
    var h := ActorFits(s, a);
    forall g | g in s.handlers && g != h ensures Fits(HandlerNext(s, a), s.handlers[g]) {
      FitsKeeps(s, HandlerNext(s, a), s.handlers[g]);
    }
  }

  lemma HandlerKeepsNumbersDistinct(s: State, a: Action)
    requires HandlerCan(s, a)
    requires NumbersDistinct(s) && Known(s)
    ensures NumbersDistinct(HandlerNext(s, a))
  {
    hide ProxyId, Borrowed, SenderGone;
  }

  lemma HandlerKeepsEntries(s: State, a: Action)
    requires HandlerCan(s, a)
    requires Entries(s) && Known(s) && NumbersDistinct(s)
    ensures Entries(HandlerNext(s, a))
  {
    hide HandlerCan, HandlerNext, ProxyId, RequestId;
    var h := HandlerEffect(s, a);
    KeysDistinct(s);
  }

  lemma HandlerKeepsDepartures(s: State, a: Action)
    requires HandlerCan(s, a)
    requires Departures(s) && Borrowings(s) && Registrations(s)
    ensures Departures(HandlerNext(s, a))
  {
  }

  lemma HandlerKeepsSending(s: State, a: Action)
    requires HandlerCan(s, a)
    requires Known(s) && Sending(s) && SendersKnown(s) && NumbersDistinct(s)
    ensures Sending(HandlerNext(s, a))
  {
    hide ProxyId;
    hide HandlerCan, HandlerNext;
    var h := HandlerEffect(s, a);
    KeysDistinct(s);
  }

  lemma HandlerKeepsSendersKnown(s: State, a: Action)
    requires HandlerCan(s, a)
    requires SendersKnown(s) && Known(s)
    ensures SendersKnown(HandlerNext(s, a))
  {
    hide HandlerCan, HandlerNext, ProxyId;
    var h := HandlerEffect(s, a);
  }

  lemma HandlerKeepsCared(s: State, a: Action)
    requires HandlerCan(s, a)
    requires Cared(s) && Known(s) && NumbersDistinct(s)
    ensures Cared(HandlerNext(s, a))
  {
    hide HandlerCan, HandlerNext, ProxyId, RequestId;
    var h := HandlerEffect(s, a);
    KeysDistinct(s);
  }

  lemma HandlerKeepsDeliveries(s: State, a: Action)
    requires HandlerCan(s, a)
    requires Known(s) && Deliveries(s) && NumbersDistinct(s)
    ensures Deliveries(HandlerNext(s, a))
  {
    hide ProxyId;
    hide HandlerCan, HandlerNext;
    var h := HandlerEffect(s, a);
    KeysDistinct(s);
  }

  lemma HandlerKeepsOutcomes(s: State, a: Action)
    requires HandlerCan(s, a)
    requires Outcomes(s) && Cared(s) && Known(s)
    ensures Outcomes(HandlerNext(s, a))
  {
    hide HandlerCan, HandlerNext, OutcomeFits, Cared;
    var h := HandlerEffect(s, a);
    ActorOutcome(s, a);
    forall g | g in HandlerNext(s, a).handlers ensures OutcomeFits(HandlerNext(s, a), g) {
      if g in s.handlers && HandlerNext(s, a).handlers[g] == s.handlers[g] {
        assert OutcomeFits(s, g);
        SameOutcome(s, HandlerNext(s, a), g);
      }
    }
  }

  lemma SameOutcome(s: State, s': State, g: HandlerId)
    requires g in s.handlers && OutcomeFits(s, g)
    requires g in s'.handlers && s'.handlers[g] == s.handlers[g] && s'.delivered == s.delivered
    ensures OutcomeFits(s', g)
  {
  }

  /** The outcome a handler gets or keeps in its own step. */
  lemma ActorOutcome(s: State, a: Action)
    requires HandlerCan(s, a) && Outcomes(s) && Cared(s) && Known(s)
    ensures var s' := HandlerNext(s, a);
            forall g :: g in s'.handlers && (g !in s.handlers || s'.handlers[g] != s.handlers[g]) ==> OutcomeFits(s', g)
  {
    hide ProxyId, KeyOf, Borrowed;
    if a.Starve? { NeverStarves(s, a.h); }
    assert a.h in s.handlers ==> OutcomeFits(s, a.h);
  }
}
