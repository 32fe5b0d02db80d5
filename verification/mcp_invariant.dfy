/** What every step of the MCP proxy keeps. */
module McpInvariant {
  import opened Wrappers
  import opened McpProtocol

  /** A registered channel serves that session and has not unregistered. */
  ghost predicate Registrations(s: State) {
    forall session :: session in s.sessions ==>
      s.sessions[session] in s.channels && Serves(s.channels[s.sessions[session]], session)
  }

  predicate Serves(channel: Channel, session: SessionId) {
    channel.session == session && (channel.pc.Listening? || channel.pc.Answering? || channel.pc.Closing?
        || channel.pc.Crashed?)
  }

  /** A borrowed entry is the one the handler found. */
  ghost predicate Borrowings(s: State) {
    forall h :: h in s.handlers && Borrows(s.handlers[h]) ==>
      var x := s.handlers[h];
      x.session in s.sessions && x.channel == Some(s.sessions[x.session])
  }

  /** Handlers know drawn channels and numbers; a number tells a request. */
  ghost predicate Known(s: State) {
    && (forall c :: c in s.channels ==> c < s.nextChannel)
    && (forall h :: h in s.handlers ==> Fits(s, s.handlers[h]))
  }

  predicate Fits(s: State, x: Handler) {
    && (x.channel.Some? ==> x.channel.value in s.channels && s.channels[x.channel.value].session == x.session)
    && (x.channel.None? ==> x.phase.Looking? || (x.phase.Done? && x.phase.outcome.Disconnected?))
    && (x.number.Some? ==> x.number.value < s.nextProxy && x.channel.Some? && RequestId(x.request).Some?)
    && (x.phase.Looking? || x.phase.Holding? ==> x.number.None?)
    && (x.phase.Drawn? || x.phase.Waiting? ==> x.number.Some?)
    && (HasPushed(x) ==> x.sent == Some(Forwarded(x)))
  }

  predicate HasPushed(x: Handler) {
    || x.phase == Pushed(true)
    || x.phase.Waiting?
    || ((x.phase.Leaving? || x.phase.Done?) && !x.phase.outcome.Disconnected?)
  }

  ghost predicate NumbersDistinct(s: State) {
    forall g, h :: g in s.handlers && h in s.handlers && g != h && s.handlers[g].number.Some? ==>
      s.handlers[g].number != s.handlers[h].number
  }

  /** An entry belongs to the handler that installed it and has not finished. */
  ghost predicate Entries(s: State) {
    forall k :: k in s.awaiting ==> s.awaiting[k].handler in s.handlers && Owns(s.handlers[s.awaiting[k].handler], k,
        s.awaiting[k])
  }

  predicate Owns(x: Handler, k: Key, answer: Answer) {
    && Numbered(x)
    && (Listens(x) || x.phase.Leaving?)
    && k == KeyOf(x)
    && RequestId(x.request) == Some(answer.clientId)
  }

  /** A departing channel's entries are all still on its list, and none is left in the end. */
  ghost predicate Departures(s: State) {
    forall k :: k in s.awaiting ==> k.channel in s.channels && Listed(s.channels[k.channel].pc, k)
  }

  predicate Listed(pc: ChannelPc, k: Key) {
    && (pc.Scanning? ==> k in pc.due)
    && (pc.Draining? || pc.Failing? ==> k in pc.keys)
    && !pc.Exited?
    && !pc.Joining?
  }

  /** What a channel task holds for a handler that still listens. */
  ghost predicate Sending(s: State) {
    forall c, h :: c in s.channels && h in s.handlers && Sends(s.channels[c].pc, h) && Listens(s.handlers[h]) ==>
      SendsFor(s, c, h)
  }

  predicate SendsFor(s: State, c: ChannelId, h: HandlerId)
    requires c in s.channels && h in s.handlers && Sends(s.channels[c].pc, h) && Listens(s.handlers[h])
  {
    var pc, x := s.channels[c].pc, s.handlers[h];
    && x.channel == Some(c)
    && RequestId(x.request) == Some(pc.answer.clientId)
    && (pc.Answering? ==> ResponseId(pc.message) == Some(KeyOf(x).id))
    && h !in s.delivered
    && KeyOf(x) !in s.awaiting
  }

  /** Somebody sends only for handlers that have installed an entry. */
  ghost predicate SendersKnown(s: State) {
    forall c :: c in s.channels && (s.channels[c].pc.Answering? || s.channels[c].pc.Failing?) ==>
      s.channels[c].pc.answer.handler in s.handlers && Installed(s.handlers[s.channels[c].pc.answer.handler])
  }

  predicate Installed(x: Handler) {
    Listens(x) || x.phase.Leaving? || x.phase.Done?
  }

  /** A listening handler has its entry, or a task about to send, or its answer. */
  ghost predicate Cared(s: State) {
    forall h :: h in s.handlers && Listens(s.handlers[h]) ==> HasHope(s, h)
  }

  predicate HasHope(s: State, h: HandlerId)
    requires h in s.handlers && Listens(s.handlers[h])
  {
    var x := s.handlers[h];
    || (KeyOf(x) in s.awaiting && s.awaiting[KeyOf(x)].handler == h)
    || Sends(ChannelAt(s, x.channel.value), h)
    || h in s.delivered
  }

  ghost predicate Deliveries(s: State) {
    forall h :: h in s.delivered ==> h in s.handlers && Delivered(s, h)
  }

  predicate Delivered(s: State, h: HandlerId)
    requires h in s.delivered && h in s.handlers
  {
    var x := s.handlers[h];
    && Installed(x)
    && Numbered(x)
    && KeyOf(x) !in s.awaiting
    && RightAnswer(x, s.delivered[h])
  }

  /** The answer came over the channel that was asked: the browser's response to this
      proxy id or the closing error, under the client's own id. */
  predicate RightAnswer(x: Handler, d: Delivery)
    requires Numbered(x)
  {
    && x.channel == Some(d.from)
    && d.reply.id == RequestId(x.request)
    && match d.source
       case Some(m) => ResponseId(m) == Some(ProxyId(x.number.value)) && d.reply == m.(id := d.reply.id)
       case None => d.reply.id.Some? && d.reply == ConnectionClosed(d.reply.id.value)
  }

  ghost predicate Outcomes(s: State) {
    forall h :: h in s.handlers ==> OutcomeFits(s, h)
  }

  predicate OutcomeFits(s: State, h: HandlerId)
    requires h in s.handlers
  {
    var phase := s.handlers[h].phase;
    (phase.Leaving? || phase.Done?) ==>
      && phase.outcome != ServerError
      && (phase.outcome.Answered? ==> h in s.delivered && phase.outcome.reply == s.delivered[h].reply)
      && (phase.outcome.Disconnected? ==> Names(phase.outcome.id, s.handlers[h].request.id))
  }

  /** The id of the client's message, or null if it has none. */
  predicate Names(id: JsonId, asked: Option<JsonId>) {
    if asked.Some? then id == asked.value else id.Null?
  }

  ghost predicate Inv(s: State) {
    && Registrations(s)
    && Borrowings(s)
    && Known(s)
    && NumbersDistinct(s)
    && Entries(s)
    && Departures(s)
    && Sending(s)
    && SendersKnown(s)
    && Cared(s)
    && Deliveries(s)
    && Outcomes(s)
  }

  lemma InitHolds()
    ensures Inv(INIT)
  {
  }
}
