/** The MCP reverse proxy (tidewave-core/src/ws/mcp.rs) as a transition system.

    HTTP handlers forward an agent's messages to the browser channel registered for a
    session and wait for the answer; channel tasks bring answers back, and fail what is
    still waiting when they end. One action is one access to shared data. A handler keeps
    the session's entry borrowed from its lookup until after its push, so writes to that
    entry wait. Whether a push succeeds and what browsers send is left open. */
module McpProtocol {
  import opened Wrappers
  import AcpSession

  type SessionId = nat
  type ChannelId = nat
  type HandlerId = nat
  type JsonId = AcpSession.JsonId

  // ---------------------------------------------------------------- messages

  /** The members of a JSON-RPC object the proxy looks at; `content` is the rest. */
  datatype Message = Message(id: Option<JsonId>, hasMethod: bool, hasResult: bool, hasError: bool, content: nat)

  function RequestId(m: Message): Option<JsonId> {
    if m.hasMethod then m.id else None
  }

  /** A response has no method and exactly one of result and error (section 5 of the
      JSON-RPC 2.0 specification). */
  function ResponseId(m: Message): Option<JsonId> {
    if !m.hasMethod && m.hasResult != m.hasError then m.id else None
  }

  function ProxyId(n: nat): JsonId {
    AcpSession.Text("tw-app-" + AcpSession.Decimal(n))
  }

  lemma ProxyIdInjective(m: nat, n: nat)
    requires ProxyId(m) == ProxyId(n)
    ensures m == n
  {
    assert ProxyId(m).escaped[7..] == AcpSession.Decimal(m) && ProxyId(n).escaped[7..] == AcpSession.Decimal(n);
    AcpSession.DecimalInjective(m, n);
  }

  const CLOSED: nat := 0

  /** The error a departing channel answers with. */
  function ConnectionClosed(clientId: JsonId): Message {
    Message(Some(clientId), false, false, true, CLOSED)
  }

  // ---------------------------------------------------------------- state

  datatype Key = Key(session: SessionId, channel: ChannelId, id: JsonId)

  datatype Answer = Answer(clientId: JsonId, handler: HandlerId)

  /** What went through a handler's oneshot: the browser's message it was made from, or
      none for the error of a departing channel. */
  datatype Delivery = Delivery(from: ChannelId, source: Option<Message>, reply: Message)

  datatype ChannelPc =
    | Joining                                    // has drawn its channel id
    | Listening
    | Answering(answer: Answer, message: Message) // entry removed, about to send
    | Closing                                    // left; about to unregister
    | Scanning(due: set<Key>)                    // unregistered; due: its entries at that moment
    | Draining(keys: set<Key>)
    | Failing(keys: set<Key>, answer: Answer)    // entry removed, about to send the error
    | Exited
    | Crashed                                    // panicked on a binary payload

  datatype Channel = Channel(session: SessionId, pc: ChannelPc)

  datatype Outcome =
    | Disconnected(id: JsonId)
    | Accepted
    | Answered(reply: Message)
    | ServerError
    | Aborted

  datatype Phase =
    | Looking
    | Holding             // session entry borrowed from here ...
    | Drawn               // has drawn its proxy number
    | Ready               // answer installed
    | Pushed(ok: bool)    // ... to here
    | Unregistering       // push failed
    | Waiting
    | Leaving(outcome: Outcome)   // only the drop guard is left to run
    | Done(outcome: Outcome)

  /** A handler: the channel it found, the proxy number it drew if it forwards a request, and
      what it has pushed to the channel's browser. */
  datatype Handler = Handler(
    session: SessionId,
    request: Message,
    channel: Option<ChannelId>,
    number: Option<nat>,
    sent: Option<Message>,
    phase: Phase)

  datatype State = State(
    sessions: map<SessionId, ChannelId>,
    awaiting: map<Key, Answer>,
    nextChannel: nat,
    nextProxy: nat,
    channels: map<ChannelId, Channel>,
    handlers: map<HandlerId, Handler>,
    delivered: map<HandlerId, Delivery>)

  const INIT := State(map[], map[], 1, 1, map[], map[], map[])

  datatype Action =
    | Join(session: SessionId)
    | Register(c: ChannelId)
    | Receive(c: ChannelId, m: Message)
    | Reply(c: ChannelId)
    | Crash(c: ChannelId)
    | Close(c: ChannelId)
    | Unregister(c: ChannelId)
    | EndScan(c: ChannelId, keys: set<Key>)
    | Drain(c: ChannelId, k: Key)
    | Fail(c: ChannelId)
    | Finish(c: ChannelId)
    | Arrive(h: HandlerId, target: SessionId, request: Message)
    | Look(h: HandlerId)
    | Draw(h: HandlerId)
    | Install(h: HandlerId)
    | Push(h: HandlerId, ok: bool)
    | Release(h: HandlerId)
    | Forget(h: HandlerId)
    | Take(h: HandlerId)
    | Starve(h: HandlerId)
    | Abort(h: HandlerId)
    | Cleanup(h: HandlerId)

  // ---------------------------------------------------------------- observations

  /** A channel id that was never drawn counts as gone. */
  function ChannelAt(s: State, c: ChannelId): ChannelPc {
    if c in s.channels then s.channels[c].pc else Exited
  }

  /** The phase of a handler; one that never arrived counts as done. */
  function PhaseAt(s: State, h: HandlerId): Phase {
    if h in s.handlers then s.handlers[h].phase else Done(Aborted)
  }

  predicate Borrows(x: Handler) {
    x.phase.Holding? || x.phase.Drawn? || x.phase.Ready? || x.phase.Pushed?
  }

  /** Some handler has the session's entry borrowed, so it cannot be written. */
  predicate Borrowed(s: State, session: SessionId) {
    exists h :: h in s.handlers && Borrows(s.handlers[h]) && s.handlers[h].session == session
  }

  predicate Numbered(x: Handler) {
    x.channel.Some? && x.number.Some?
  }

  /** The receiving half of the oneshot is alive. */
  predicate Listens(x: Handler) {
    Numbered(x) && (x.phase.Ready? || x.phase.Pushed? || x.phase.Unregistering? || x.phase.Waiting?)
  }

  /** What the browser is sent: the client's message, a request under its proxy id. */
  function Forwarded(x: Handler): Message {
    if x.number.Some? then x.request.(id := Some(ProxyId(x.number.value))) else x.request
  }

  function KeyOf(x: Handler): Key
    requires Numbered(x)
  {
    Key(x.session, x.channel.value, ProxyId(x.number.value))
  }

  function KeysOf(s: State, c: ChannelId): set<Key> {
    set k | k in s.awaiting && k.channel == c
  }

  /** A channel task has taken the handler's entry and is about to send. */
  predicate Sends(pc: ChannelPc, h: HandlerId) {
    (pc.Answering? || pc.Failing?) && pc.answer.handler == h
  }

  /** The sending half of the oneshot was dropped unused. */
  predicate SenderGone(s: State, h: HandlerId) {
    && h !in s.delivered
    && (forall k :: k in s.awaiting ==> s.awaiting[k].handler != h)
    && (forall c :: c in s.channels ==> !Sends(s.channels[c].pc, h))
  }

  // ---------------------------------------------------------------- updates

  function Put(s: State, h: HandlerId, x: Handler): State {
    s.(handlers := s.handlers[h := x])
  }

  function Move(s: State, h: HandlerId, phase: Phase): State
    requires h in s.handlers
  {
    Put(s, h, s.handlers[h].(phase := phase))
  }

  function Turn(s: State, c: ChannelId, pc: ChannelPc): State
    requires c in s.channels
  {
    s.(channels := s.channels[c := s.channels[c].(pc := pc)])
  }

  /** `remove_if`: only the channel that is registered is removed. */
  function Without(s: State, session: SessionId, c: ChannelId): State {
    if session in s.sessions && s.sessions[session] == c then s.(sessions := s.sessions - {session}) else s
  }

  function Send(s: State, h: HandlerId, d: Delivery): State {
    if h in s.handlers && Listens(s.handlers[h]) then s.(delivered := s.delivered[h := d]) else s
  }

  // ---------------------------------------------------------------- channel steps

  predicate ChannelCan(s: State, a: Action) {
    match a
    case Join(_) => s.nextChannel !in s.channels
    case Register(c) => c in s.channels && s.channels[c].pc.Joining? && !Borrowed(s, s.channels[c].session)
    case Receive(c, _) => ChannelAt(s, c).Listening?
    case Reply(c) => ChannelAt(s, c).Answering?
    case Crash(c) => ChannelAt(s, c).Listening?
    case Close(c) => ChannelAt(s, c).Listening?
    case Unregister(c) => c in s.channels && s.channels[c].pc.Closing? && !Borrowed(s, s.channels[c].session)
    case EndScan(c, keys) => ChannelAt(s, c).Scanning? && ChannelAt(s, c).due * s.awaiting.Keys <= keys
        && (forall k :: k in keys ==> k.channel == c)
    case Drain(c, k) => ChannelAt(s, c).Draining? && k in ChannelAt(s, c).keys && k.channel == c
    case Fail(c) => ChannelAt(s, c).Failing?
    case Finish(c) => ChannelAt(s, c) == Draining({})
    case _ => false
  }

  function ChannelNext(s: State, a: Action): State
    requires ChannelCan(s, a)
  {
    match a
    case Join(session) =>
      s.(channels := s.channels[s.nextChannel := Channel(session, Joining)], nextChannel := s.nextChannel + 1)
    case Register(c) =>
      Turn(s, c, Listening).(sessions := s.sessions[s.channels[c].session := c])
    case Receive(c, m) => Received(s, c, m)
    case Reply(c) =>
      var pc := ChannelAt(s, c);
      Send(Turn(s, c, Listening), pc.answer.handler,
          Delivery(c, Some(pc.message), pc.message.(id := Some(pc.answer.clientId))))
    case Crash(c) => Turn(s, c, Crashed)
    case Close(c) => Turn(s, c, Closing)
    case Unregister(c) => Without(Turn(s, c, Scanning(KeysOf(s, c))), s.channels[c].session, c)
    case EndScan(c, keys) => Turn(s, c, Draining(keys))
    case Drain(c, k) =>
      var keys := ChannelAt(s, c).keys - {k};
      if k in s.awaiting then Turn(s, c, Failing(keys, s.awaiting[k])).(awaiting := s.awaiting - {k})
      else Turn(s, c, Draining(keys))
    case Fail(c) =>
      var pc := ChannelAt(s, c);
      Send(Turn(s, c, Draining(pc.keys)), pc.answer.handler, Delivery(c, None, ConnectionClosed(pc.answer.clientId)))
    case Finish(c) => Turn(s, c, Exited)
  }

  /** A response whose id is awaited from this channel takes the entry; anything else the
      browser sends is ignored. */
  function Received(s: State, c: ChannelId, m: Message): State
    requires ChannelAt(s, c).Listening?
  {
    var id := ResponseId(m);
    if id.None? then s else
    var k := Key(s.channels[c].session, c, id.value);
    if k in s.awaiting then Turn(s, c, Answering(s.awaiting[k], m)).(awaiting := s.awaiting - {k}) else s
  }

  // ---------------------------------------------------------------- handler steps

  predicate HandlerCan(s: State, a: Action) {
    match a
    case Arrive(h, _, _) => h !in s.handlers
    case Look(h) => PhaseAt(s, h).Looking?
    case Draw(h) => PhaseAt(s, h).Holding? && RequestId(s.handlers[h].request).Some?
    case Install(h) => PhaseAt(s, h).Drawn? && Numbered(s.handlers[h]) && RequestId(s.handlers[h].request).Some?
    case Push(h, _) => PhaseAt(s, h).Ready? || (PhaseAt(s, h).Holding? && RequestId(s.handlers[h].request).None?)
    case Release(h) => PhaseAt(s, h).Pushed?
    case Forget(h) => PhaseAt(s, h).Unregistering? && s.handlers[h].channel.Some? && !Borrowed(s, s.handlers[h].session)
    case Take(h) => PhaseAt(s, h).Waiting? && h in s.delivered
    case Starve(h) => PhaseAt(s, h).Waiting? && SenderGone(s, h)
    case Abort(h) => PhaseAt(s, h).Waiting?
    case Cleanup(h) => PhaseAt(s, h).Leaving?
    case _ => false
  }

  function HandlerNext(s: State, a: Action): State
    requires HandlerCan(s, a)
  {
    match a
    case Arrive(h, session, request) => Put(s, h, Handler(session, request, None, None, None, Looking))
    case Look(h) =>
      var x := s.handlers[h];
      if x.session in s.sessions then Put(s, h, x.(channel := Some(s.sessions[x.session]), phase := Holding))
      else Move(s, h, Done(NotConnected(x.request)))
    case Draw(h) =>
      Put(s, h, s.handlers[h].(number := Some(s.nextProxy), phase := Drawn)).(nextProxy := s.nextProxy + 1)
    case Install(h) =>
      var x := s.handlers[h];
      Move(s, h, Ready).(awaiting := s.awaiting[KeyOf(x) := Answer(RequestId(x.request).value, h)])
    case Push(h, ok) =>
      var x := s.handlers[h];
      Put(s, h, x.(sent := if ok then Some(Forwarded(x)) else None, phase := Pushed(ok)))
    case Release(h) =>
      var x := s.handlers[h];
      Move(s, h, if !x.phase.ok then Unregistering else if x.number.Some? then Waiting else Done(Accepted))
    case Forget(h) =>
      var x := s.handlers[h];
      Without(Move(s, h, Leaving(NotConnected(x.request))), x.session, x.channel.value)
    case Take(h) => Move(s, h, Leaving(Answered(s.delivered[h].reply)))
    case Starve(h) => Move(s, h, Leaving(ServerError))
    case Abort(h) => Move(s, h, Leaving(Aborted))
    case Cleanup(h) =>
      var x := s.handlers[h];
      var s' := Move(s, h, Done(x.phase.outcome));
      if Numbered(x) then s'.(awaiting := s.awaiting - {KeyOf(x)}) else s'
  }

  /** The disconnected reply repeats the client's id, or null when there is none. */
  function NotConnected(request: Message): Outcome {
    Disconnected(if request.id.Some? then request.id.value else AcpSession.Null)
  }

  // ---------------------------------------------------------------- runs

  predicate Can(s: State, a: Action) {
    ChannelCan(s, a) || HandlerCan(s, a)
  }

  function Next(s: State, a: Action): State
    requires Can(s, a)
  {
    if ChannelCan(s, a) then ChannelNext(s, a) else HandlerNext(s, a)
  }

  predicate IsRun(s: State, actions: seq<Action>)
    decreases |actions|
  {
    actions == [] || (Can(s, actions[0]) && IsRun(Next(s, actions[0]), actions[1..]))
  }

  function Run(s: State, actions: seq<Action>): State
    requires IsRun(s, actions)
    decreases |actions|
  {
    if actions == [] then s else Run(Next(s, actions[0]), actions[1..])
  }

  ghost predicate Reachable(s: State) {
    exists actions :: IsRun(INIT, actions) && Run(INIT, actions) == s
  }
}
