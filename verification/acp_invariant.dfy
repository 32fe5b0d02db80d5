/** What holds in every reachable state of the ACP proxy. Each predicate takes only
    the parts of the state it speaks about. */
module AcpInvariant {
  import opened Wrappers
  import opened AcpSession
  import opened AcpTable
  import opened AcpProtocol
  import opened AcpLocks

  type Tasks = map<Task, Pc>
  type States = map<StateId, Session>
  type Queues = map<ChannelId, seq<Item>>

  // ---------------------------------------------------------------- tasks and channels

  predicate IsReaperPc(pc: Pc) {
    pc.Armed? || pc.Probing? || pc.Matched? || pc.StopWait? || pc.Stopping? || pc.Discarding? || pc.Done?
  }

  /** The channel's sender is registered: its message loop runs, or has crashed. */
  predicate Connected(pc: Pc) {
    !IsReaperPc(pc) && !pc.Unmapping? && !pc.Arming? && !pc.Gone?
  }

  ghost predicate KindOk(t: Task, pc: Pc, senders: set<ChannelId>) {
    match t
    case Channel(c) => !IsReaperPc(pc) && (Connected(pc) <==> c in senders)
    case Reaper(_) => IsReaperPc(pc)
  }

  ghost predicate SendersOk(tasks: Tasks, senders: set<ChannelId>) {
    && (forall t :: t in tasks ==> KindOk(t, tasks[t], senders))
    && (forall c :: c in senders ==> Channel(c) in tasks)
  }

  // ---------------------------------------------------------------- state objects

  ghost predicate TableOk(sessions: Table<StateId>, states: States, nextState: StateId) {
    && (forall sid :: sid in sessions ==> sessions[sid].state in states && states[sessions[sid].state].id == sid)
    && (forall id :: id in states ==>
          id < nextState && IsSuffix(states[id].messageBuffer, states[id].log)
              && LogWellFormed(states[id].log, states[id].notificationIdCounter))
  }

  /** The state object a task works on, with the session it belongs to. */
  function ObjectOf(pc: Pc): Option<(SessionId, StateId)> {
    match pc
    case LoadFound(sid, _, _, state) => Some((sid, state))
    case LoadBumped(sid, _, _, state) => Some((sid, state))
    case LoadChecked(sid, _, _, state) => Some((sid, state))
    case LoadReplayed(sid, _, state, _, _, _) => Some((sid, state))
    case AckFound(sid, state, _) => Some((sid, state))
    case Matched(sid, state) => Some((sid, state))
    case StopWait(sid, _, state) => Some((sid, state))
    case Stopping(sid, _, state) => Some((sid, state))
    case _ => None
  }

  ghost predicate ObjectOk(pc: Pc, states: States) {
    && (ObjectOf(pc).Some? ==>
          ObjectOf(pc).value.1 in states && states[ObjectOf(pc).value.1].id == ObjectOf(pc).value.0)
    && (pc.AckOwned? ==> pc.state in states)
  }

  ghost predicate ObjectsOk(tasks: Tasks, states: States) {
    forall t :: t in tasks ==> ObjectOk(tasks[t], states)
  }

  predicate Answering(r: RouterPc) {
    r.CheckSender? || r.LateUnmap? || r.LateArm? || r.DropLock? || r.Deliver? || r.LateOwner? || r.LatePush?
        || r.LateFind?
  }

  ghost predicate RouterOk(r: RouterPc, states: States, tasks: Tasks) {
    && (r.Append? || r.Lookup? || r.Push? ==> r.state in states && states[r.state].id == r.sid)
    && (r.Lookup? || r.Push? ==>
          |states[r.state].log| == r.index + 1 && states[r.state].log[r.index].message == r.message)
    && (r.Push? && r.target.Some? ==> Channel(r.target.value) in tasks)
    && (Answering(r) ==> Channel(r.answer.channel) in tasks && r.answer.message.Response?)
  }

  // ---------------------------------------------------------------- ownership

  /** The router has just entered `c` in the table and has yet to check its sender. */
  predicate SenderUnchecked(r: RouterPc, sid: SessionId, c: ChannelId) {
    (r.CheckSender? || r.LateUnmap?) && r.sid == sid && r.answer.channel == c
  }

  ghost predicate OwnerLive(sid: SessionId, c: ChannelId, senders: set<ChannelId>, tasks: Tasks, r: RouterPc) {
    && Channel(c) in tasks
    && (c in senders || tasks[Channel(c)].Unmapping? || SenderUnchecked(r, sid, c))
  }

  ghost predicate OwnersOk(sessions: Table<StateId>, senders: set<ChannelId>, tasks: Tasks, r: RouterPc) {
    forall sid :: sid in sessions && sessions[sid].channel.Some? ==>
        OwnerLive(sid, sessions[sid].channel.value, senders, tasks, r)
  }

  /** A load works on the session's current state object and, once it has seen the session
      without owner, keeps it so; likewise the reaper between its check and its stop. */
  ghost predicate ProgressOk(pc: Pc, sessions: Table<StateId>, bypassed: set<SessionId>) {
    && (pc.LoadFound? || pc.LoadBumped? || pc.LoadChecked? || pc.LoadReplayed? ==>
          pc.sid !in bypassed && pc.sid in sessions ==> sessions[pc.sid].state == pc.state)
    && (pc.LoadChecked? || pc.LoadReplayed? || pc.Stopping? ==>
          pc.sid !in bypassed && pc.sid in sessions ==> sessions[pc.sid].channel == None)
  }

  ghost predicate AllProgressOk(tasks: Tasks, sessions: Table<StateId>, bypassed: set<SessionId>) {
    forall t :: t in tasks ==> ProgressOk(tasks[t], sessions, bypassed)
  }

  /** A connected channel the router is about to push to still owns the session. */
  ghost predicate TargetOk(r: RouterPc, senders: set<ChannelId>, sessions: Table<StateId>, bypassed: set<SessionId>) {
    (r.Push? && r.target.Some? && r.target.value in senders && r.sid !in bypassed && r.sid in sessions
        && sessions[r.sid].state == r.state) ==>
      sessions[r.sid].channel == r.target
  }

  // ---------------------------------------------------------------- delivery

  /** The log indices an owner has received once everything logged has been routed: the
      replay, possibly its last message again, and then the rest of the log. */
  function Expected(a: Attachment, n: nat): seq<nat>
    requires a.from <= a.upto <= n && (a.again ==> a.upto > 0)
  {
    Indices(a.from, a.upto) + (if a.again then [a.upto - 1] else []) + Indices(a.upto, n)
  }

  /** The last logged message is still on its way to `c`. */
  predicate Routing(r: RouterPc, state: StateId, c: ChannelId) {
    (r.Lookup? && r.state == state) || (r.Push? && r.state == state && r.target == Some(c))
  }

  ghost predicate Delivered(queue: seq<Item>, a: Attachment, c: ChannelId, state: StateId, n: nat, routing: bool) {
    && a.channel == c
    && a.from <= a.upto <= n
    && (a.again ==> a.upto > 0)
    && a.base <= |Seen(queue, state)|
    && (routing ==> n > 0)
    && Seen(queue, state)[a.base..] + (if routing then [n - 1] else []) == Expected(a, n)
  }

  ghost predicate SessionDelivered(sid: SessionId, sessions: Table<StateId>, queues: Queues, states: States,
      attached: map<StateId, Attachment>, r: RouterPc)
    requires sid in sessions && sessions[sid].channel.Some?
  {
    var state, c := sessions[sid].state, sessions[sid].channel.value;
    state in attached && Delivered(Queue(queues, c), attached[state], c, state, |StateOf(states, state).log|,
        Routing(r, state, c))
  }

  ghost predicate DeliveryOk(sessions: Table<StateId>, senders: set<ChannelId>, queues: Queues, states: States,
                             attached: map<StateId, Attachment>, r: RouterPc) {
    forall sid ::
      sid in sessions && sessions[sid].state in attached
      && sessions[sid].channel.Some? && sessions[sid].channel.value in senders
      ==> SessionDelivered(sid, sessions, queues, states, attached, r)
  }

  /** Between replay and mapping, the queue holds exactly the replayed messages. */
  ghost predicate ReplayOk(t: Task, pc: Pc, sessions: Table<StateId>, bypassed: set<SessionId>, queues: Queues,
      states: States) {
    pc.LoadReplayed? && t.Channel? && pc.sid in sessions && pc.sid !in bypassed ==>
      var seen, n := Seen(Queue(queues, t.c), pc.state), |StateOf(states, pc.state).log|;
      pc.from <= n && pc.base <= |seen| && seen[pc.base..] == Indices(pc.from, n)
  }

  ghost predicate ReplaysOk(tasks: Tasks, sessions: Table<StateId>, bypassed: set<SessionId>, queues: Queues,
      states: States) {
    forall t :: t in tasks ==> ReplayOk(t, tasks[t], sessions, bypassed, queues, states)
  }

  ghost predicate IsLogged(states: States, state: StateId, i: nat, message: JsonRpcMessage) {
    state in states && i < |states[state].log| && states[state].log[i].message == message
  }

  /** What queues and outcomes say about logs is so. */
  ghost predicate QueuesOk(queues: Queues, states: States) {
    forall c, k :: c in queues && 0 <= k < |queues[c]| && queues[c][k].Logged? ==>
      IsLogged(states, queues[c][k].state, queues[c][k].index, queues[c][k].message)
  }

  ghost predicate OutcomeOk(o: Outcome, queues: Queues, states: States) {
    match o
    case Pushed(c, message) => Direct(message) in Queue(queues, c)
    case Buffered(state, i, message) => IsLogged(states, state, i, message)
    case Lost(_) => true
  }

  ghost predicate OutcomesOk(outcomes: seq<Outcome>, queues: Queues, states: States) {
    forall i :: 0 <= i < |outcomes| ==> OutcomeOk(outcomes[i], queues, states)
  }

  // ---------------------------------------------------------------- reaping

  predicate LateArming(r: RouterPc, sid: SessionId) {
    r.LateArm? && r.sid == sid
  }

  ghost predicate Covered(sid: SessionId, state: StateId, states: States, released: set<StateId>, tasks: Tasks,
      r: RouterPc) {
    || state in released
    || LateArming(r, sid)
    || TaskCovers(tasks, sid, state, StateOf(states, state).cancelCounter)
  }

  ghost predicate CoverageOk(sessions: Table<StateId>, states: States, released: set<StateId>, tasks: Tasks,
      r: RouterPc) {
    forall sid :: sid in sessions && sessions[sid].channel.None? ==>
        Covered(sid, sessions[sid].state, states, released, tasks, r)
  }

  // ---------------------------------------------------------------- all together

  ghost predicate Inv(s: State) {
    && LocksOk(s.tasks, s.locks, s.nextLock, s.held, s.bypassed)
    && SendersOk(s.tasks, s.senders)
    && TableOk(s.sessions, s.states, s.nextState)
    && ObjectsOk(s.tasks, s.states)
    && RouterOk(s.router, s.states, s.tasks)
    && OwnersOk(s.sessions, s.senders, s.tasks, s.router)
    && AllProgressOk(s.tasks, s.sessions, s.bypassed)
    && TargetOk(s.router, s.senders, s.sessions, s.bypassed)
    && DeliveryOk(s.sessions, s.senders, s.queues, s.states, s.attached, s.router)
    && ReplaysOk(s.tasks, s.sessions, s.bypassed, s.queues, s.states)
    && QueuesOk(s.queues, s.states)
    && OutcomesOk(s.outcomes, s.queues, s.states)
    && CoverageOk(s.sessions, s.states, s.released, s.tasks, s.router)
  }
}
