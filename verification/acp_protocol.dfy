/** The ACP proxy as a transition system: one agent process, any number of browser
    channels that come and go, and the tasks that work on its sessions.

    Tasks and what they run (tidewave-core/src/ws/acp.rs):
      * one task per channel: its client messages and, after them, its cleanup;
      * one router task, which handles everything the agent prints, in order;
      * one reaper task per armed grace-period timer.
    A step is what happens between two points where another task may run. Every
    interleaving of the tasks is a run. The mutexes in `session_lifecycle_locks`
    are objects of their own: the table entry can be discarded while tasks still
    hold or wait for the mutex. */
module AcpProtocol {
  import opened Wrappers
  import opened AcpSession
  import opened AcpTable

  type Lock = nat
  type StateId = nat

  /** A session state object. `log` is its whole message history; the code keeps
      only the unacknowledged part, `messageBuffer`. */
  datatype Session = Session(
    id: SessionId,
    messageBuffer: seq<BufferedMessage>,
    notificationIdCounter: nat,
    cancelled: bool,
    cancelCounter: nat,
    log: seq<BufferedMessage>)

  /** What a channel's outgoing queue holds. `Logged` is a session message, with the
      state object it belongs to and its place in that object's log. */
  datatype Item =
    | Logged(state: StateId, index: nat, message: JsonRpcMessage)
    | Direct(message: JsonRpcMessage)
    | LoadReply(wasCancelled: bool)
    | ErrorReply

  datatype Task = Channel(c: ChannelId) | Reaper(n: nat)

  datatype Pc =
      // a channel between two client messages
    | Idle
      // `_tidewave.ai/session/load`
    | LoadWait(sid: SessionId, lock: Lock, latestId: string)
    | LoadFound(sid: SessionId, lock: Lock, latestId: string, state: StateId)
    | LoadBumped(sid: SessionId, lock: Lock, latestId: string, state: StateId)
    | LoadChecked(sid: SessionId, lock: Lock, latestId: string, state: StateId)
    | LoadReplayed(sid: SessionId, lock: Lock, state: StateId, wasCancelled: bool, base: nat, from: nat)
    | LoadMapped(sid: SessionId, lock: Lock, wasCancelled: bool)
      // `session/load` and `session/resume`
    | ClaimWait(sid: SessionId, lock: Lock)
    | ClaimForward(sid: SessionId, lock: Lock)
      // `_tidewave.ai/ack`
    | AckFound(sid: SessionId, state: StateId, latestId: string)
    | AckOwned(state: StateId, latestId: string)
      // channel cleanup: sender removed, then sessions unmapped and their timers armed
    | Unmapping
    | Arming(unmapped: set<(SessionId, nat)>)
    | Gone
      // the message loop has panicked on a binary payload: no cleanup
    | Crashed
      // reaper
    | Armed(sid: SessionId, counter: nat)
    | Probing(sid: SessionId, counter: nat)
    | Matched(sid: SessionId, state: StateId)
    | StopWait(sid: SessionId, lock: Lock, state: StateId)
    | Stopping(sid: SessionId, lock: Lock, state: StateId)
    | Discarding(sid: SessionId, lock: Lock)
    | Done

  /** A response on its way to the client: the channel that asked, the message with the
      client's id restored, the session it concerns, and the session it closes. */
  datatype Answer = Answer(channel: ChannelId, message: JsonRpcMessage, session: Option<SessionId>,
      close: Option<SessionId>)

  datatype RouterPc =
    | Ready
      // buffered delivery of a session message
    | Append(sid: SessionId, state: StateId, message: JsonRpcMessage, close: Option<SessionId>)
    | Lookup(sid: SessionId, state: StateId, index: nat, message: JsonRpcMessage, close: Option<SessionId>)
    | Push(sid: SessionId, state: StateId, index: nat, message: JsonRpcMessage, target: Option<ChannelId>,
    close: Option<SessionId>)
      // responses
    | CheckSender(answer: Answer, sid: SessionId)
    | LateUnmap(answer: Answer, sid: SessionId)
    | LateArm(answer: Answer, sid: SessionId)
    | DropLock(answer: Answer, sid: SessionId)
    | Deliver(answer: Answer)
    | LateOwner(answer: Answer, sid: SessionId)
    | LatePush(answer: Answer, sid: SessionId, target: Option<ChannelId>)
    | LateFind(answer: Answer, sid: SessionId)
    | Close(sid: SessionId)
    | CloseLock(sid: SessionId)

  /** History: how the current owner of a state object got its messages, unless it became
      owner while the exclusion was bypassed. From queue position `base` on it received the
      log from `from` up to `upto` by replay, and everything later as it was routed; `again`
      tells that the last replayed message was still to be routed when the owner was mapped. */
  datatype Attachment = Attachment(channel: ChannelId, base: nat, from: nat, upto: nat, again: bool)

  /** History: what became of a response. */
  datatype Outcome = Pushed(channel: ChannelId, message: JsonRpcMessage)
      | Buffered(state: StateId, index: nat, message: JsonRpcMessage) | Lost(message: JsonRpcMessage)

  datatype State = State(
    senders: set<ChannelId>,
    queues: map<ChannelId, seq<Item>>,
    sessions: Table<StateId>,
    states: map<StateId, Session>,
    nextState: StateId,
    locks: map<SessionId, Lock>,
    nextLock: Lock,
    held: map<Lock, Task>,
    tasks: map<Task, Pc>,
    router: RouterPc,
    // history, on which nothing above depends
    attached: map<StateId, Attachment>,
    released: set<StateId>,
    bypassed: set<SessionId>,
    outcomes: seq<Outcome>)

  const INIT := State({}, map[], map[], map[], 0, map[], 0, map[], map[], Ready, map[], {}, {}, [])

  // ---------------------------------------------------------------- helpers

  function Queue(queues: map<ChannelId, seq<Item>>, c: ChannelId): seq<Item> {
    if c in queues then queues[c] else []
  }

  function Send(queues: map<ChannelId, seq<Item>>, c: ChannelId, items: seq<Item>): map<ChannelId, seq<Item>> {
    queues[c := Queue(queues, c) + items]
  }

  function Fresh(id: SessionId): Session {
    Session(id, [], 1, false, 0, [])
  }

  function StateOf(states: map<StateId, Session>, id: StateId): Session {
    if id in states then states[id] else Fresh(0)
  }

  /** A task's reference to the lifecycle mutex of a session. */
  datatype LockRef = NoLock | Waits(sid: SessionId, lock: Lock) | Has(sid: SessionId, lock: Lock)

  function Ref(pc: Pc): LockRef {
    match pc
    case LoadWait(sid, lock, _) => Waits(sid, lock)
    case LoadFound(sid, lock, _, _) => Has(sid, lock)
    case LoadBumped(sid, lock, _, _) => Has(sid, lock)
    case LoadChecked(sid, lock, _, _) => Has(sid, lock)
    case LoadReplayed(sid, lock, _, _, _, _) => Has(sid, lock)
    case LoadMapped(sid, lock, _) => Has(sid, lock)
    case ClaimWait(sid, lock) => Waits(sid, lock)
    case ClaimForward(sid, lock) => Has(sid, lock)
    case StopWait(sid, lock, _) => Waits(sid, lock)
    case Stopping(sid, lock, _) => Has(sid, lock)
    case Discarding(sid, lock) => Has(sid, lock)
    case _ => NoLock
  }

  /** `session_lifecycle_lock`: the registered mutex of the session, made on demand. */
  function LockOf(s: State, sid: SessionId): Lock {
    if sid in s.locks then s.locks[sid] else s.nextLock
  }

  function NextLock(s: State, sid: SessionId): Lock {
    if sid in s.locks then s.nextLock else s.nextLock + 1
  }

  /** Some task other than `except` holds or waits for a mutex of the session. */
  predicate Contended(tasks: map<Task, Pc>, sid: SessionId, except: Option<Task>) {
    exists t :: t in tasks && except != Some(t) && Ref(tasks[t]) != NoLock && Ref(tasks[t]).sid == sid
  }

  /** Nobody is past a mutex of the session or waits for another than the registered one. */
  predicate Orderly(s: State, sid: SessionId) {
    forall t :: t in s.tasks && Ref(s.tasks[t]) != NoLock && Ref(s.tasks[t]).sid == sid ==>
      Ref(s.tasks[t]).Waits? && sid in s.locks && Ref(s.tasks[t]).lock == s.locks[sid]
  }

  /** The router has looked the session's owner up and is about to push to it. */
  predicate Pushing(r: RouterPc, sid: SessionId) {
    (r.Push? || r.LatePush?) && r.sid == sid
  }

  /** The mutex entry is discarded: whoever still refers to the mutex is without the exclusion
      it is there for. */
  function Bypass(s: State, sid: SessionId, except: Option<Task>): (b: set<SessionId>)
    ensures s.bypassed <= b <= s.bypassed + {sid}
  {
    if Contended(s.tasks, sid, except) then s.bypassed + {sid} else s.bypassed
  }

  /** A bypassed exclusion is restored as soon as nobody is left who got past it. */
  function Settle(s: State): (s': State)
    ensures s' == s.(bypassed := s'.bypassed) && s'.bypassed <= s.bypassed
  {
    s.(bypassed := set sid | sid in s.bypassed && (!Orderly(s, sid) || Pushing(s.router, sid)))
  }

  /** A replay or a prune excludes appends: someone holds the buffer's read lock. */
  predicate BufferRead(s: State, state: StateId) {
    exists t :: t in s.tasks && s.tasks[t].LoadReplayed? && s.tasks[t].state == state
  }

  function Indices(a: nat, b: nat): (r: seq<nat>)
    requires a <= b
    ensures |r| == b - a
    ensures forall i :: 0 <= i < |r| ==> r[i] == a + i
  {
    seq(b - a, i => a + i)
  }

  function Replay(state: StateId, from: nat, messages: seq<BufferedMessage>): seq<Item> {
    seq(|messages|, i requires 0 <= i < |messages| => Logged(state, from + i, messages[i].message))
  }

  /** Log indices of one state object's messages in a queue, in queue order. */
  function Seen(queue: seq<Item>, state: StateId): seq<nat> {
    if queue == [] then []
    else
      var last := queue[|queue| - 1];
      Seen(queue[..|queue| - 1], state) + if last.Logged? && last.state == state then [last.index] else []
  }

  function Replayed(session: Session, latestId: string): (from: nat)
    ensures from <= |session.log|
  {
    var messages := After(session.messageBuffer, latestId);
    if |messages| <= |session.log| then |session.log| - |messages| else 0
  }

  /** History kept when `c` becomes the owner of `state`. */
  function Attach(s: State, state: StateId, c: ChannelId, base: nat, from: nat): Attachment {
    Attachment(c, base, from, |StateOf(s.states, state).log|, s.router.Lookup? && s.router.state == state)
  }

  /** History kept when `c` becomes the owner of a new state object. */
  function Created(s: State, c: ChannelId): Attachment {
    Attachment(c, |Seen(Queue(s.queues, c), s.nextState)|, 0, 0, false)
  }

  /** This program point sees to the ownerless session: an armed timer with its current counter,
      a reaper past its tests, a cleanup about to arm the timer, or a load about to own it. */
  predicate Covers(pc: Pc, sid: SessionId, state: StateId, counter: nat) {
    match pc
    case Armed(s, k) => s == sid && k == counter
    case Probing(s, k) => s == sid && k == counter
    case Matched(s, o) => s == sid && o == state
    case StopWait(s, _, o) => s == sid && o == state
    case Stopping(s, _, o) => s == sid && o == state
    case Arming(unmapped) => (sid, counter) in unmapped
    case LoadBumped(s, _, _, o) => s == sid && o == state
    case LoadChecked(s, _, _, o) => s == sid && o == state
    case LoadReplayed(s, _, o, _, _, _) => s == sid && o == state
    case _ => false
  }

  predicate TaskCovers(tasks: map<Task, Pc>, sid: SessionId, state: StateId, counter: nat) {
    exists t :: t in tasks && Covers(tasks[t], sid, state, counter)
  }

  // ---------------------------------------------------------------- frames

  /** Only task `t` moves, and the router and its record of late responses stay put. */
  predicate OnlyTask(s: State, s': State, t: Task) {
    && t in s'.tasks && s'.tasks == s.tasks[t := s'.tasks[t]]
    && s'.router == s.router && s'.outcomes == s.outcomes
  }

  predicate SameTable(s: State, s': State) {
    s'.sessions == s.sessions
  }

  predicate SameStates(s: State, s': State) {
    s'.states == s.states
  }

  predicate SameTasks(s: State, s': State) {
    s'.tasks == s.tasks
  }

  predicate SameAttached(s: State, s': State) {
    s'.attached == s.attached
  }

  predicate SameBypassed(s: State, s': State) {
    s'.bypassed == s.bypassed
  }

  /** Senders stay, and the router does not turn to unmapping a late session. */
  predicate NotLate(s: State, s': State) {
    s'.senders == s.senders && (s'.router.LateUnmap? ==> s'.router == s.router)
  }

  /** The router does not turn to arming a late timer. */
  predicate NotArming(s: State, s': State) {
    s'.router.LateArm? ==> s'.router == s.router
  }

  predicate SameOutcomes(s: State, s': State) {
    s'.outcomes == s.outcomes
  }

  // ---------------------------------------------------------------- channel steps

  function At(s: State, c: ChannelId): Pc {
    if Channel(c) in s.tasks then s.tasks[Channel(c)] else Gone
  }

  function Join(s: State, c: ChannelId): (s': State)
    ensures OnlyTask(s, s', Channel(c)) && SameTable(s, s') && SameStates(s, s')
  {
    s.(tasks := s.tasks[Channel(c) := Idle], senders := s.senders + {c})
  }

  function LoadBegin(s: State, c: ChannelId, sid: SessionId, latestId: string): (s': State)
    ensures OnlyTask(s, s', Channel(c)) && SameTable(s, s') && SameStates(s, s')
  {
    s.(tasks := s.tasks[Channel(c) := LoadWait(sid, LockOf(s, sid), latestId)],
       locks := s.locks[sid := LockOf(s, sid)], nextLock := NextLock(s, sid))
  }

  /** Takes the mutex and looks the session up. An unknown session is an error reply. */
  function LoadAcquire(s: State, c: ChannelId): (s': State)
    requires At(s, c).LoadWait?
    ensures OnlyTask(s, s', Channel(c)) && SameTable(s, s') && SameStates(s, s')
  {
    var pc := At(s, c);
    if pc.sid in s.sessions then
      s.(tasks := s.tasks[Channel(c) := LoadFound(pc.sid, pc.lock, pc.latestId, s.sessions[pc.sid].state)],
         held := s.held[pc.lock := Channel(c)])
    else
      s.(tasks := s.tasks[Channel(c) := Idle], queues := Send(s.queues, c, [ErrorReply]))
  }

  function LoadBump(s: State, c: ChannelId): (s': State)
    requires At(s, c).LoadFound?
    ensures OnlyTask(s, s', Channel(c)) && SameTable(s, s')
  {
    var pc := At(s, c);
    var session := StateOf(s.states, pc.state);
    s.(tasks := s.tasks[Channel(c) := LoadBumped(pc.sid, pc.lock, pc.latestId, pc.state)],
       states := s.states[pc.state := session.(cancelCounter := session.cancelCounter + 1)])
  }

  /** `ensure_session_not_active`. */
  function LoadCheck(s: State, c: ChannelId): (s': State)
    requires At(s, c).LoadBumped?
    ensures OnlyTask(s, s', Channel(c)) && SameTable(s, s') && SameStates(s, s')
  {
    var pc := At(s, c);
    if SessionChannel(s.sessions, pc.sid).Some? then
      s.(tasks := s.tasks[Channel(c) := Idle], held := Remove(s.held, pc.lock),
          queues := Send(s.queues, c, [ErrorReply]))
    else
      s.(tasks := s.tasks[Channel(c) := LoadChecked(pc.sid, pc.lock, pc.latestId, pc.state)])
  }

  /** Takes the buffer's read lock and pushes what follows `latestId`. */
  function LoadReplay(s: State, c: ChannelId): (s': State)
    requires At(s, c).LoadChecked?
    ensures OnlyTask(s, s', Channel(c)) && SameTable(s, s')
  {
    var pc := At(s, c);
    var session := StateOf(s.states, pc.state);
    var from := Replayed(session, pc.latestId);
    s.(tasks := s.tasks[Channel(c) := LoadReplayed(pc.sid, pc.lock, pc.state, session.cancelled,
        |Seen(Queue(s.queues, c), pc.state)|, from)],
       states := s.states[pc.state := session.(cancelled := false)],
       queues := Send(s.queues, c, Replay(pc.state, from, After(session.messageBuffer, pc.latestId))),
       attached := if Owns(s.sessions, pc.sid, c) then Remove(s.attached, pc.state) else s.attached)
  }

  /** Becomes the owner, then releases the buffer's read lock. */
  function LoadMap(s: State, c: ChannelId): (s': State)
    requires At(s, c).LoadReplayed?
    ensures OnlyTask(s, s', Channel(c)) && SameStates(s, s')
  {
    var pc := At(s, c);
    var tasks := s.tasks[Channel(c) := LoadMapped(pc.sid, pc.lock, pc.wasCancelled)];
    if pc.sid in s.sessions then
      var state := s.sessions[pc.sid].state;
      s.(tasks := tasks, sessions := MapChannel(s.sessions, pc.sid, c),
         attached := if pc.sid in s.bypassed then Remove(s.attached, state)
             else s.attached[state := Attach(s, state, c, pc.base, pc.from)],
         released := s.released - {state})
    else
      s.(tasks := tasks)
  }

  function LoadFinish(s: State, c: ChannelId): (s': State)
    requires At(s, c).LoadMapped?
    ensures OnlyTask(s, s', Channel(c)) && SameTable(s, s') && SameStates(s, s')
  {
    var pc := At(s, c);
    s.(tasks := s.tasks[Channel(c) := Idle], held := Remove(s.held, pc.lock),
       queues := Send(s.queues, c, [LoadReply(pc.wasCancelled)]))
  }

  function ClaimBegin(s: State, c: ChannelId, sid: SessionId): (s': State)
    ensures OnlyTask(s, s', Channel(c)) && SameTable(s, s') && SameStates(s, s')
  {
    s.(tasks := s.tasks[Channel(c) := ClaimWait(sid, LockOf(s, sid))],
       locks := s.locks[sid := LockOf(s, sid)], nextLock := NextLock(s, sid))
  }

  /** Takes the mutex, then `claim_or_insert_session_channel`. */
  function Claim(s: State, c: ChannelId): (s': State)
    requires At(s, c).ClaimWait?
    ensures OnlyTask(s, s', Channel(c))
  {
    var pc := At(s, c);
    if SessionChannel(s.sessions, pc.sid).Some? then
      s.(tasks := s.tasks[Channel(c) := Idle], queues := Send(s.queues, c, [ErrorReply]))
    else
      var tasks := s.tasks[Channel(c) := ClaimForward(pc.sid, pc.lock)];
      var held := s.held[pc.lock := Channel(c)];
      if pc.sid in s.sessions then
        var state := s.sessions[pc.sid].state;
        s.(tasks := tasks, held := held, sessions := MapChannel(s.sessions, pc.sid, c),
           attached := if pc.sid in s.bypassed then Remove(s.attached, state)
               else s.attached[state := Attach(s, state, c, |Seen(Queue(s.queues, c), state)|,
                   |StateOf(s.states, state).log|)],
           released := s.released - {state})
      else
        s.(tasks := tasks, held := held,
           sessions := s.sessions[pc.sid := SessionEntry(s.nextState, Some(c))],
           states := s.states[s.nextState := Fresh(pc.sid)], nextState := s.nextState + 1,
           attached := s.attached[s.nextState := Created(s, c)])
  }

  function ClaimFinish(s: State, c: ChannelId): (s': State)
    requires At(s, c).ClaimForward?
    ensures OnlyTask(s, s', Channel(c)) && SameTable(s, s') && SameStates(s, s')
  {
    s.(tasks := s.tasks[Channel(c) := Idle], held := Remove(s.held, At(s, c).lock))
  }

  function AckBegin(s: State, c: ChannelId, sid: SessionId, latestId: string): (s': State)
    ensures (s' == s || OnlyTask(s, s', Channel(c))) && SameTable(s, s') && SameStates(s, s')
  {
    if sid in s.sessions then s.(tasks := s.tasks[Channel(c) := AckFound(sid, s.sessions[sid].state, latestId)]) else s
  }

  function AckCheck(s: State, c: ChannelId): (s': State)
    requires At(s, c).AckFound?
    ensures OnlyTask(s, s', Channel(c)) && SameTable(s, s') && SameStates(s, s')
  {
    var pc := At(s, c);
    s.(tasks := s.tasks[Channel(c) := if Owns(s.sessions, pc.sid, c) then AckOwned(pc.state, pc.latestId) else Idle])
  }

  function AckPrune(s: State, c: ChannelId): (s': State)
    requires At(s, c).AckOwned?
    ensures OnlyTask(s, s', Channel(c)) && SameTable(s, s')
  {
    var pc := At(s, c);
    var session := StateOf(s.states, pc.state);
    s.(tasks := s.tasks[Channel(c) := Idle],
       states := s.states[pc.state := session.(messageBuffer := After(session.messageBuffer, pc.latestId))])
  }

  /** The channel is left: its sender goes first. */
  function Leave(s: State, c: ChannelId): (s': State)
    ensures OnlyTask(s, s', Channel(c)) && SameTable(s, s') && SameStates(s, s')
  {
    s.(tasks := s.tasks[Channel(c) := Unmapping], senders := s.senders - {c})
  }

  /** `unmap_sessions_for_channel`, with the counters captured on the way. */
  function Unmapped(s: State, c: ChannelId): set<(SessionId, nat)> {
    set sid | sid in s.sessions && s.sessions[sid].channel == Some(c) ::
        (sid, StateOf(s.states, s.sessions[sid].state).cancelCounter)
  }

  function Unmap(s: State, c: ChannelId): (s': State)
    ensures OnlyTask(s, s', Channel(c)) && SameStates(s, s')
  {
    s.(tasks := s.tasks[Channel(c) := Arming(Unmapped(s, c))], sessions := UnmapAll(s.sessions, c))
  }

  /** Spawns the reaper of one unmapped session. */
  function Arm(s: State, c: ChannelId, timer: (SessionId, nat), n: nat): (s': State)
    requires At(s, c).Arming?
    ensures s'.router == s.router && s'.outcomes == s.outcomes && SameTable(s, s') && SameStates(s, s')
  {
    s.(tasks := s.tasks[Channel(c) := Arming(At(s, c).unmapped - {timer})][Reaper(n) := Armed(timer.0, timer.1)])
  }

  /** A binary payload ends the channel task between two messages. Its sender stays. */
  function Crash(s: State, c: ChannelId): (s': State)
    ensures OnlyTask(s, s', Channel(c)) && SameTable(s, s') && SameStates(s, s')
  {
    s.(tasks := s.tasks[Channel(c) := Crashed])
  }

  function Finish(s: State, c: ChannelId): (s': State)
    ensures OnlyTask(s, s', Channel(c)) && SameTable(s, s') && SameStates(s, s')
  {
    s.(tasks := s.tasks[Channel(c) := Gone])
  }

  datatype ChannelStep =
    | DoJoin
    | DoLoadBegin(loadSid: SessionId, loadLatest: string) | DoLoadAcquire | DoLoadBump | DoLoadCheck | DoLoadReplay
    | DoLoadMap | DoLoadFinish
    | DoClaimBegin(claimSid: SessionId) | DoClaim | DoClaimFinish
    | DoAckBegin(ackSid: SessionId, ackLatest: string) | DoAckCheck | DoAckPrune
    | DoCrash | DoLeave | DoUnmap | DoArm(timer: (SessionId, nat), n: nat) | DoFinish

  predicate ChannelCan(s: State, c: ChannelId, a: ChannelStep) {
    var pc := At(s, c);
    match a
    case DoJoin => Channel(c) !in s.tasks
    case DoLoadBegin(_, _) => pc.Idle?
    case DoLoadAcquire => pc.LoadWait? && pc.lock !in s.held
    case DoLoadBump => pc.LoadFound?
    case DoLoadCheck => pc.LoadBumped?
    case DoLoadReplay => pc.LoadChecked?
    case DoLoadMap => pc.LoadReplayed?
    case DoLoadFinish => pc.LoadMapped?
    case DoClaimBegin(_) => pc.Idle?
    case DoClaim => pc.ClaimWait? && pc.lock !in s.held
    case DoClaimFinish => pc.ClaimForward?
    case DoAckBegin(_, _) => pc.Idle?
    case DoAckCheck => pc.AckFound?
    case DoAckPrune => pc.AckOwned? && !BufferRead(s, pc.state)
    case DoCrash => pc.Idle?
    case DoLeave => pc.Idle?
    case DoUnmap => pc.Unmapping?
    case DoArm(timer, n) => pc.Arming? && timer in pc.unmapped && Reaper(n) !in s.tasks
    case DoFinish => pc.Arming? && pc.unmapped == {}
  }

  function ChannelNext(s: State, c: ChannelId, a: ChannelStep): State
    requires ChannelCan(s, c, a)
  {
    match a
    case DoJoin => Join(s, c)
    case DoLoadBegin(sid, latest) => LoadBegin(s, c, sid, latest)
    case DoLoadAcquire => LoadAcquire(s, c)
    case DoLoadBump => LoadBump(s, c)
    case DoLoadCheck => LoadCheck(s, c)
    case DoLoadReplay => LoadReplay(s, c)
    case DoLoadMap => LoadMap(s, c)
    case DoLoadFinish => LoadFinish(s, c)
    case DoClaimBegin(sid) => ClaimBegin(s, c, sid)
    case DoClaim => Claim(s, c)
    case DoClaimFinish => ClaimFinish(s, c)
    case DoAckBegin(sid, latest) => AckBegin(s, c, sid, latest)
    case DoAckCheck => AckCheck(s, c)
    case DoAckPrune => AckPrune(s, c)
    case DoCrash => Crash(s, c)
    case DoLeave => Leave(s, c)
    case DoUnmap => Unmap(s, c)
    case DoArm(timer, n) => Arm(s, c, timer, n)
    case DoFinish => Finish(s, c)
  }

  // ---------------------------------------------------------------- reaper steps

  function ReaperAt(s: State, n: nat): Pc {
    if Reaper(n) in s.tasks then s.tasks[Reaper(n)] else Done
  }

  /** The grace period is over: first look at the owner. */
  function Wake(s: State, n: nat): (s': State)
    requires ReaperAt(s, n).Armed?
    ensures OnlyTask(s, s', Reaper(n)) && SameTable(s, s') && SameStates(s, s')
  {
    var pc := ReaperAt(s, n);
    s.(tasks := s.tasks[Reaper(n) := if SessionChannel(s.sessions, pc.sid).Some? then Done
        else Probing(pc.sid, pc.counter)])
  }

  /** Then look the session up and compare its counter with the captured one. */
  function Probe(s: State, n: nat): (s': State)
    requires ReaperAt(s, n).Probing?
    ensures OnlyTask(s, s', Reaper(n)) && SameTable(s, s') && SameStates(s, s')
  {
    var pc := ReaperAt(s, n);
    s.(tasks := s.tasks[Reaper(n) :=
      if pc.sid in s.sessions && StateOf(s.states, s.sessions[pc.sid].state).cancelCounter == pc.counter
      then Matched(pc.sid, s.sessions[pc.sid].state)
      else Done])
  }

  function TakeLock(s: State, n: nat): (s': State)
    requires ReaperAt(s, n).Matched?
    ensures OnlyTask(s, s', Reaper(n)) && SameTable(s, s') && SameStates(s, s')
  {
    var pc := ReaperAt(s, n);
    s.(tasks := s.tasks[Reaper(n) := StopWait(pc.sid, LockOf(s, pc.sid), pc.state)],
       locks := s.locks[pc.sid := LockOf(s, pc.sid)], nextLock := NextLock(s, pc.sid))
  }

  /** With the mutex held, only the owner is looked at again. */
  function StopCheck(s: State, n: nat): (s': State)
    requires ReaperAt(s, n).StopWait?
    ensures OnlyTask(s, s', Reaper(n)) && SameTable(s, s') && SameStates(s, s')
  {
    var pc := ReaperAt(s, n);
    if SessionChannel(s.sessions, pc.sid).Some? then
      s.(tasks := s.tasks[Reaper(n) := Done])
    else
      s.(tasks := s.tasks[Reaper(n) := Stopping(pc.sid, pc.lock, pc.state)], held := s.held[pc.lock := Reaper(n)])
  }

  /** The agent supports `session/close`: send it and remove the session. */
  function StopClose(s: State, n: nat): (s': State)
    requires ReaperAt(s, n).Stopping?
    ensures OnlyTask(s, s', Reaper(n)) && SameStates(s, s')
  {
    var pc := ReaperAt(s, n);
    s.(tasks := s.tasks[Reaper(n) := Discarding(pc.sid, pc.lock)], sessions := Remove(s.sessions, pc.sid))
  }

  /** It does not: mark the session and send `session/cancel`. */
  function StopCancel(s: State, n: nat): (s': State)
    requires ReaperAt(s, n).Stopping?
    ensures OnlyTask(s, s', Reaper(n)) && SameTable(s, s')
  {
    var pc := ReaperAt(s, n);
    s.(tasks := s.tasks[Reaper(n) := Done], held := Remove(s.held, pc.lock),
       states := s.states[pc.state := StateOf(s.states, pc.state).(cancelled := true)],
       released := s.released + {pc.state})
  }

  function Discard(s: State, n: nat): (s': State)
    requires ReaperAt(s, n).Discarding?
    ensures OnlyTask(s, s', Reaper(n)) && SameTable(s, s') && SameStates(s, s')
  {
    var pc := ReaperAt(s, n);
    s.(tasks := s.tasks[Reaper(n) := Done], held := Remove(s.held, pc.lock),
       locks := Remove(s.locks, pc.sid), bypassed := Bypass(s, pc.sid, Some(Reaper(n))))
  }

  datatype ReaperStep = DoWake | DoProbe | DoTakeLock | DoStopCheck | DoStopClose | DoStopCancel | DoDiscard

  predicate ReaperCan(s: State, n: nat, a: ReaperStep) {
    var pc := ReaperAt(s, n);
    match a
    case DoWake => pc.Armed?
    case DoProbe => pc.Probing?
    case DoTakeLock => pc.Matched?
    case DoStopCheck => pc.StopWait? && pc.lock !in s.held
    case DoStopClose => pc.Stopping?
    case DoStopCancel => pc.Stopping?
    case DoDiscard => pc.Discarding?
  }

  function ReaperNext(s: State, n: nat, a: ReaperStep): State
    requires ReaperCan(s, n, a)
  {
    match a
    case DoWake => Wake(s, n)
    case DoProbe => Probe(s, n)
    case DoTakeLock => TakeLock(s, n)
    case DoStopCheck => StopCheck(s, n)
    case DoStopClose => StopClose(s, n)
    case DoStopCancel => StopCancel(s, n)
    case DoDiscard => Discard(s, n)
  }

  // ---------------------------------------------------------------- router steps

  /** The agent sends a notification or a request for one session. */
  function Receive(s: State, sid: SessionId, message: JsonRpcMessage): (s': State)
    ensures SameTasks(s, s') && SameTable(s, s') && SameStates(s, s')
    ensures SameAttached(s, s') && SameBypassed(s, s')
    ensures NotLate(s, s')
    ensures NotArming(s, s')
    ensures SameOutcomes(s, s')
  {
    if sid in s.sessions then s.(router := Append(sid, s.sessions[sid].state, message, None)) else s
  }

  function Appended(session: Session, message: JsonRpcMessage): Session {
    var entry := Labelled(message, session.notificationIdCounter);
    session.(messageBuffer := session.messageBuffer + [entry], log := session.log + [entry],
             notificationIdCounter := session.notificationIdCounter + if message.Notification? then 1 else 0)
  }

  function AppendMessage(s: State): (s': State)
    requires s.router.Append?
    ensures SameTasks(s, s') && SameTable(s, s')
    ensures SameAttached(s, s') && SameBypassed(s, s')
    ensures NotLate(s, s')
    ensures NotArming(s, s')
    ensures s.outcomes <= s'.outcomes
  {
    var pc := s.router;
    var session := StateOf(s.states, pc.state);
    s.(states := s.states[pc.state := Appended(session, pc.message)],
       router := Lookup(pc.sid, pc.state, |session.log|, Labelled(pc.message, session.notificationIdCounter).message,
           pc.close),
       outcomes := if pc.message.Response? then s.outcomes + [Buffered(pc.state, |session.log|, pc.message)]
           else s.outcomes)
  }

  function LookupOwner(s: State): (s': State)
    requires s.router.Lookup?
    ensures SameTasks(s, s') && SameTable(s, s') && SameStates(s, s')
    ensures SameAttached(s, s') && SameBypassed(s, s')
    ensures NotLate(s, s')
    ensures NotArming(s, s')
    ensures SameOutcomes(s, s')
  {
    var pc := s.router;
    s.(router := Push(pc.sid, pc.state, pc.index, pc.message, SessionChannel(s.sessions, pc.sid), pc.close))
  }

  /** After the response has been forwarded, `session/close` removes the session. */
  function Forwarded(close: Option<SessionId>): RouterPc {
    match close case None => Ready case Some(sid) => Close(sid)
  }

  function PushMessage(s: State): (s': State)
    requires s.router.Push?
    ensures SameTasks(s, s') && SameTable(s, s') && SameStates(s, s')
    ensures SameAttached(s, s') && SameBypassed(s, s')
    ensures NotLate(s, s')
    ensures NotArming(s, s')
    ensures SameOutcomes(s, s')
  {
    var pc := s.router;
    if pc.target.Some? && pc.target.value in s.senders then
      s.(router := Forwarded(pc.close), queues := Send(s.queues, pc.target.value,
          [Logged(pc.state, pc.index, pc.message)]))
    else
      s.(router := Forwarded(pc.close))
  }

  /** `create_session_from_agent_response`, up to its sender check. */
  function RespondNew(s: State, answer: Answer, sid: SessionId): (s': State)
    ensures SameTasks(s, s')
    ensures NotLate(s, s')
    ensures NotArming(s, s')
    ensures SameOutcomes(s, s')
  {
    var router := CheckSender(answer.(session := Some(sid)), sid);
    if sid in s.sessions then
      s.(router := router)
    else
      s.(router := router,
         sessions := s.sessions[sid := SessionEntry(s.nextState, Some(answer.channel))],
         states := s.states[s.nextState := Fresh(sid)], nextState := s.nextState + 1,
         attached := s.attached[s.nextState := Created(s, answer.channel)],
         bypassed := if Orderly(s, sid) then s.bypassed else s.bypassed + {sid})
  }

  /** A failed load of a session that the load had created. */
  function RespondFailedCreated(s: State, answer: Answer, sid: SessionId): (s': State)
    ensures SameTasks(s, s') && SameStates(s, s')
    ensures SameAttached(s, s') && SameBypassed(s, s')
    ensures NotLate(s, s')
    ensures NotArming(s, s')
    ensures SameOutcomes(s, s')
  {
    if UnownedOrOwnedBy(s.sessions, sid, answer.channel)
    then s.(router := DropLock(answer, sid), sessions := Remove(s.sessions, sid))
    else s.(router := Deliver(answer))
  }

  /** Some task sees to the session. */
  predicate SeenTo(s: State, state: StateId, sid: SessionId) {
    TaskCovers(s.tasks, sid, state, StateOf(s.states, state).cancelCounter)
  }

  /** A failed load of a session that existed before: the claim is released, and `released`
      notes it if nobody sees to the session. */
  function RespondFailedClaim(s: State, answer: Answer, sid: SessionId): (s': State)
    ensures SameTasks(s, s') && SameStates(s, s')
    ensures SameAttached(s, s') && SameBypassed(s, s')
    ensures NotLate(s, s')
    ensures NotArming(s, s')
    ensures SameOutcomes(s, s')
  {
    if Owns(s.sessions, sid, answer.channel)
    then s.(router := Deliver(answer), sessions := UnmapIfOwnedBy(s.sessions, sid, answer.channel),
            released := if SeenTo(s, s.sessions[sid].state, sid) then s.released
                else s.released + {s.sessions[sid].state})
    else s.(router := Deliver(answer))
  }

  function SenderCheck(s: State): (s': State)
    requires s.router.CheckSender?
    ensures SameTasks(s, s') && SameTable(s, s') && SameStates(s, s')
    ensures SameAttached(s, s') && SameBypassed(s, s')
    ensures NotArming(s, s')
    ensures SameOutcomes(s, s')
  {
    var pc := s.router;
    s.(router := if pc.answer.channel in s.senders then Deliver(pc.answer) else LateUnmap(pc.answer, pc.sid))
  }

  function UnmapLate(s: State): (s': State)
    requires s.router.LateUnmap?
    ensures SameTasks(s, s') && SameStates(s, s')
    ensures SameAttached(s, s') && SameBypassed(s, s')
    ensures NotLate(s, s')
    ensures SameOutcomes(s, s')
  {
    var pc := s.router;
    s.(router := if Owns(s.sessions, pc.sid, pc.answer.channel) then LateArm(pc.answer, pc.sid) else Deliver(pc.answer),
       sessions := UnmapIfOwnedBy(s.sessions, pc.sid, pc.answer.channel))
  }

  /** `schedule_reap_if_unmapped`. */
  function ArmLate(s: State, n: nat): (s': State)
    requires s.router.LateArm?
    ensures SameTable(s, s') && SameStates(s, s')
    ensures SameAttached(s, s') && SameBypassed(s, s')
    ensures NotLate(s, s')
    ensures NotArming(s, s')
    ensures SameOutcomes(s, s')
  {
    var pc := s.router;
    if pc.sid in s.sessions then
      s.(router := Deliver(pc.answer),
         tasks := s.tasks[Reaper(n) := Armed(pc.sid, StateOf(s.states, s.sessions[pc.sid].state).cancelCounter)])
    else
      s.(router := Deliver(pc.answer))
  }

  function LockDrop(s: State): (s': State)
    requires s.router.DropLock?
    ensures SameTasks(s, s') && SameTable(s, s') && SameStates(s, s')
    ensures SameAttached(s, s')
    ensures NotLate(s, s')
    ensures NotArming(s, s')
    ensures SameOutcomes(s, s')
  {
    s.(router := Deliver(s.router.answer), locks := Remove(s.locks, s.router.sid),
        bypassed := Bypass(s, s.router.sid, None))
  }

  /** Forwards the response to the channel that asked, if its sender is still there. */
  function DeliverAnswer(s: State): (s': State)
    requires s.router.Deliver?
    ensures SameTasks(s, s') && SameTable(s, s') && SameStates(s, s')
    ensures SameAttached(s, s') && SameBypassed(s, s')
    ensures NotLate(s, s')
    ensures NotArming(s, s')
    ensures s.outcomes <= s'.outcomes
  {
    var answer := s.router.answer;
    if answer.channel in s.senders then
      s.(router := Forwarded(answer.close), queues := Send(s.queues, answer.channel, [Direct(answer.message)]),
         outcomes := s.outcomes + [Pushed(answer.channel, answer.message)])
    else if answer.session.Some? then
      s.(router := LateOwner(answer, answer.session.value))
    else
      s.(router := Forwarded(answer.close), outcomes := s.outcomes + [Lost(answer.message)])
  }

  function OwnerLate(s: State): (s': State)
    requires s.router.LateOwner?
    ensures SameTasks(s, s') && SameTable(s, s') && SameStates(s, s')
    ensures SameAttached(s, s') && SameBypassed(s, s')
    ensures NotLate(s, s')
    ensures NotArming(s, s')
    ensures SameOutcomes(s, s')
  {
    s.(router := LatePush(s.router.answer, s.router.sid, SessionChannel(s.sessions, s.router.sid)))
  }

  function PushLate(s: State): (s': State)
    requires s.router.LatePush?
    ensures SameTasks(s, s') && SameTable(s, s') && SameStates(s, s')
    ensures SameAttached(s, s') && SameBypassed(s, s')
    ensures NotLate(s, s')
    ensures NotArming(s, s')
    ensures s.outcomes <= s'.outcomes
  {
    var pc := s.router;
    if pc.target.Some? && pc.target.value in s.senders then
      s.(router := Forwarded(pc.answer.close), queues := Send(s.queues, pc.target.value, [Direct(pc.answer.message)]),
         outcomes := s.outcomes + [Pushed(pc.target.value, pc.answer.message)])
    else
      s.(router := LateFind(pc.answer, pc.sid))
  }

  function FindLate(s: State): (s': State)
    requires s.router.LateFind?
    ensures SameTasks(s, s') && SameTable(s, s') && SameStates(s, s')
    ensures SameAttached(s, s') && SameBypassed(s, s')
    ensures NotLate(s, s')
    ensures NotArming(s, s')
    ensures s.outcomes <= s'.outcomes
  {
    var pc := s.router;
    if pc.sid in s.sessions then
      s.(router := Append(pc.sid, s.sessions[pc.sid].state, pc.answer.message, pc.answer.close))
    else
      s.(router := Forwarded(pc.answer.close), outcomes := s.outcomes + [Lost(pc.answer.message)])
  }

  function CloseSession(s: State): (s': State)
    requires s.router.Close?
    ensures SameTasks(s, s') && SameStates(s, s')
    ensures SameAttached(s, s') && SameBypassed(s, s')
    ensures NotLate(s, s')
    ensures NotArming(s, s')
    ensures SameOutcomes(s, s')
  {
    s.(router := CloseLock(s.router.sid), sessions := Remove(s.sessions, s.router.sid))
  }

  function LockClose(s: State): (s': State)
    requires s.router.CloseLock?
    ensures SameTasks(s, s') && SameTable(s, s') && SameStates(s, s')
    ensures SameAttached(s, s')
    ensures NotLate(s, s')
    ensures NotArming(s, s')
    ensures SameOutcomes(s, s')
  {
    s.(router := Ready, locks := Remove(s.locks, s.router.sid), bypassed := Bypass(s, s.router.sid, None))
  }

  datatype RouterStep =
    | DoReceive(sid: SessionId, message: JsonRpcMessage) | DoAppend | DoLookup | DoPush
    | DoRespond(other: Answer)
    | DoRespondNew(new_: Answer, newSid: SessionId)
    | DoRespondLoaded(loaded: Answer, loadedSid: SessionId)
    | DoRespondFailed(failed: Answer, failedSid: SessionId, created: bool)
    | DoCheckSender | DoLateUnmap | DoLateArm(n: nat) | DoDropLock
    | DoDeliver | DoLateOwner | DoLatePush | DoLateFind
    | DoClose | DoCloseLock

  /** Any response may answer any channel that ever joined. */
  predicate CanRespond(s: State, answer: Answer) {
    s.router.Ready? && Channel(answer.channel) in s.tasks && answer.message.Response?
  }

  predicate RouterCan(s: State, a: RouterStep) {
    match a
    case DoReceive(_, message) => s.router.Ready? && !message.Response?
    case DoAppend => s.router.Append? && !BufferRead(s, s.router.state)
    case DoLookup => s.router.Lookup?
    case DoPush => s.router.Push?
    case DoRespond(answer) => CanRespond(s, answer)
    case DoRespondNew(answer, _) => CanRespond(s, answer)
    case DoRespondLoaded(answer, _) => CanRespond(s, answer)
    case DoRespondFailed(answer, _, _) => CanRespond(s, answer)
    case DoCheckSender => s.router.CheckSender?
    case DoLateUnmap => s.router.LateUnmap?
    case DoLateArm(n) => s.router.LateArm? && Reaper(n) !in s.tasks
    case DoDropLock => s.router.DropLock?
    case DoDeliver => s.router.Deliver?
    case DoLateOwner => s.router.LateOwner?
    case DoLatePush => s.router.LatePush?
    case DoLateFind => s.router.LateFind?
    case DoClose => s.router.Close?
    case DoCloseLock => s.router.CloseLock?
  }

  function RouterNext(s: State, a: RouterStep): State
    requires RouterCan(s, a)
  {
    match a
    case DoReceive(sid, message) => Receive(s, sid, message)
    case DoAppend => AppendMessage(s)
    case DoLookup => LookupOwner(s)
    case DoPush => PushMessage(s)
    case DoRespond(answer) => s.(router := Deliver(answer))
    case DoRespondNew(answer, sid) => RespondNew(s, answer, sid)
    case DoRespondLoaded(answer, sid) => s.(router := CheckSender(answer, sid))
    case DoRespondFailed(answer, sid, created) => if created then RespondFailedCreated(s, answer, sid)
        else RespondFailedClaim(s, answer, sid)
    case DoCheckSender => SenderCheck(s)
    case DoLateUnmap => UnmapLate(s)
    case DoLateArm(n) => ArmLate(s, n)
    case DoDropLock => LockDrop(s)
    case DoDeliver => DeliverAnswer(s)
    case DoLateOwner => OwnerLate(s)
    case DoLatePush => PushLate(s)
    case DoLateFind => FindLate(s)
    case DoClose => CloseSession(s)
    case DoCloseLock => LockClose(s)
  }

  // ---------------------------------------------------------------- runs

  datatype Action = ByChannel(c: ChannelId, channelStep: ChannelStep) | ByReaper(n: nat, reaperStep: ReaperStep)
      | ByRouter(routerStep: RouterStep)

  predicate Can(s: State, a: Action) {
    match a
    case ByChannel(c, step) => ChannelCan(s, c, step)
    case ByReaper(n, step) => ReaperCan(s, n, step)
    case ByRouter(step) => RouterCan(s, step)
  }

  /** What the action does to the program, and to the history but for restored exclusions. */
  function Taken(s: State, a: Action): State
    requires Can(s, a)
  {
    match a
    case ByChannel(c, step) => ChannelNext(s, c, step)
    case ByReaper(n, step) => ReaperNext(s, n, step)
    case ByRouter(step) => RouterNext(s, step)
  }

  function Next(s: State, a: Action): State
    requires Can(s, a)
  {
    Settle(Taken(s, a))
  }

  /** `actions` can be taken one after the other from `s`. */
  predicate IsRun(s: State, actions: seq<Action>)
    decreases |actions|
  {
    actions == [] || (Can(s, actions[0]) && IsRun(Next(s, actions[0]), actions[1..]))
  }

  function Run(s: State, actions: seq<Action>): State
    requires IsRun(s, actions)
    decreases |actions|
  {
    if actions == [] then s else Run(Next(s, actions[0]), actions[1..])
  }

  ghost predicate Reachable(s: State) {
    exists actions :: IsRun(INIT, actions) && Run(INIT, actions) == s
  }
}
