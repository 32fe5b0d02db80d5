/** What a client is told at the end of `_tidewave.ai/session/load`: the error reply, or whether
    the session was cancelled while nobody owned it (tidewave-core/src/ws/acp.rs). */
module AcpReplies {
  import opened AcpSession
  import opened AcpTable
  import opened AcpProtocol
  import opened AcpInvariant
  import opened AcpTheorems
  import opened AcpEffects
  import opened AcpReconnect

  // ---------------------------------------------------------------- the cancelled flag

  /** A reaper marks the state object as cancelled and sends the agent `session/cancel`. */
  predicate Cancels(s: State, a: Action, id: StateId) {
    a.ByReaper? && a.reaperStep.DoStopCancel? && ReaperAt(s, a.n).Stopping? && ReaperAt(s, a.n).state == id
  }

  /** A load replays the state object. */
  predicate Replays(s: State, a: Action, id: StateId) {
    a.ByChannel? && a.channelStep.DoLoadReplay? && At(s, a.c).LoadChecked? && At(s, a.c).state == id
  }

  /** The state after the first `i` actions. */
  function StateAt(s: State, actions: seq<Action>, i: nat): State
    requires IsRun(s, actions) && i <= |actions|
    decreases i
  {
    if i == 0 then s else StateAt(Next(s, actions[0]), actions[1..], i - 1)
  }

  ghost predicate CancelledAt(s: State, actions: seq<Action>, i: int, id: StateId)
    requires IsRun(s, actions)
  {
    0 <= i < |actions| && Cancels(StateAt(s, actions, i), actions[i], id)
  }

  ghost predicate ReplayedAt(s: State, actions: seq<Action>, i: int, id: StateId)
    requires IsRun(s, actions)
  {
    0 <= i < |actions| && Replays(StateAt(s, actions, i), actions[i], id)
  }

  /** In this run a reaper cancels the session, and no load replays it afterwards. */
  ghost predicate CancelledSinceReplay(s: State, actions: seq<Action>, id: StateId)
    requires IsRun(s, actions)
  {
    exists i :: CancelledAt(s, actions, i, id) && forall j :: i < j ==> !ReplayedAt(s, actions, j, id)
  }

  ghost predicate NeverReplayed(s: State, actions: seq<Action>, id: StateId)
    requires IsRun(s, actions)
  {
    forall j :: !ReplayedAt(s, actions, j, id)
  }

  lemma Shift(s: State, actions: seq<Action>, id: StateId)
    requires IsRun(s, actions) && actions != []
    ensures var s1, rest := Next(s, actions[0]), actions[1..];
            && (forall i :: CancelledAt(s, actions, i, id)
                            <==> (i == 0 && Cancels(s, actions[0], id)) || CancelledAt(s1, rest, i - 1, id))
            && (forall i :: ReplayedAt(s, actions, i, id)
                            <==> (i == 0 && Replays(s, actions[0], id)) || ReplayedAt(s1, rest, i - 1, id))
  {
    hide Can, Next, Cancels, Replays;
    var s1, rest := Next(s, actions[0]), actions[1..];
    assert StateAt(s, actions, 0) == s;
    forall i | 0 < i < |actions| ensures StateAt(s, actions, i) == StateAt(s1, rest, i - 1)
        && actions[i] == rest[i - 1] {
    }
  }

  lemma FlagStep(s: State, a: Action, id: StateId)
    requires Inv(s) && Can(s, a)
    ensures StateOf(Next(s, a).states, id).cancelled
            <==> Cancels(s, a, id) || (StateOf(s.states, id).cancelled && !Replays(s, a, id))
  {
    hide Inv, ChannelCan, ChannelNext, ReaperCan, ReaperNext, RouterCan, RouterNext, Settle;
    FreshState(s);
    match a
    case ByChannel(c, step) => ChannelFlag(s, c, step, id);
    case ByReaper(n, step) => ReaperFlag(s, n, step, id);
    case ByRouter(step) => RouterFlag(s, step, id);
  }

  lemma ChannelFlag(s: State, c: ChannelId, a: ChannelStep, id: StateId)
    requires ChannelCan(s, c, a) && s.nextState !in s.states
    ensures StateOf(ChannelNext(s, c, a).states, id).cancelled
            <==> StateOf(s.states, id).cancelled && !Replays(s, ByChannel(c, a), id)
  {
    hide BufferRead, Join, LoadBegin, LoadAcquire, LoadCheck, LoadMap, LoadFinish, ClaimBegin, ClaimFinish, AckBegin,
      AckCheck, Leave, Unmap, Arm, Finish, Send, Replay, Attach, Created, MapChannel, Replayed, After, Seen,
      SameReapers, CountersGrow;
    ChannelFramed(s, c, a);
  }

  lemma ReaperFlag(s: State, n: nat, a: ReaperStep, id: StateId)
    requires ReaperCan(s, n, a)
    ensures StateOf(ReaperNext(s, n, a).states, id).cancelled
            <==> Cancels(s, ByReaper(n, a), id) || StateOf(s.states, id).cancelled
  {
    hide Wake, Probe, TakeLock, StopCheck, StopClose, Discard;
    ReaperFramed(s, n, a);
  }

  lemma RouterFlag(s: State, a: RouterStep, id: StateId)
    requires RouterCan(s, a) && s.nextState !in s.states
    ensures StateOf(RouterNext(s, a).states, id).cancelled <==> StateOf(s.states, id).cancelled
  {
    hide BufferRead, Receive, LookupOwner, PushMessage, RespondFailedCreated, RespondFailedClaim, SenderCheck,
      UnmapLate, ArmLate, LockDrop, DeliverAnswer, OwnerLate, PushLate, FindLate, CloseSession, LockClose, Orderly,
      Created, Labelled;
    RouterFramed(s, a);
  }

  lemma {:induction false} FlagOverRun(s: State, actions: seq<Action>, id: StateId)
    requires Inv(s) && IsRun(s, actions)
    ensures StateOf(Run(s, actions).states, id).cancelled
            <==> CancelledSinceReplay(s, actions, id)
                 || (StateOf(s.states, id).cancelled && NeverReplayed(s, actions, id))
    decreases |actions|
  {
    hide Inv, Can, Next, Cancels, Replays, CancelledAt, ReplayedAt, StateOf;
    if actions == [] {
      NothingHappens(s, id);
    } else {
      var s1, rest := Next(s, actions[0]), actions[1..];
      StepKeeps(s, actions[0]);
      FlagStep(s, actions[0], id);
      FlagOverRun(s1, rest, id);
      Shift(s, actions, id);
      ShiftedCancel(s, actions, id);
      ShiftedReplay(s, actions, id);
    }
  }

  lemma NothingHappens(s: State, id: StateId)
    ensures !CancelledSinceReplay(s, [], id) && NeverReplayed(s, [], id) && Run(s, []) == s
  {
  }

  lemma ShiftedReplay(s: State, actions: seq<Action>, id: StateId)
    requires IsRun(s, actions) && actions != []
    ensures NeverReplayed(s, actions, id)
            <==> !Replays(s, actions[0], id) && NeverReplayed(Next(s, actions[0]), actions[1..], id)
  {
    hide Can, Next, Replays, Cancels, CancelledAt, ReplayedAt;
    var s1, rest := Next(s, actions[0]), actions[1..];
    Shift(s, actions, id);
    if NeverReplayed(s, actions, id) {
      assert !ReplayedAt(s, actions, 0, id);
      forall j ensures !ReplayedAt(s1, rest, j, id) {
        assert !ReplayedAt(s, actions, j + 1, id);
      }
    }
  }

  lemma ShiftedCancel(s: State, actions: seq<Action>, id: StateId)
    requires IsRun(s, actions) && actions != []
    ensures var s1, rest := Next(s, actions[0]), actions[1..];
            CancelledSinceReplay(s, actions, id)
            <==> CancelledSinceReplay(s1, rest, id) || (Cancels(s, actions[0], id) && NeverReplayed(s1, rest, id))
  {
    hide Can, Next, Replays, Cancels, CancelledAt, ReplayedAt;
    var s1, rest := Next(s, actions[0]), actions[1..];
    Shift(s, actions, id);
    if CancelledSinceReplay(s, actions, id) {
      var i :| CancelledAt(s, actions, i, id) && forall j :: i < j ==> !ReplayedAt(s, actions, j, id);
      forall j | i - 1 < j ensures !ReplayedAt(s1, rest, j, id) {
        assert !ReplayedAt(s, actions, j + 1, id);
      }
      if !CancelledAt(s1, rest, i - 1, id) {
        AtNegative(s1, rest, id);
        assert NeverReplayed(s1, rest, id);
      }
    }
    if CancelledSinceReplay(s1, rest, id) {
      var i :| CancelledAt(s1, rest, i, id) && forall j :: i < j ==> !ReplayedAt(s1, rest, j, id);
      AtNegative(s1, rest, id);
      assert CancelledAt(s, actions, i + 1, id);
    }
    if Cancels(s, actions[0], id) && NeverReplayed(s1, rest, id) {
      assert CancelledAt(s, actions, 0, id);
    }
  }

  lemma AtNegative(s: State, actions: seq<Action>, id: StateId)
    requires IsRun(s, actions)
    ensures forall j :: j < 0 ==> !ReplayedAt(s, actions, j, id) && !CancelledAt(s, actions, j, id)
  {
  }

  // ---------------------------------------------------------------- one load

  /** The channel is past the replay of a load and will report this flag. */
  predicate Carries(pc: Pc, flag: bool) {
    (pc.LoadReplayed? || pc.LoadMapped?) && pc.wasCancelled == flag
  }

  lemma CarriesStep(s: State, a: Action, c: ChannelId, flag: bool)
    requires Can(s, a) && Carries(At(s, c), flag) && a != ByChannel(c, DoLoadFinish)
    ensures Carries(At(Next(s, a), c), flag)
  {
    hide ChannelCan, ChannelNext, ReaperCan, ReaperNext, RouterCan, RouterNext, Settle;
    if a.ByChannel? && a.c == c {
      OwnStepCarries(s, c, a.channelStep, flag);
    } else {
      StepSpares(s, a, c);
    }
  }

  lemma OwnStepCarries(s: State, c: ChannelId, a: ChannelStep, flag: bool)
    requires ChannelCan(s, c, a) && Carries(At(s, c), flag) && !a.DoLoadFinish?
    ensures Carries(At(ChannelNext(s, c, a), c), flag)
  {
    hide BufferRead, Attach;
  }

  lemma {:induction false} CarriesOverRun(s: State, actions: seq<Action>, c: ChannelId, flag: bool)
    requires IsRun(s, actions) && Carries(At(s, c), flag) && ByChannel(c, DoLoadFinish) !in actions
    ensures Carries(At(Run(s, actions), c), flag)
    decreases |actions|
  {
    hide Can, Next, Carries, At;
    if actions != [] {
      CarriesStep(s, actions[0], c, flag);
      CarriesOverRun(Next(s, actions[0]), actions[1..], c, flag);
    }
  }

  lemma ReplayCarries(s: State, c: ChannelId)
    requires At(s, c).LoadChecked?
    ensures Carries(At(Settle(LoadReplay(s, c)), c), StateOf(s.states, At(s, c).state).cancelled)
  {
    hide Settle, Replay, After, Replayed, Seen, Send;
  }

  lemma FinishReports(s: State, c: ChannelId, flag: bool)
    requires ChannelCan(s, c, DoLoadFinish) && Carries(At(s, c), flag)
    ensures Queue(Settle(LoadFinish(s, c)).queues, c) == Queue(s.queues, c) + [LoadReply(flag)]
    ensures At(Settle(LoadFinish(s, c)), c).Idle?
  {
    hide Settle;
  }

  /** A load that replays after `before` and finishes after `during`: its reply says that the
      session was cancelled if and only if a reaper had cancelled this state object, and no
      load had replayed it since, when this one did. */
  lemma LoadReplyTellsCancel(before: seq<Action>, c: ChannelId, during: seq<Action>) returns (cancelled: bool)
    requires IsRun(INIT, before) && At(Run(INIT, before), c).LoadChecked?
    requires IsRun(Settle(LoadReplay(Run(INIT, before), c)), during) && ByChannel(c, DoLoadFinish) !in during
    requires ChannelCan(Run(Settle(LoadReplay(Run(INIT, before), c)), during), c, DoLoadFinish)
    ensures var s := Run(Settle(LoadReplay(Run(INIT, before), c)), during);
            && Queue(Settle(LoadFinish(s, c)).queues, c) == Queue(s.queues, c) + [LoadReply(cancelled)]
            && At(Settle(LoadFinish(s, c)), c).Idle?
    ensures cancelled <==> CancelledSinceReplay(INIT, before, At(Run(INIT, before), c).state)
  {
    hide IsRun, Run, Inv, Carries, CancelledSinceReplay, NeverReplayed, LoadReplay, LoadFinish, Settle, StateOf, Queue,
      ChannelCan;
    var s1 := Run(INIT, before);
    var id := At(s1, c).state;
    cancelled := StateOf(s1.states, id).cancelled;
    InitHolds();
    FlagOverRun(INIT, before, id);
    NotCancelledAtFirst(id);
    ReplayCarries(s1, c);
    CarriesOverRun(Settle(LoadReplay(s1, c)), during, c, cancelled);
    FinishReports(Run(Settle(LoadReplay(s1, c)), during), c, cancelled);
  }

  lemma NotCancelledAtFirst(id: StateId)
    ensures !StateOf(INIT.states, id).cancelled
  {
  }

  // ---------------------------------------------------------------- every load is answered once

  predicate IsReply(item: Item) {
    item.LoadReply? || item.ErrorReply?
  }

  function Replies(queue: seq<Item>): seq<Item> {
    if queue == [] then [] else
    var last := queue[|queue| - 1];
    Replies(queue[..|queue| - 1]) + if IsReply(last) then [last] else []
  }

  lemma RepliesSent(queue: seq<Item>, item: Item)
    ensures Replies(queue + [item]) == Replies(queue) + if IsReply(item) then [item] else []
  {
    assert (queue + [item])[..|queue|] == queue;
  }

  lemma {:induction false} NoReplies(queue: seq<Item>, items: seq<Item>)
    requires forall i :: 0 <= i < |items| ==> !IsReply(items[i])
    ensures Replies(queue + items) == Replies(queue)
    decreases |items|
  {
    if items == [] {
      assert queue + items == queue;
    } else {
      var n := |items| - 1;
      assert queue + items == (queue + items[..n]) + [items[n]];
      NoReplies(queue, items[..n]);
      RepliesSent(queue + items[..n], items[n]);
    }
  }

  predicate InLoad(pc: Pc) {
    pc.LoadWait? || pc.LoadFound? || pc.LoadBumped? || pc.LoadChecked? || pc.LoadReplayed? || pc.LoadMapped?
  }

  /** The session is unknown when the load has the mutex, or owned when it looks at the owner. */
  predicate Fails(s: State, pc: Pc) {
    || (pc.LoadWait? && pc.sid !in s.sessions)
    || (pc.LoadBumped? && SessionChannel(s.sessions, pc.sid).Some?)
  }

  /** With this step the load goes on without a reply, or ends with the one it deserves. */
  ghost predicate GoesOn(s: State, s': State, c: ChannelId) {
    var before, after := Replies(Queue(s.queues, c)), Replies(Queue(s'.queues, c));
    || (InLoad(At(s', c)) && after == before)
    || (At(s', c).Idle? && Fails(s, At(s, c)) && after == before + [ErrorReply] && s'.sessions == s.sessions
        && s'.states == s.states)
    || (At(s', c).Idle? && At(s, c).LoadMapped? && after == before + [LoadReply(At(s, c).wasCancelled)])
  }

  lemma LoadStep(s: State, a: Action, c: ChannelId)
    requires Can(s, a) && InLoad(At(s, c))
    ensures GoesOn(s, Next(s, a), c)
  {
    hide ChannelCan, ChannelNext, ReaperCan, ReaperNext, RouterCan, RouterNext, Settle, Replies, InLoad, Fails;
    if a.ByChannel? && a.c == c {
      OwnLoadStep(s, c, a.channelStep);
    } else {
      StepSpares(s, a, c);
      match a
      case ByChannel(d, step) => OtherQueue(s, d, step, c);
      case ByReaper(n, step) => ReaperQueues(s, n, step);
      case ByRouter(step) => RouterQueues(s, step, c);
    }
  }

  lemma OwnLoadStep(s: State, c: ChannelId, a: ChannelStep)
    requires ChannelCan(s, c, a) && InLoad(At(s, c))
    ensures GoesOn(s, ChannelNext(s, c, a), c)
  {
    hide BufferRead, LoadReplay, LoadMap, LoadFinish, Replies;
    RepliesSent(Queue(s.queues, c), ErrorReply);
    if a.DoLoadReplay? {
      OwnReplay(s, c);
    } else if a.DoLoadMap? || a.DoLoadFinish? {
      hide ChannelNext;
      OwnEnd(s, c, a);
    }
  }

  lemma OwnEnd(s: State, c: ChannelId, a: ChannelStep)
    requires ChannelCan(s, c, a) && (a.DoLoadMap? || a.DoLoadFinish?)
    ensures GoesOn(s, ChannelNext(s, c, a), c)
  {
    hide Attach, Replies;
    if a.DoLoadFinish? { RepliesSent(Queue(s.queues, c), LoadReply(At(s, c).wasCancelled)); }
  }

  lemma OwnReplay(s: State, c: ChannelId)
    requires At(s, c).LoadChecked?
    ensures At(LoadReplay(s, c), c).LoadReplayed?
    ensures Replies(Queue(LoadReplay(s, c).queues, c)) == Replies(Queue(s.queues, c))
  {
    hide Replies, After, Replayed, Seen;
    var session := StateOf(s.states, At(s, c).state);
    NoReplies(Queue(s.queues, c), Replay(At(s, c).state, Replayed(session, At(s, c).latestId),
        After(session.messageBuffer, At(s, c).latestId)));
  }

  lemma OtherQueue(s: State, d: ChannelId, a: ChannelStep, c: ChannelId)
    requires ChannelCan(s, d, a) && d != c
    ensures Queue(ChannelNext(s, d, a).queues, c) == Queue(s.queues, c)
  {
    hide BufferRead, LoadCheck, LoadReplay, LoadMap, LoadFinish, Claim, Unmapped, LockOf, NextLock;
    if a.DoLoadCheck? || a.DoLoadReplay? || a.DoLoadMap? || a.DoLoadFinish? || a.DoClaim? {
      hide ChannelCan, ChannelNext;
      OtherSends(s, d, a, c);
    }
  }

  lemma OtherSends(s: State, d: ChannelId, a: ChannelStep, c: ChannelId)
    requires ChannelCan(s, d, a) && d != c
    requires a.DoLoadCheck? || a.DoLoadReplay? || a.DoLoadMap? || a.DoLoadFinish? || a.DoClaim?
    ensures Queue(ChannelNext(s, d, a).queues, c) == Queue(s.queues, c)
  {
    hide Attach, Created, Replay, Replayed, After, Seen;
  }

  lemma ReaperQueues(s: State, n: nat, a: ReaperStep)
    requires ReaperCan(s, n, a)
    ensures ReaperNext(s, n, a).queues == s.queues
  {
    hide LockOf, NextLock, Bypass;
  }

  lemma RouterQueues(s: State, a: RouterStep, c: ChannelId)
    requires RouterCan(s, a)
    ensures Replies(Queue(RouterNext(s, a).queues, c)) == Replies(Queue(s.queues, c))
  {
    hide BufferRead, Receive, AppendMessage, LookupOwner, PushMessage, RespondNew, RespondFailedCreated,
      RespondFailedClaim, SenderCheck, UnmapLate, ArmLate, LockDrop, DeliverAnswer, OwnerLate, PushLate, FindLate,
      CloseSession, LockClose, Replies, Queue;
    match a
    case DoPush => PushQueues(s, c);
    case DoDeliver => AnswerQueues(s, c);
    case DoLatePush => LateQueues(s, c);
    case DoReceive(sid, message) => ReceiveQueues(s, sid, message);
    case DoRespondNew(answer, sid) => NewQueues(s, answer, sid);
    case DoRespondFailed(answer, sid, _) =>
      ClaimQueues(s, answer, sid);
      CreatedQueues(s, answer, sid);
    case DoLateArm(n) => ArmQueues(s, n);
    case _ =>
      MessageQueues(s);
      SessionQueues(s);
      SearchQueues(s);
      CloseQueues(s);
  }

  lemma PushQueues(s: State, c: ChannelId)
    requires s.router.Push?
    ensures Replies(Queue(PushMessage(s).queues, c)) == Replies(Queue(s.queues, c))
  {
    hide Replies;
    RepliesSent(Queue(s.queues, c), Logged(s.router.state, s.router.index, s.router.message));
  }

  lemma AnswerQueues(s: State, c: ChannelId)
    requires s.router.Deliver?
    ensures Replies(Queue(DeliverAnswer(s).queues, c)) == Replies(Queue(s.queues, c))
  {
    hide Replies, Forwarded;
    RepliesSent(Queue(s.queues, c), Direct(s.router.answer.message));
  }

  lemma LateQueues(s: State, c: ChannelId)
    requires s.router.LatePush?
    ensures Replies(Queue(PushLate(s).queues, c)) == Replies(Queue(s.queues, c))
  {
    hide Replies, Forwarded;
    RepliesSent(Queue(s.queues, c), Direct(s.router.answer.message));
  }

  lemma ReceiveQueues(s: State, sid: SessionId, message: JsonRpcMessage)
    ensures Receive(s, sid, message).queues == s.queues
  {
  }

  lemma NewQueues(s: State, answer: Answer, sid: SessionId)
    ensures RespondNew(s, answer, sid).queues == s.queues
  {
    hide Orderly, Created;
  }

  lemma ClaimQueues(s: State, answer: Answer, sid: SessionId)
    ensures RespondFailedClaim(s, answer, sid).queues == s.queues
  {
    hide SeenTo;
  }

  lemma CreatedQueues(s: State, answer: Answer, sid: SessionId)
    ensures RespondFailedCreated(s, answer, sid).queues == s.queues
  {
    hide Remove;
  }

  lemma ArmQueues(s: State, n: nat)
    requires s.router.LateArm?
    ensures ArmLate(s, n).queues == s.queues
  {
  }

  lemma MessageQueues(s: State)
    ensures s.router.Append? ==> AppendMessage(s).queues == s.queues
    ensures s.router.Lookup? ==> LookupOwner(s).queues == s.queues
  {
    hide Appended, Labelled, StateOf;
  }

  lemma SessionQueues(s: State)
    ensures s.router.CheckSender? ==> SenderCheck(s).queues == s.queues
    ensures s.router.LateUnmap? ==> UnmapLate(s).queues == s.queues
    ensures s.router.DropLock? ==> LockDrop(s).queues == s.queues
  {
    hide Bypass, Remove, UnmapIfOwnedBy, Owns;
  }

  lemma SearchQueues(s: State)
    ensures s.router.LateOwner? ==> OwnerLate(s).queues == s.queues
    ensures s.router.LateFind? ==> FindLate(s).queues == s.queues
  {
  }

  lemma CloseQueues(s: State)
    ensures s.router.Close? ==> CloseSession(s).queues == s.queues
    ensures s.router.CloseLock? ==> LockClose(s).queues == s.queues
  {
    hide Bypass, Remove;
  }

  /** The run ends with the step that ends the load of `c`. */
  ghost predicate EndsLoad(s: State, actions: seq<Action>, c: ChannelId)
    requires IsRun(s, actions)
    decreases |actions|
  {
    && actions != [] && InLoad(At(s, c))
    && if |actions| == 1 then !InLoad(At(Next(s, actions[0]), c))
       else EndsLoad(Next(s, actions[0]), actions[1..], c)
  }

  /** Whatever the others do meanwhile, a load sends its client exactly one reply, with its last
      step: the error reply if the session is unknown or owned then, changing no session; and
      otherwise, once it has become owner, the flag it found at its replay. */
  lemma {:induction false} LoadIsAnsweredOnce(s: State, actions: seq<Action>, c: ChannelId) returns (x: State,
      reply: Item)
    requires IsRun(s, actions) && EndsLoad(s, actions, c)
    ensures At(Run(s, actions), c).Idle?
    ensures Replies(Queue(Run(s, actions).queues, c)) == Replies(Queue(s.queues, c)) + [reply]
    ensures x == StateAt(s, actions, |actions| - 1)
    ensures if Fails(x, At(x, c)) then
              reply == ErrorReply && Run(s, actions).sessions == x.sessions && Run(s, actions).states == x.states
            else At(x, c).LoadMapped? && reply == LoadReply(At(x, c).wasCancelled)
    decreases |actions|
  {
    hide Can, Next, Replies, Fails, At;
    LoadStep(s, actions[0], c);
    if |actions| == 1 {
      assert actions[1..] == [];
      x := s;
      reply := if Fails(s, At(s, c)) then ErrorReply else LoadReply(At(s, c).wasCancelled);
      MappedIsFine(s, c);
    } else {
      x, reply := LoadIsAnsweredOnce(Next(s, actions[0]), actions[1..], c);
      assert InLoad(At(Next(s, actions[0]), c));
    }
  }

  lemma MappedIsFine(s: State, c: ChannelId)
    ensures At(s, c).LoadMapped? ==> !Fails(s, At(s, c))
  {
  }
}
