/** Channels of the ACP proxy that crash: a binary payload ends the channel task without its
    cleanup, so its sender and its sessions stay. */
module AcpCrashes {
  import opened AcpSession
  import opened AcpTable
  import opened AcpProtocol
  import opened AcpLocks
  import opened AcpInvariant
  import opened AcpMoves
  import opened AcpTheorems
  import opened AcpEffects
  import opened AcpReconnect
  import opened AcpRuns

  // ---------------------------------------------------------------- late unmapping

  /** The router unmaps a late session only for a channel whose sender is gone for good. */
  predicate LateGone(s: State) {
    s.router.LateUnmap? ==> s.router.answer.channel !in s.senders && Channel(s.router.answer.channel) in s.tasks
  }

  lemma LateGoneStep(s: State, a: Action)
    requires Inv(s) && LateGone(s) && Can(s, a)
    ensures LateGone(Next(s, a))
  {
    hide Inv, ChannelCan, ChannelNext, ReaperCan, ReaperNext, RouterCan, RouterNext;
    match a
    case ByChannel(c, step) =>
      ChannelFramed(s, c, step);
      ChannelSenders(s, c, step);
    case ByReaper(n, step) => ReaperSenders(s, n, step);
    case ByRouter(step) => LateGoneRouted(s, step);
  }

  lemma ChannelSenders(s: State, c: ChannelId, a: ChannelStep)
    requires ChannelCan(s, c, a)
    ensures forall d :: d in ChannelNext(s, c, a).senders ==> d in s.senders || Channel(d) !in s.tasks
    ensures s.tasks.Keys <= ChannelNext(s, c, a).tasks.Keys
  {
    hide BufferRead, Orderly, Attach, Created, Replay, Replayed, After, Seen, Send, Unmapped, LockOf, NextLock;
  }

  lemma ReaperSenders(s: State, n: nat, a: ReaperStep)
    requires ReaperCan(s, n, a)
    ensures ReaperNext(s, n, a).senders == s.senders && ReaperNext(s, n, a).router == s.router
    ensures s.tasks.Keys <= ReaperNext(s, n, a).tasks.Keys
  {
    hide LockOf, NextLock, Bypass;
  }

  lemma LateGoneRouted(s: State, a: RouterStep)
    requires Inv(s) && LateGone(s) && RouterCan(s, a)
    ensures LateGone(RouterNext(s, a))
  {
    hide Inv, BufferRead, Receive, AppendMessage, LookupOwner, PushMessage, RespondNew, RespondFailedCreated,
      RespondFailedClaim, UnmapLate, ArmLate, LockDrop, DeliverAnswer, OwnerLate, PushLate, FindLate, CloseSession,
      LockClose;
    if s.router.LateUnmap? || a.DoCheckSender? { AnswerKnown(s); }
    RouterKeepsTasks(s, a);
  }

  lemma RouterKeepsTasks(s: State, a: RouterStep)
    requires RouterCan(s, a)
    ensures s.tasks.Keys <= RouterNext(s, a).tasks.Keys
  {
    hide BufferRead, Receive, AppendMessage, LookupOwner, PushMessage, RespondNew, RespondFailedCreated,
      RespondFailedClaim, SenderCheck, UnmapLate, LockDrop, DeliverAnswer, OwnerLate, PushLate, FindLate, CloseSession,
      LockClose;
  }

  lemma AnswerKnown(s: State)
    requires Inv(s) && Answering(s.router)
    ensures Channel(s.router.answer.channel) in s.tasks
  {
    hide LocksOk, SendersOk, TableOk, ObjectsOk, OwnersOk, AllProgressOk, TargetOk, DeliveryOk, ReplaysOk, QueuesOk,
      OutcomesOk, CoverageOk;
  }

  lemma {:induction false} LateGoneKept(s: State, actions: seq<Action>)
    requires Inv(s) && LateGone(s) && IsRun(s, actions)
    ensures LateGone(Run(s, actions))
    decreases |actions|
  {
    hide Inv, LateGone, Can, Next;
    if actions != [] {
      StepKeeps(s, actions[0]);
      LateGoneStep(s, actions[0]);
      LateGoneKept(Next(s, actions[0]), actions[1..]);
    }
  }

  lemma LateGoneHolds(s: State)
    requires Reachable(s)
    ensures LateGone(s)
  {
    hide Inv, IsRun, Run;
    var actions :| IsRun(INIT, actions) && Run(INIT, actions) == s;
    InitHolds();
    LateGoneKept(INIT, actions);
  }

  // ---------------------------------------------------------------- a crashed owner

  ghost predicate Stuck(s: State, sid: SessionId, c: ChannelId) {
    Owns(s.sessions, sid, c) && At(s, c).Crashed?
  }

  /** The agent answers the session's close, or fails a load the crashed channel had asked for. */
  predicate Frees(s: State, a: Action, sid: SessionId, c: ChannelId) {
    a.ByRouter? &&
    match a.routerStep
    case DoClose => s.router.Close? && s.router.sid == sid
    case DoRespondFailed(failed, failedSid, _) => failedSid == sid && failed.channel == c
    case _ => false
  }

  lemma StuckStep(s: State, a: Action, sid: SessionId, c: ChannelId)
    requires Inv(s) && LateGone(s) && Can(s, a) && Stuck(s, sid, c) && sid !in s.bypassed && !Frees(s, a, sid, c)
    ensures Stuck(Next(s, a), sid, c)
  {
    hide Inv, ChannelCan, ChannelNext, ReaperCan, ReaperNext, RouterCan, RouterNext;
    CrashedIsStill(s, a, c);
    StepSpares(s, a, c);
    CrashedHasSender(s, c);
    match a
    case ByChannel(d, step) => ChannelLeaves(s, d, step, sid, c);
    case ByReaper(n, step) => ReaperLeaves(s, n, step, sid);
    case ByRouter(step) => RouterLeaves(s, step, sid, c);
  }

  lemma CrashedIsStill(s: State, a: Action, c: ChannelId)
    requires Can(s, a) && At(s, c).Crashed?
    ensures !(a.ByChannel? && a.c == c)
  {
    hide BufferRead;
  }

  lemma CrashedHasSender(s: State, c: ChannelId)
    requires Inv(s) && At(s, c).Crashed?
    ensures c in s.senders
  {
    hide Inv;
    Here(s, Channel(c));
  }

  lemma ChannelLeaves(s: State, d: ChannelId, a: ChannelStep, sid: SessionId, c: ChannelId)
    requires Inv(s) && ChannelCan(s, d, a) && d != c && Owns(s.sessions, sid, c) && sid !in s.bypassed
    ensures Owns(ChannelNext(s, d, a).sessions, sid, c)
  {
    hide Inv, BufferRead, Orderly, Attach, Created, Replay, Replayed, After, Seen, Send, Unmapped, LockOf, NextLock;
    if a.DoLoadMap? { Here(s, Channel(d)); }
  }

  lemma ReaperLeaves(s: State, n: nat, a: ReaperStep, sid: SessionId)
    requires Inv(s) && ReaperCan(s, n, a) && SessionChannel(s.sessions, sid).Some? && sid !in s.bypassed
    ensures SessionChannel(ReaperNext(s, n, a).sessions, sid) == SessionChannel(s.sessions, sid)
  {
    hide Inv, LockOf, NextLock, Bypass;
    if a.DoStopClose? { Here(s, Reaper(n)); }
  }

  lemma RouterLeaves(s: State, a: RouterStep, sid: SessionId, c: ChannelId)
    requires RouterCan(s, a) && Owns(s.sessions, sid, c) && c in s.senders && LateGone(s)
             && !Frees(s, ByRouter(a), sid, c)
    ensures Owns(RouterNext(s, a).sessions, sid, c)
  {
    hide BufferRead, Receive, AppendMessage, LookupOwner, PushMessage, LockDrop, DeliverAnswer, OwnerLate, PushLate,
      FindLate, LockClose, SenderCheck, ArmLate, Orderly, Created, SeenTo;
    if !a.DoRespondNew? && !a.DoRespondFailed? && !a.DoLateUnmap? && !a.DoClose? { RouterFramed(s, a); }
  }

  /** Nothing frees the session on the way, and its exclusion stays intact. */
  ghost predicate NobodyFrees(s: State, actions: seq<Action>, sid: SessionId, c: ChannelId)
    requires IsRun(s, actions)
    decreases |actions|
  {
    sid !in s.bypassed
    && (actions == [] || (!Frees(s, actions[0], sid, c) && NobodyFrees(Next(s, actions[0]), actions[1..], sid, c)))
  }

  /** A channel that has crashed keeps its sessions over every run, until the agent answers
      their close or fails a load that the channel had asked for. */
  lemma {:induction false} CrashedOwnerKeeps(s: State, actions: seq<Action>, sid: SessionId, c: ChannelId)
    requires Inv(s) && LateGone(s) && IsRun(s, actions) && Stuck(s, sid, c) && NobodyFrees(s, actions, sid, c)
    ensures Stuck(Run(s, actions), sid, c)
    decreases |actions|
  {
    hide Inv, LateGone, Can, Next, Stuck, Frees;
    if actions != [] {
      StepKeeps(s, actions[0]);
      LateGoneStep(s, actions[0]);
      StuckStep(s, actions[0], sid, c);
      CrashedOwnerKeeps(Next(s, actions[0]), actions[1..], sid, c);
    }
  }

  /** Meanwhile every other client's load or claim of the session ends in an error reply. */
  lemma OwnedIsRefused(s: State, sid: SessionId, d: ChannelId)
    requires SessionChannel(s.sessions, sid).Some?
    ensures At(s, d).LoadBumped? && At(s, d).sid == sid ==> Refused(s, LoadCheck(s, d), d)
    ensures At(s, d).ClaimWait? && At(s, d).sid == sid ==> Refused(s, Claim(s, d), d)
  {
  }

  predicate Refused(s: State, s': State, d: ChannelId) {
    && At(s', d).Idle? && d in s'.queues && s'.queues[d] == Queue(s.queues, d) + [ErrorReply]
    && s'.sessions == s.sessions && s'.states == s.states
  }

  /** And with the exclusion intact no load of it is past its check already, nor any reaper: over
      every run nobody but the crashed channel is near the session. */
  lemma {:induction false} CrashedOwnerShutsOut(s: State, actions: seq<Action>, sid: SessionId, c: ChannelId, t: Task)
    requires Inv(s) && LateGone(s) && IsRun(s, actions) && Stuck(s, sid, c) && NobodyFrees(s, actions, sid, c)
    ensures var end := Run(s, actions);
            t in end.tasks ==> !((end.tasks[t].LoadChecked? || end.tasks[t].LoadReplayed? || end.tasks[t].Stopping?)
                                 && end.tasks[t].sid == sid)
  {
    hide Inv, LateGone, IsRun, Run, NobodyFrees, Stuck;
    CrashedOwnerKeeps(s, actions, sid, c);
    RunKeeps(s, actions);
    StillUnmarked(s, actions, sid, c);
    if t in Run(s, actions).tasks {
      Here(Run(s, actions), t);
      assert Stuck(Run(s, actions), sid, c) ==>
          Owns(Run(s, actions).sessions, sid, c) by { StuckOwns(Run(s, actions), sid, c); }
    }
  }

  lemma StuckOwns(s: State, sid: SessionId, c: ChannelId)
    ensures Stuck(s, sid, c) ==> Owns(s.sessions, sid, c)
  {
  }

  lemma {:induction false} StillUnmarked(s: State, actions: seq<Action>, sid: SessionId, c: ChannelId)
    requires IsRun(s, actions) && NobodyFrees(s, actions, sid, c)
    ensures sid !in Run(s, actions).bypassed
    decreases |actions|
  {
    hide Can, Next, Frees;
    if actions != [] { StillUnmarked(Next(s, actions[0]), actions[1..], sid, c); }
  }

  /** From every reachable state in which an owner is between two messages, one binary
      payload makes it such an owner. */
  lemma IdleOwnersCanCrash(s: State, sid: SessionId, c: ChannelId)
    requires Reachable(s) && Owns(s.sessions, sid, c) && At(s, c).Idle?
    ensures Can(s, ByChannel(c, DoCrash)) && Reachable(Settle(Crash(s, c))) && Stuck(Settle(Crash(s, c)), sid, c)
  {
    hide Reachable, Leads;
    LeadsHere(s);
    ByC(s, s, c, DoCrash);
    ReachableOn(s, Settle(Crash(s, c)));
  }
}
