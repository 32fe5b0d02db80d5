/** What becomes of the agent's messages and of acknowledgements, over whole runs of the ACP
    proxy (tidewave-core/src/ws/acp.rs). */
module AcpMessages {
  import opened Wrappers
  import opened AcpSession
  import opened AcpTable
  import opened AcpProtocol
  import opened AcpInvariant
  import opened AcpMoves
  import opened AcpTheorems
  import opened AcpEffects
  import opened AcpRuns
  import opened AcpSessions
  import opened AcpReconnect
  import opened AcpResponses

  // ---------------------------------------------------------------- messages

  /** The entry is the message: a notification under the number `next`, everything else as the
      agent sent it, under its own id. */
  predicate Stores(entry: BufferedMessage, message: JsonRpcMessage, next: nat) {
    match message
    case Notification(body, _) =>
      entry.message == Notification(body, Some(next)) && entry.id == NotificationId(next)
    case Request(id, _) => entry.message == message && entry.id == Print(id)
    case Response(id, _) => entry.message == message && entry.id == Print(id)
  }

  /** While the router is about to append, nobody else changes the log or the numbering. */
  lemma LogStands(s: State, a: Action, id: StateId)
    requires Inv(s) && Can(s, a) && !a.ByRouter? && id in s.states
    ensures id in Next(s, a).states && Next(s, a).states[id].log == s.states[id].log
    ensures Next(s, a).states[id].notificationIdCounter == s.states[id].notificationIdCounter
    ensures Next(s, a).router == s.router
  {
    hide Inv, ChannelCan, ChannelNext, ReaperCan, ReaperNext, RouterCan, RouterNext, Settle;
    FreshState(s);
    match a
    case ByChannel(c, step) => ChannelLeavesLogs(s, c, step, id);
    case ByReaper(n, step) => ReaperLeavesLogs(s, n, step, id);
  }

  lemma ChannelLeavesLogs(s: State, c: ChannelId, a: ChannelStep, id: StateId)
    requires ChannelCan(s, c, a) && id in s.states && s.nextState !in s.states
    ensures var s' := ChannelNext(s, c, a);
            && s'.router == s.router && id in s'.states && s'.states[id].log == s.states[id].log
            && s'.states[id].notificationIdCounter == s.states[id].notificationIdCounter
  {
    hide BufferRead, Join, LoadBegin, LoadAcquire, LoadCheck, LoadMap, LoadFinish, ClaimBegin, ClaimFinish, AckBegin,
      AckCheck, Leave, Unmap, Arm, Finish, Send, Replay, Attach, Created, MapChannel, Replayed, After, Seen,
      SameReapers, CountersGrow;
    ChannelFramed(s, c, a);
  }

  lemma ReaperLeavesLogs(s: State, n: nat, a: ReaperStep, id: StateId)
    requires ReaperCan(s, n, a) && id in s.states
    ensures var s' := ReaperNext(s, n, a);
            && s'.router == s.router && id in s'.states && s'.states[id].log == s.states[id].log
            && s'.states[id].notificationIdCounter == s.states[id].notificationIdCounter
  {
    hide Wake, Probe, TakeLock, StopCheck, StopClose, Discard;
    ReaperFramed(s, n, a);
  }

  lemma AppendStores(s: State, a: Action)
    requires Can(s, a) && a.ByRouter? && s.router.Append? && s.router.state in s.states
    ensures var id, session := s.router.state, s.states[s.router.state];
            && id in Next(s, a).states && |Next(s, a).states[id].log| == |session.log| + 1
            && Next(s, a).states[id].log[..|session.log|] == session.log
            && Stores(Next(s, a).states[id].log[|session.log|], s.router.message, session.notificationIdCounter)
  {
    hide Settle, BufferRead;
  }

  lemma {:induction false} AppendedOverRun(s: State, actions: seq<Action>)
    requires Reachable(s) && IsRun(s, actions) && s.router.Append? && s.router.state in s.states
    ensures var id, session, end := s.router.state, s.states[s.router.state], Run(s, actions);
            && id in end.states
            && ((end.router == s.router && end.states[id].log == session.log)
                || (|end.states[id].log| > |session.log|
                    && Stores(end.states[id].log[|session.log|], s.router.message, session.notificationIdCounter)))
    decreases |actions|
  {
    hide Reachable, Inv, Can, Next, Stores, Leads;
    if actions != [] {
      var s1, id := Next(s, actions[0]), s.router.state;
      ReachableHolds(s);
      OneStep(s, actions[0]);
      ReachableOn(s, s1);
      if actions[0].ByRouter? {
        AppendStores(s, actions[0]);
        LogsOnlyGrow(s1, actions[1..], id);
        var log, n := Run(s, actions).states[id].log, |s.states[id].log|;
        assert log[n] == s1.states[id].log[n];
      } else {
        LogStands(s, actions[0], id);
        AppendedOverRun(s1, actions[1..]);
      }
    }
  }

  /** Every notification and request of the agent for a session in the table gets the next place
      in that session's log, with the content the agent gave it: over every run the router is
      either still about to put it there, or it is there. One for another session is dropped. */
  lemma EveryMessageIsLogged(s: State, sid: SessionId, message: JsonRpcMessage, actions: seq<Action>)
    requires Reachable(s) && RouterCan(s, DoReceive(sid, message))
    requires IsRun(Settle(Receive(s, sid, message)), actions)
    ensures sid in s.sessions ==>
              var id, end := s.sessions[sid].state, Run(Settle(Receive(s, sid, message)), actions);
              && id in s.states && id in end.states
              && var n := |s.states[id].log|;
                 || (end.router == Append(sid, id, message, None) && |end.states[id].log| == n)
                 || (n < |end.states[id].log|
                     && Stores(end.states[id].log[n], message, s.states[id].notificationIdCounter))
    ensures sid !in s.sessions ==> Receive(s, sid, message) == s
  {
    hide Reachable, Inv, IsRun, Run, Stores, Leads, Settle;
    if sid in s.sessions {
      ReachableHolds(s);
      There(s, sid);
      LeadsHere(s);
      ByR(s, s, DoReceive(sid, message));
      ReachableOn(s, Settle(Receive(s, sid, message)));
      AppendedOverRun(Settle(Receive(s, sid, message)), actions);
    }
  }

  // ---------------------------------------------------------------- acknowledgements

  /** The acknowledging channel is found to own the session whose state object it looked up. */
  predicate FoundOwner(s: State, c: ChannelId, id: StateId, latestId: string) {
    At(s, c).AckFound? && At(s, c).state == id && At(s, c).latestId == latestId && Owns(s.sessions, At(s, c).sid, c)
  }

  lemma AckStep(s: State, a: Action, c: ChannelId)
    requires Can(s, a) && At(Next(s, a), c).AckOwned?
    ensures At(s, c) == At(Next(s, a), c) || FoundOwner(s, c, At(Next(s, a), c).state, At(Next(s, a), c).latestId)
  {
    hide ChannelCan, ChannelNext, ReaperCan, ReaperNext, RouterCan, RouterNext, Settle, FoundOwner;
    if a.ByChannel? && a.c == c {
      OwnAckStep(s, c, a.channelStep);
    } else {
      StepSpares(s, a, c);
    }
  }

  lemma OwnAckStep(s: State, c: ChannelId, a: ChannelStep)
    requires ChannelCan(s, c, a) && At(ChannelNext(s, c, a), c).AckOwned?
    ensures FoundOwner(s, c, At(ChannelNext(s, c, a), c).state, At(ChannelNext(s, c, a), c).latestId)
            || At(s, c) == At(ChannelNext(s, c, a), c)
  {
    hide BufferRead, Attach, Created, LoadReplay, LoadMap, Claim, Unmap, Send, LockOf, NextLock;
    if a.DoLoadReplay? || a.DoLoadMap? || a.DoClaim? || a.DoUnmap? {
      hide ChannelCan, ChannelNext;
      NotAcking(s, c, a);
    }
  }

  lemma NotAcking(s: State, c: ChannelId, a: ChannelStep)
    requires ChannelCan(s, c, a) && (a.DoLoadReplay? || a.DoLoadMap? || a.DoClaim? || a.DoUnmap?)
    ensures !At(ChannelNext(s, c, a), c).AckOwned?
  {
    hide Attach, Created, Replay, Replayed, After, Seen, Send, Unmapped;
  }

  lemma {:induction false} AckOverRun(s: State, actions: seq<Action>, c: ChannelId)
    requires IsRun(s, actions) && At(Run(s, actions), c).AckOwned?
    ensures At(s, c) == At(Run(s, actions), c)
            || exists x :: Visits(s, actions, x)
                           && FoundOwner(x, c, At(Run(s, actions), c).state, At(Run(s, actions), c).latestId)
    decreases |actions|
  {
    hide Can, Next, Visits, FoundOwner, At;
    if actions != [] {
      var s1, pc := Next(s, actions[0]), At(Run(s, actions), c);
      AckOverRun(s1, actions[1..], c);
      if At(s1, c) == pc {
        AckStep(s, actions[0], c);
        VisitsStart(s, actions);
      } else {
        var x :| Visits(s1, actions[1..], x) && FoundOwner(x, c, pc.state, pc.latestId);
        VisitsLater(s, actions, x);
      }
    }
  }

  /** From the start of any run: whoever is about to prune a buffer was found, since it asked, to
      own the session. */
  lemma OnlyOwnersPrune(actions: seq<Action>, c: ChannelId)
    requires IsRun(INIT, actions) && ChannelCan(Run(INIT, actions), c, DoAckPrune)
    ensures var pc := At(Run(INIT, actions), c);
            exists x :: Visits(INIT, actions, x) && FoundOwner(x, c, pc.state, pc.latestId)
  {
    hide IsRun, Run, Visits, FoundOwner, BufferRead;
    AckOverRun(INIT, actions, c);
  }

  /** An acknowledgement by a channel that does not own the session changes nothing. */
  lemma StrangersAckIsIgnored(s: State, c: ChannelId)
    requires At(s, c).AckFound? && !Owns(s.sessions, At(s, c).sid, c)
    ensures AckCheck(s, c) == s.(tasks := s.tasks[Channel(c) := Idle])
  {
  }

  /** The owner's acknowledgement of the notification at log index `j`, with nobody else in
      between, keeps what follows it, or what had been kept already. */
  lemma OwnersAckPrunes(s: State, c: ChannelId, sid: SessionId, j: nat) returns (s': State)
    requires Reachable(s) && At(s, c).Idle? && Owns(s.sessions, sid, c) && !BufferRead(s, s.sessions[sid].state)
    requires s.sessions[sid].state in s.states
    requires j < |s.states[s.sessions[sid].state].log|
             && s.states[s.sessions[sid].state].log[j].message.Notification?
    ensures Leads(s, s') && At(s', c).Idle? && s'.sessions == s.sessions
    ensures var id, session := s.sessions[sid].state, s.states[s.sessions[sid].state];
            var dropped := |session.log| - |session.messageBuffer|;
            && 0 <= dropped && id in s'.states && s'.states[id].log == session.log
            && s'.states[id].messageBuffer == session.log[(if dropped <= j then j + 1 else dropped)..]
  {
    hide Reachable, Leads, Settle, After, BufferRead;
    var id := s.sessions[sid].state;
    var s1 := OwnersAckIsFound(s, c, sid, s.states[id].log[j].id);
    ByC(s, s1, c, DoAckPrune);
    s' := Settle(AckPrune(s1, c));
    ReachableOn(s, s1);
    AckPrunesToLatest(s1, c, j);
  }

  lemma OwnersAckIsFound(s: State, c: ChannelId, sid: SessionId, latestId: string) returns (s': State)
    requires At(s, c).Idle? && Owns(s.sessions, sid, c) && !BufferRead(s, s.sessions[sid].state)
    ensures Leads(s, s') && At(s', c) == AckOwned(s.sessions[sid].state, latestId)
    ensures s'.states == s.states && s'.sessions == s.sessions && !BufferRead(s', s.sessions[sid].state)
  {
    hide Leads, Settle, BufferRead;
    LeadsHere(s);
    ByC(s, s, c, DoAckBegin(sid, latestId));
    var s1 := Settle(AckBegin(s, c, sid, latestId));
    ByC(s, s1, c, DoAckCheck);
    s' := Settle(AckCheck(s1, c));
    NobodyReads(s, s', c, s.sessions[sid].state);
  }

  lemma NobodyReads(s: State, s': State, c: ChannelId, id: StateId)
    requires !BufferRead(s, id) && s'.tasks.Keys <= s.tasks.Keys + {Channel(c)} && !At(s', c).LoadReplayed?
    requires forall t :: t in s'.tasks && t != Channel(c) ==> s'.tasks[t] == s.tasks[t]
    ensures !BufferRead(s', id)
  {
  }

  // ---------------------------------------------------------------- what clients asked for

  /** The client's message that the channel task works on. */
  predicate WorksOn(pc: Pc, c: ChannelId, a: Action) {
    a.ByChannel? && a.c == c &&
    match a.channelStep
    case DoLoadBegin(sid, latestId) =>
      || ((pc.LoadWait? || pc.LoadFound? || pc.LoadBumped? || pc.LoadChecked?) && pc.sid == sid
          && pc.latestId == latestId)
      || ((pc.LoadReplayed? || pc.LoadMapped?) && pc.sid == sid)
    case DoClaimBegin(sid) => (pc.ClaimWait? || pc.ClaimForward?) && pc.sid == sid
    case DoAckBegin(sid, latestId) =>
      (pc.AckFound? && pc.sid == sid && pc.latestId == latestId) || (pc.AckOwned? && pc.latestId == latestId)
    case _ => false
  }

  predicate Busy(pc: Pc) {
    Ref(pc) != NoLock || pc.AckFound? || pc.AckOwned?
  }

  lemma WorkStep(s: State, a: Action, c: ChannelId, work: Action)
    requires Can(s, a) && Busy(At(Next(s, a), c)) && (Busy(At(s, c)) ==> WorksOn(At(s, c), c, work))
    requires Inv(s)
    ensures WorksOn(At(Next(s, a), c), c, a) || (Busy(At(s, c)) && WorksOn(At(Next(s, a), c), c, work))
  {
    hide Inv, ChannelCan, ChannelNext, ReaperCan, ReaperNext, RouterCan, RouterNext, Settle, Busy, WorksOn;
    if a.ByChannel? && a.c == c {
      OwnWorkStep(s, c, a.channelStep, work);
    } else {
      StepSpares(s, a, c);
    }
  }

  lemma OwnWorkStep(s: State, c: ChannelId, a: ChannelStep, work: Action)
    requires ChannelCan(s, c, a) && Busy(At(ChannelNext(s, c, a), c))
    requires Busy(At(s, c)) ==> WorksOn(At(s, c), c, work)
    ensures WorksOn(At(ChannelNext(s, c, a), c), c, ByChannel(c, a))
            || (Busy(At(s, c)) && WorksOn(At(ChannelNext(s, c, a), c), c, work))
  {
    hide BufferRead, LoadReplay, LoadMap, Claim, Unmap, Arm, LockOf, NextLock, AckBegin, AckCheck, AckPrune,
      LoadAcquire, LoadBump, LoadCheck, LoadFinish;
    if a.DoLoadReplay? || a.DoLoadMap? || a.DoClaim? {
      hide ChannelCan, ChannelNext;
      WorkGoesOn(s, c, a, work);
    } else if a.DoUnmap? || a.DoArm? {
      hide ChannelCan, ChannelNext;
      NoWork(s, c, a);
    } else if a.DoLoadAcquire? || a.DoLoadBump? || a.DoLoadCheck? || a.DoLoadFinish? {
      hide ChannelCan, ChannelNext;
      LoadGoesOn(s, c, a, work);
    } else if a.DoAckBegin? || a.DoAckCheck? || a.DoAckPrune? {
      hide ChannelCan, ChannelNext;
      AckGoesOn(s, c, a, work);
    }
  }

  lemma LoadGoesOn(s: State, c: ChannelId, a: ChannelStep, work: Action)
    requires ChannelCan(s, c, a) && (a.DoLoadAcquire? || a.DoLoadBump? || a.DoLoadCheck? || a.DoLoadFinish?)
    requires Busy(At(ChannelNext(s, c, a), c)) && WorksOn(At(s, c), c, work)
    ensures Busy(At(s, c)) && WorksOn(At(ChannelNext(s, c, a), c), c, work)
  {
    hide Send;
  }

  lemma AckGoesOn(s: State, c: ChannelId, a: ChannelStep, work: Action)
    requires ChannelCan(s, c, a) && (a.DoAckBegin? || a.DoAckCheck? || a.DoAckPrune?)
    requires Busy(At(ChannelNext(s, c, a), c)) && (Busy(At(s, c)) ==> WorksOn(At(s, c), c, work))
    ensures WorksOn(At(ChannelNext(s, c, a), c), c, ByChannel(c, a))
            || (Busy(At(s, c)) && WorksOn(At(ChannelNext(s, c, a), c), c, work))
  {
    hide BufferRead, After;
  }

  lemma WorkGoesOn(s: State, c: ChannelId, a: ChannelStep, work: Action)
    requires ChannelCan(s, c, a) && (a.DoLoadReplay? || a.DoLoadMap? || a.DoClaim?)
    requires Busy(At(ChannelNext(s, c, a), c)) && WorksOn(At(s, c), c, work)
    ensures Busy(At(s, c)) && WorksOn(At(ChannelNext(s, c, a), c), c, work)
  {
    hide Attach, Created, Replay, Replayed, After, Seen, Send;
  }

  lemma NoWork(s: State, c: ChannelId, a: ChannelStep)
    requires ChannelCan(s, c, a) && (a.DoUnmap? || a.DoArm?)
    ensures !Busy(At(ChannelNext(s, c, a), c))
  {
    hide Unmapped;
  }

  lemma {:induction false} WorkOverRun(s: State, actions: seq<Action>, c: ChannelId,
      work: Action) returns (last: Action)
    requires Inv(s) && IsRun(s, actions) && Busy(At(Run(s, actions), c))
    requires Busy(At(s, c)) ==> WorksOn(At(s, c), c, work)
    ensures WorksOn(At(Run(s, actions), c), c, last) && (last in actions || (Busy(At(s, c)) && last == work))
    decreases |actions|
  {
    hide Inv, Can, Next, WorksOn, Busy, At;
    if actions == [] {
      last := work;
    } else {
      var s1 := Next(s, actions[0]);
      StepKeeps(s, actions[0]);
      var next := work;
      if Busy(At(s1, c)) {
        WorkStep(s, actions[0], c, work);
        next := if WorksOn(At(s1, c), c, actions[0]) then actions[0] else work;
      }
      last := WorkOverRun(s1, actions[1..], c, next);
    }
  }

  /** From the start of any run: a load, claim or acknowledgement is for the session, and names
      the id, that its client's message did. */
  lemma WorkIsAsAsked(actions: seq<Action>, c: ChannelId) returns (asked: Action)
    requires IsRun(INIT, actions) && Busy(At(Run(INIT, actions), c))
    ensures asked in actions && WorksOn(At(Run(INIT, actions), c), c, asked)
  {
    hide Inv, IsRun, Run, WorksOn;
    InitHolds();
    asked := WorkOverRun(INIT, actions, c, ByChannel(c, DoJoin));
  }
}
