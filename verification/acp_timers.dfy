/** Grace-period timers of the ACP proxy against a load that bumps the counter: which pending
    timers can still stop the session. */
module AcpTimers {
  import opened Wrappers
  import opened AcpSession
  import opened AcpTable
  import opened AcpProtocol
  import opened AcpLocks
  import opened AcpInvariant
  import opened AcpTheorems
  import opened AcpEffects
  import opened AcpRuns

  predicate Stops(s: State, n: nat, id: StateId) {
    ReaperAt(s, n).Stopping? && ReaperAt(s, n).state == id
  }

  /** Some continuation lets timer `n` stop the session with this state object. */
  ghost predicate CanStop(s: State, n: nat, id: StateId) {
    exists actions :: IsRun(s, actions) && Stops(Run(s, actions), n, id)
  }

  /** A timer that was armed with an older counter, or is past its counter test, or is over. */
  predicate OldTimer(pc: Pc, sid: SessionId, counter: nat) {
    pc == Armed(sid, counter) || pc == Probing(sid, counter) || pc.Matched? || pc.StopWait? || pc.Stopping?
        || pc.Discarding? || pc.Done?
  }

  /** A load has just bumped the counter of a session without owner. */
  ghost predicate JustBumped(s: State, c: ChannelId, sid: SessionId, id: StateId) {
    && Reachable(s)
    && At(s, c).LoadBumped? && At(s, c).sid == sid && At(s, c).state == id
    && sid !in s.bypassed && sid in s.sessions && s.sessions[sid].channel.None?
  }

  /** At the bump, an old timer can still stop the session if and only if it had passed its
      counter test for it: the reaper looks at the owner again, but not at the counter. */
  lemma TimerStopsExactlyWhenMatched(s: State, c: ChannelId, sid: SessionId, id: StateId, n: nat, counter: nat)
    requires JustBumped(s, c, sid, id) && Reaper(n) in s.tasks && id in s.states
    requires OldTimer(ReaperAt(s, n), sid, counter) && counter < s.states[id].cancelCounter
    ensures CanStop(s, n, id) <==> !NotMatched(s, n, sid, counter, id)
  {
    hide Inv, Reachable, Leads;
    ReachableHolds(s);
    if NotMatched(s, n, sid, counter, id) {
      forall actions | IsRun(s, actions) ensures !Stops(Run(s, actions), n, id) {
        TimerVoidAfterLoad(s, actions, n, sid, counter, id);
      }
    } else {
      AtTheMutex(s, c, sid, id, n);
      var s1 := LoadRunsThrough(s, c, sid, id, n);
      var s2 := ChannelLeavesAgain(s, s1, c, sid, id, n);
      var s3 := ReaperGoesOn(s, s2, sid, id, n);
      CanStopBy(s, s3, n, id);
    }
  }

  lemma CanStopBy(s: State, s': State, n: nat, id: StateId)
    requires Leads(s, s') && Stops(s', n, id)
    ensures CanStop(s, n, id)
  {
    hide IsRun, Run, Stops;
    var actions :| IsRun(s, actions) && Run(s, actions) == s';
  }

  /** With its exclusion intact, the load holds the registered mutex and the reaper is at the
      same one, or not there yet. */
  ghost predicate AtSameMutex(s: State, sid: SessionId, id: StateId, n: nat, lock: Lock) {
    && sid in s.locks && s.locks[sid] == lock
    && (ReaperAt(s, n) == Matched(sid, id) || ReaperAt(s, n) == StopWait(sid, lock, id))
  }

  lemma AtTheMutex(s: State, c: ChannelId, sid: SessionId, id: StateId, n: nat)
    requires Inv(s) && JustBumped(s, c, sid, id)
    requires (ReaperAt(s, n).Matched? || ReaperAt(s, n).StopWait? || ReaperAt(s, n).Stopping?)
             && ReaperAt(s, n).state == id
    ensures AtSameMutex(s, sid, id, n, At(s, c).lock) && s.sessions[sid].state == id
  {
    hide SendersOk, TableOk, RouterOk, OwnersOk, TargetOk, DeliveryOk, ReplaysOk, QueuesOk, OutcomesOk, CoverageOk,
      Reachable;
    assert ProgressOk(At(s, c), s.sessions, s.bypassed);
    assert ObjectOk(At(s, c), s.states) && ObjectOk(ReaperAt(s, n), s.states);
    var t, u := Channel(c), Reaper(n);
    assert RefOk(Ref(s.tasks[t]), t, s.locks, s.nextLock, s.held, s.bypassed);
    assert RefOk(Ref(s.tasks[u]), u, s.locks, s.nextLock, s.held, s.bypassed);
  }

  /** The load checks, replays, becomes owner and releases the mutex. */
  lemma LoadRunsThrough(s: State, c: ChannelId, sid: SessionId, id: StateId, n: nat) returns (s': State)
    requires At(s, c).LoadBumped? && At(s, c).sid == sid && At(s, c).state == id
    requires sid in s.sessions && s.sessions[sid] == SessionEntry(id, None) && AtSameMutex(s, sid, id, n, At(s, c).lock)
    ensures Leads(s, s') && At(s', c).Idle? && sid in s'.sessions && s'.sessions[sid] == SessionEntry(id, Some(c))
    ensures AtSameMutex(s', sid, id, n, At(s, c).lock) && At(s, c).lock !in s'.held
  {
    hide Settle, Leads, Seen, After, Replay, Send;
    LeadsHere(s);
    ByC(s, s, c, DoLoadCheck);
    var s1 := Settle(LoadCheck(s, c));
    ByC(s, s1, c, DoLoadReplay);
    s' := LoadBecomesOwner(s, Settle(LoadReplay(s1, c)), c, sid, id, n);
  }

  lemma LoadBecomesOwner(start: State, s: State, c: ChannelId, sid: SessionId, id: StateId, n: nat) returns (s': State)
    requires Leads(start, s) && At(s, c).LoadReplayed? && At(s, c).sid == sid && At(s, c).state == id
    requires sid in s.sessions && s.sessions[sid] == SessionEntry(id, None) && AtSameMutex(s, sid, id, n, At(s, c).lock)
    ensures Leads(start, s') && At(s', c).Idle? && sid in s'.sessions && s'.sessions[sid] == SessionEntry(id, Some(c))
    ensures AtSameMutex(s', sid, id, n, At(s, c).lock) && At(s, c).lock !in s'.held
  {
    hide Settle, Leads, Attach;
    ByC(start, s, c, DoLoadMap);
    var s1 := Settle(LoadMap(s, c));
    ByC(start, s1, c, DoLoadFinish);
    s' := Settle(LoadFinish(s1, c));
  }

  lemma ChannelLeavesAgain(start: State, s: State, c: ChannelId, sid: SessionId, id: StateId,
      n: nat) returns (s': State)
    requires Leads(start, s) && At(s, c).Idle? && sid in s.sessions && s.sessions[sid] == SessionEntry(id, Some(c))
    requires sid in s.locks && AtSameMutex(s, sid, id, n, s.locks[sid]) && s.locks[sid] !in s.held
    ensures Leads(start, s') && sid in s'.sessions && s'.sessions[sid] == SessionEntry(id, None)
    ensures sid in s'.locks && AtSameMutex(s', sid, id, n, s'.locks[sid]) && s'.locks[sid] !in s'.held
  {
    hide Settle, Leads, Unmapped;
    ByC(start, s, c, DoLeave);
    var s1 := Settle(Leave(s, c));
    ByC(start, s1, c, DoUnmap);
    s' := Settle(Unmap(s1, c));
  }

  lemma ReaperGoesOn(start: State, s: State, sid: SessionId, id: StateId, n: nat) returns (s': State)
    requires Leads(start, s) && sid in s.sessions && s.sessions[sid] == SessionEntry(id, None)
    requires sid in s.locks && AtSameMutex(s, sid, id, n, s.locks[sid]) && s.locks[sid] !in s.held
    ensures Leads(start, s') && Stops(s', n, id)
  {
    hide Settle, Leads;
    s' := s;
    if ReaperAt(s, n).Matched? {
      ByN(start, s, n, DoTakeLock);
      s' := Settle(TakeLock(s, n));
    }
    ByN(start, s', n, DoStopCheck);
    s' := Settle(StopCheck(s', n));
  }

  // ---------------------------------------------------------------- a pending timer

  /** A timer that still carries the current counter of an ownerless session, with the mutex
      free, gets to stop it. */
  lemma PendingTimerCanStop(s: State, sid: SessionId, n: nat)
    requires sid in s.sessions && s.sessions[sid].channel.None? && s.sessions[sid].state in s.states
    requires LockOf(s, sid) !in s.held
    requires ReaperAt(s, n) == Armed(sid, s.states[s.sessions[sid].state].cancelCounter)
    ensures CanStop(s, n, s.sessions[sid].state)
  {
    hide Settle, Leads;
    LeadsHere(s);
    ByN(s, s, n, DoWake);
    var s1 := Settle(Wake(s, n));
    ByN(s, s1, n, DoProbe);
    var s2 := Settle(Probe(s1, n));
    ByN(s, s2, n, DoTakeLock);
    var s3 := Settle(TakeLock(s2, n));
    ByN(s, s3, n, DoStopCheck);
    CanStopBy(s, Settle(StopCheck(s3, n)), n, s.sessions[sid].state);
  }
}
