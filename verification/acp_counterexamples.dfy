/** Runs of the ACP proxy that show where its guarantees end: states in which the condition of
    a theorem fails are reached, and so does its conclusion. */
module AcpCounterexamples {
  import opened Wrappers
  import opened AcpSession
  import opened AcpTable
  import opened AcpProtocol
  import opened AcpReleased
  import opened AcpCrashes
  import Runs = AcpRuns

  lemma ByC(s: State, c: ChannelId, a: ChannelStep)
    requires Reachable(s) && ChannelCan(s, c, a)
    ensures Reachable(Settle(ChannelNext(s, c, a)))
  {
    hide Settle, Reachable, Runs.Leads, ChannelCan, ChannelNext;
    Runs.OneStep(s, ByChannel(c, a));
    Runs.ReachableOn(s, Settle(ChannelNext(s, c, a)));
  }

  lemma ByN(s: State, n: nat, a: ReaperStep)
    requires Reachable(s) && ReaperCan(s, n, a)
    ensures Reachable(Settle(ReaperNext(s, n, a)))
  {
    hide Settle, Reachable, Runs.Leads, ReaperCan, ReaperNext;
    Runs.OneStep(s, ByReaper(n, a));
    Runs.ReachableOn(s, Settle(ReaperNext(s, n, a)));
  }

  lemma ByR(s: State, a: RouterStep)
    requires Reachable(s) && RouterCan(s, a)
    ensures Reachable(Settle(RouterNext(s, a)))
  {
    hide Settle, Reachable, Runs.Leads, RouterCan, RouterNext;
    Runs.OneStep(s, ByRouter(a));
    Runs.ReachableOn(s, Settle(RouterNext(s, a)));
  }

  const REPLY := Response(Number(1), 0)
  const ANSWER := Answer(1, REPLY, None, None)

  lemma InitReachable()
    ensures Reachable(INIT)
  {
    assert IsRun(INIT, []) && Run(INIT, []) == INIT;
  }

  /** Channel 1 joins and gets session 0 from the agent. */
  lemma Opened() returns (s: State)
    ensures Reachable(s) && s.router == Ready && s.nextLock == 0 && s.senders == {1}
            && s.sessions == map[0 := SessionEntry(0, Some(1))]
    ensures 0 in s.states && s.states[0] == Fresh(0) && s.locks == map[] && s.held == map[] && s.bypassed == {}
            && s.released == {}
    ensures s.tasks == map[Channel(1) := Idle]
  {
    hide Reachable, Settle;
    InitReachable();
    ByC(INIT, 1, DoJoin);
    var s1 := Settle(Join(INIT, 1));
    ByR(s1, DoRespondNew(ANSWER, 0));
    var s2 := Settle(RespondNew(s1, ANSWER, 0));
    ByR(s2, DoCheckSender);
    var s3 := Settle(SenderCheck(s2));
    ByR(s3, DoDeliver);
    s := Settle(DeliverAnswer(s3));
  }

  /** It leaves again; its cleanup arms timer 0 for the ownerless session. */
  lemma Abandoned() returns (s: State)
    ensures Reachable(s) && s.router == Ready && s.nextLock == 0 && s.senders == {}
            && s.sessions == map[0 := SessionEntry(0, None)]
    ensures 0 in s.states && s.states[0] == Fresh(0) && s.locks == map[] && s.held == map[] && s.bypassed == {}
            && s.released == {}
    ensures s.tasks == map[Channel(1) := Arming({}), Reaper(0) := Armed(0, 0)]
  {
    hide Reachable, Settle;
    var s0 := Opened();
    ByC(s0, 1, DoLeave);
    var s1 := Settle(Leave(s0, 1));
    ByC(s1, 1, DoUnmap);
    var s2 := Settle(Unmap(s1, 1));
    OnlySession(s1);
    ByC(s2, 1, DoArm((0, 0), 0));
    s := Settle(Arm(s2, 1, (0, 0), 0));
    assert At(s2, 1).unmapped - {(0, 0)} == {};
  }

  lemma OnlySession(s: State)
    requires s.sessions == map[0 := SessionEntry(0, Some(1))] && 0 in s.states && s.states[0].cancelCounter == 0
    ensures Unmapped(s, 1) == {(0, 0)} && UnmapAll(s.sessions, 1) == map[0 := SessionEntry(0, None)]
  {
    assert 0 in s.sessions && s.sessions[0].channel == Some(1)
        && StateOf(s.states, s.sessions[0].state).cancelCounter == 0;
  }

  // ---------------------------------------------------------------- a released claim

  /** Channel 2 claims the session while the timer is pending, so the timer gives up. Then
      the agent fails the load, and the claim is released without a new timer. */
  lemma ReleasedSessionIsForgotten() returns (s: State)
    ensures Reachable(s) && Forgotten(s, 0, 0) && s.bypassed == {}
  {
    hide Reachable, Settle, SeenTo;
    var s0 := GivenUp();
    var failed := Answer(2, REPLY, Some(0), None);
    ByR(s0, DoRespondFailed(failed, 0, false));
    s := Settle(RespondFailedClaim(s0, failed, 0));
  }

  lemma GivenUp() returns (s: State)
    ensures Reachable(s) && s.router == Ready && s.sessions == map[0 := SessionEntry(0, Some(2))]
    ensures 0 in s.states && s.states[0] == Fresh(0) && s.bypassed == {}
    ensures s.tasks == map[Channel(1) := Arming({}), Reaper(0) := Done, Channel(2) := ClaimForward(0, 0)]
  {
    hide Reachable, Settle;
    var s0 := Claimed();
    ByN(s0, 0, DoWake);
    s := Settle(Wake(s0, 0));
  }

  lemma Claimed() returns (s: State)
    ensures Reachable(s) && s.router == Ready && s.sessions == map[0 := SessionEntry(0, Some(2))]
    ensures 0 in s.states && s.states[0] == Fresh(0) && s.bypassed == {}
    ensures s.tasks == map[Channel(1) := Arming({}), Reaper(0) := Armed(0, 0), Channel(2) := ClaimForward(0, 0)]
  {
    hide Reachable, Settle, Attach, Seen;
    var s0 := Claiming();
    ByC(s0, 2, DoClaim);
    s := Settle(Claim(s0, 2));
  }

  lemma Claiming() returns (s: State)
    ensures Reachable(s) && s.router == Ready && s.sessions == map[0 := SessionEntry(0, None)] && s.held == map[]
    ensures 0 in s.states && s.states[0] == Fresh(0) && s.bypassed == {}
    ensures s.tasks == map[Channel(1) := Arming({}), Reaper(0) := Armed(0, 0), Channel(2) := ClaimWait(0, 0)]
  {
    hide Reachable, Settle;
    var s0 := Abandoned();
    ByC(s0, 2, DoJoin);
    var s1 := Settle(Join(s0, 2));
    ByC(s1, 2, DoClaimBegin(0));
    s := Settle(ClaimBegin(s1, 2, 0));
  }

  // ---------------------------------------------------------------- a timer past its test

  /** The timer has compared its counter when channel 2 loads the session, which bumps the
      counter. Channel 2 leaves again, and the old timer stops the session although a new
      grace period has just begun. */
  lemma MatchedTimerIsNotVoid() returns (s: State)
    ensures Reachable(s) && s.bypassed == {}
    ensures 0 in s.states && ReaperAt(s, 0) == Stopping(0, 0, 0)
    ensures s.states[0].cancelCounter == 1 && At(s, 2) == Arming({(0, 1)})
  {
    hide Reachable, Settle;
    var s0 := LeftAgain();
    ByN(s0, 0, DoTakeLock);
    var s1 := Settle(TakeLock(s0, 0));
    ByN(s1, 0, DoStopCheck);
    s := Settle(StopCheck(s1, 0));
  }

  /** The reaper of timer 0 has found the session ownerless and its counter unchanged. */
  lemma PastTheTest() returns (s: State)
    ensures Reachable(s) && s.router == Ready && s.nextLock == 0 && s.senders == {}
            && s.sessions == map[0 := SessionEntry(0, None)]
    ensures 0 in s.states && s.states[0] == Fresh(0) && s.locks == map[] && s.held == map[] && s.bypassed == {}
    ensures s.tasks == map[Channel(1) := Arming({}), Reaper(0) := Matched(0, 0)]
  {
    hide Reachable, Settle;
    var s0 := Abandoned();
    ByN(s0, 0, DoWake);
    var s1 := Settle(Wake(s0, 0));
    ByN(s1, 0, DoProbe);
    s := Settle(Probe(s1, 0));
  }

  lemma Bumped() returns (s: State)
    ensures Reachable(s) && s.senders == {2} && s.sessions == map[0 := SessionEntry(0, None)]
    ensures 0 in s.states && s.states[0].cancelCounter == 1 && s.locks == map[0 := 0] && s.held == map[0 := Channel(2)]
            && s.bypassed == {}
    ensures s.tasks == map[Channel(1) := Arming({}), Reaper(0) := Matched(0, 0), Channel(2) := LoadBumped(0, 0, "", 0)]
  {
    hide Reachable, Settle;
    var s0 := Waiting();
    ByC(s0, 2, DoLoadAcquire);
    var s1 := Settle(LoadAcquire(s0, 2));
    ByC(s1, 2, DoLoadBump);
    s := Settle(LoadBump(s1, 2));
  }

  lemma Waiting() returns (s: State)
    ensures Reachable(s) && s.senders == {2} && s.sessions == map[0 := SessionEntry(0, None)]
    ensures 0 in s.states && s.states[0] == Fresh(0) && s.locks == map[0 := 0] && s.held == map[] && s.bypassed == {}
    ensures s.tasks == map[Channel(1) := Arming({}), Reaper(0) := Matched(0, 0), Channel(2) := LoadWait(0, 0, "")]
  {
    hide Reachable, Settle;
    var s0 := PastTheTest();
    ByC(s0, 2, DoJoin);
    var s1 := Settle(Join(s0, 2));
    ByC(s1, 2, DoLoadBegin(0, ""));
    s := Settle(LoadBegin(s1, 2, 0, ""));
  }

  lemma Loaded() returns (s: State)
    ensures Reachable(s) && s.sessions == map[0 := SessionEntry(0, Some(2))]
    ensures 0 in s.states && s.states[0].cancelCounter == 1 && s.locks == map[0 := 0] && s.held == map[]
            && s.bypassed == {}
    ensures s.tasks == map[Channel(1) := Arming({}), Reaper(0) := Matched(0, 0), Channel(2) := Idle]
  {
    hide Reachable, Settle, Attach;
    var s0 := ReplayDone();
    ByC(s0, 2, DoLoadMap);
    var s1 := Settle(LoadMap(s0, 2));
    ByC(s1, 2, DoLoadFinish);
    s := Settle(LoadFinish(s1, 2));
  }

  lemma ReplayDone() returns (s: State)
    ensures Reachable(s) && s.sessions == map[0 := SessionEntry(0, None)]
    ensures 0 in s.states && s.states[0].cancelCounter == 1 && s.locks == map[0 := 0] && s.held == map[0 := Channel(2)]
            && s.bypassed == {}
    ensures Channel(2) in s.tasks && At(s, 2).LoadReplayed? && At(s, 2).sid == 0 && At(s, 2).lock == 0
    ensures s.tasks == map[Channel(1) := Arming({}), Reaper(0) := Matched(0, 0), Channel(2) := At(s, 2)]
  {
    hide Reachable, Settle, Seen, After, Replay;
    var s0 := Bumped();
    ByC(s0, 2, DoLoadCheck);
    var s1 := Settle(LoadCheck(s0, 2));
    ByC(s1, 2, DoLoadReplay);
    s := Settle(LoadReplay(s1, 2));
  }

  lemma LeftAgain() returns (s: State)
    ensures Reachable(s) && s.sessions == map[0 := SessionEntry(0, None)]
    ensures 0 in s.states && s.states[0].cancelCounter == 1 && s.locks == map[0 := 0] && s.held == map[]
            && s.bypassed == {}
    ensures s.tasks == map[Channel(1) := Arming({}), Reaper(0) := Matched(0, 0), Channel(2) := Arming({(0, 1)})]
  {
    hide Reachable, Settle, Unmapped;
    var s0 := Loaded();
    ByC(s0, 2, DoLeave);
    var s1 := Settle(Leave(s0, 2));
    UnmapsIt(s1);
    ByC(s1, 2, DoUnmap);
    s := Settle(Unmap(s1, 2));
  }

  lemma UnmapsIt(s: State)
    requires s.sessions == map[0 := SessionEntry(0, Some(2))] && 0 in s.states && s.states[0].cancelCounter == 1
    ensures Unmapped(s, 2) == {(0, 1)} && UnmapAll(s.sessions, 2) == map[0 := SessionEntry(0, None)]
  {
    assert 0 in s.sessions && s.sessions[0].channel == Some(2)
        && StateOf(s.states, s.sessions[0].state).cancelCounter == 1;
  }

  // ---------------------------------------------------------------- a crashed owner

  /** Channel 1 gets a session and then a binary payload. */
  lemma CrashedOwnerHappens() returns (s: State)
    ensures Reachable(s) && Stuck(s, 0, 1) && s.bypassed == {}
  {
    hide Reachable, Settle;
    var s0 := Opened();
    ByC(s0, 1, DoCrash);
    s := Settle(Crash(s0, 1));
  }

  // ---------------------------------------------------------------- bypassed exclusion

  /** While the router is between two messages, the agent can answer a close of the session
      and then report it anew for a channel `d` that has just joined. */
  lemma Recreated(start: State, s: State, sid: SessionId, d: ChannelId) returns (s': State)
    requires Runs.Leads(start, s) && s.router.Ready? && Channel(d) !in s.tasks
    ensures Runs.Leads(start, s') && Owns(s'.sessions, sid, d) && d in s'.senders
    ensures s'.tasks == s.tasks[Channel(d) := Idle] && sid in s'.sessions && s'.sessions[sid].state == s.nextState
  {
    hide Settle, Runs.Leads, Contended, Orderly, Created;
    Runs.ByC(start, s, d, DoJoin);
    var s1 := Settle(Join(s, d));
    var s2 := Closed(start, s1, sid, d);
    var answer := Answer(d, REPLY, None, None);
    Runs.ByR(start, s2, DoRespondNew(answer, sid));
    s' := Settle(RespondNew(s2, answer, sid));
  }

  lemma Closed(start: State, s: State, sid: SessionId, d: ChannelId) returns (s': State)
    requires Runs.Leads(start, s) && s.router.Ready? && Channel(d) in s.tasks && d in s.senders
    ensures Runs.Leads(start, s') && s'.router.Ready? && s'.tasks == s.tasks && s'.senders == s.senders
    ensures sid !in s'.sessions && s'.nextState == s.nextState
  {
    hide Settle, Runs.Leads, Contended, Send;
    var answer := Answer(d, REPLY, None, Some(sid));
    Runs.ByR(start, s, DoRespond(answer));
    var s1 := Settle(s.(router := Deliver(answer)));
    Runs.ByR(start, s1, DoDeliver);
    var s2 := Settle(DeliverAnswer(s1));
    Runs.ByR(start, s2, DoClose);
    var s3 := Settle(CloseSession(s2));
    Runs.ByR(start, s3, DoCloseLock);
    s' := Settle(LockClose(s3));
  }

  /** No load is safe: from every state in which one is past its check and the router between
      two messages, a run leads to where the load takes the session from a connected owner. */
  lemma EveryLoadCanOverwriteOwner(s: State, c: ChannelId, d: ChannelId) returns (s': State)
    requires s.router.Ready? && At(s, c).LoadReplayed? && Channel(d) !in s.tasks
    ensures Runs.Leads(s, s') && ChannelCan(s', c, DoLoadMap)
    ensures Owns(s'.sessions, At(s, c).sid, d) && d in s'.senders && d != c
            && Owns(LoadMap(s', c).sessions, At(s, c).sid, c)
  {
    hide Runs.Leads;
    Runs.LeadsHere(s);
    s' := Recreated(s, s, At(s, c).sid, d);
  }

  /** Nor is any session of a reaper past its check: a run leads to where the reaper closes it
      under a connected owner. */
  lemma EveryReaperCanStopOwned(s: State, n: nat, d: ChannelId) returns (s': State)
    requires s.router.Ready? && ReaperAt(s, n).Stopping? && Channel(d) !in s.tasks
    ensures Runs.Leads(s, s') && ReaperCan(s', n, DoStopClose)
    ensures Owns(s'.sessions, ReaperAt(s, n).sid, d) && d in s'.senders
    ensures ReaperAt(s, n).sid !in StopClose(s', n).sessions
  {
    hide Runs.Leads;
    Runs.LeadsHere(s);
    s' := Recreated(s, s, ReaperAt(s, n).sid, d);
  }

  /** Such loads and reapers occur. */
  lemma PastTheCheckHappens() returns (s: State, s': State)
    ensures Reachable(s) && s.router.Ready? && At(s, 2).LoadReplayed?
    ensures Reachable(s') && s'.router.Ready? && ReaperAt(s', 0).Stopping?
  {
    hide Reachable, Settle, Seen, After, Replay;
    var s0 := Checking();
    ByC(s0, 2, DoLoadReplay);
    s := Settle(LoadReplay(s0, 2));
    s' := AboutToStop();
  }

  lemma Checking() returns (s: State)
    ensures Reachable(s) && s.router == Ready && At(s, 2).LoadChecked?
  {
    hide Reachable, Settle;
    var s0 := LoadBegun();
    ByC(s0, 2, DoLoadAcquire);
    var s1 := Settle(LoadAcquire(s0, 2));
    ByC(s1, 2, DoLoadBump);
    var s2 := Settle(LoadBump(s1, 2));
    ByC(s2, 2, DoLoadCheck);
    s := Settle(LoadCheck(s2, 2));
  }

  lemma LoadBegun() returns (s: State)
    ensures Reachable(s) && s.router == Ready && s.sessions == map[0 := SessionEntry(0, None)] && s.held == map[]
    ensures Channel(2) in s.tasks && s.tasks[Channel(2)] == LoadWait(0, 0, "")
  {
    hide Reachable, Settle;
    var s0 := Abandoned();
    ByC(s0, 2, DoJoin);
    var s1 := Settle(Join(s0, 2));
    ByC(s1, 2, DoLoadBegin(0, ""));
    s := Settle(LoadBegin(s1, 2, 0, ""));
  }

  lemma AboutToStop() returns (s: State)
    ensures Reachable(s) && s.router == Ready && ReaperAt(s, 0).Stopping?
  {
    hide Reachable, Settle;
    var s0 := PastTheTest();
    ByN(s0, 0, DoTakeLock);
    var s1 := Settle(TakeLock(s0, 0));
    ByN(s1, 0, DoStopCheck);
    s := Settle(StopCheck(s1, 0));
  }
}
