/** Every step of a reaper keeps the invariant of the ACP proxy. */
module AcpReaperSteps {
  import opened Wrappers
  import opened AcpTable
  import opened AcpProtocol
  import opened AcpLocks
  import opened AcpInvariant
  import opened AcpMoves
  import opened AcpChannelSteps

  lemma WakeKeeps(s: State, n: nat)
    requires Inv(s)
    ensures ReaperAt(s, n).Armed? ==> Inv(Wake(s, n))
    ensures ReaperAt(s, n).Probing? ==> Inv(Probe(s, n))
  {
    hide Inv;
    var pc := ReaperAt(s, n);
    if pc.Armed? {
      Here(s, Reaper(n));
      MovedOn(s, Reaper(n), if SessionChannel(s.sessions, pc.sid).Some? then Done else Probing(pc.sid, pc.counter));
    }
    if pc.Probing? {
      Here(s, Reaper(n));
      if pc.sid in s.sessions { There(s, pc.sid); }
      MovedOn(s, Reaper(n), if pc.sid in s.sessions
          && StateOf(s.states, s.sessions[pc.sid].state).cancelCounter == pc.counter
                            then Matched(pc.sid, s.sessions[pc.sid].state) else Done);
    }
  }

  lemma TakeLockKeeps(s: State, n: nat)
    requires Inv(s) && ReaperAt(s, n).Matched?
    ensures Inv(TakeLock(s, n))
  {
    hide Inv;
    var pc := ReaperAt(s, n);
    Here(s, Reaper(n));
    MovedAsking(s, Reaper(n), StopWait(pc.sid, LockOf(s, pc.sid), pc.state), pc.sid);
  }

  lemma StopCheckKeeps(s: State, n: nat)
    requires Inv(s) && ReaperAt(s, n).StopWait? && ReaperAt(s, n).lock !in s.held
    ensures Inv(StopCheck(s, n))
  {
    hide Inv;
    var t, pc := Reaper(n), ReaperAt(s, n);
    Here(s, t);
    if SessionChannel(s.sessions, pc.sid).Some? {
      MovedOn(s, t, Done);
    } else {
      MovedTaking(s, t, Stopping(pc.sid, pc.lock, pc.state));
    }
  }

  lemma StopCloseKeeps(s: State, n: nat)
    requires Inv(s) && ReaperAt(s, n).Stopping?
    ensures Inv(StopClose(s, n))
  {
    hide Inv;
    var t, pc := Reaper(n), ReaperAt(s, n);
    Removed(s, pc.sid);
    var s1 := s.(sessions := Remove(s.sessions, pc.sid));
    Here(s1, t);
    MovedOn(s1, t, Discarding(pc.sid, pc.lock));
  }

  lemma StopCancelKeeps(s: State, n: nat)
    requires Inv(s) && ReaperAt(s, n).Stopping?
    ensures Inv(StopCancel(s, n))
  {
    hide Inv;
    var t, pc := Reaper(n), ReaperAt(s, n);
    Here(s, t);
    UpdatedBy(s, t, pc.state, s.states[pc.state].(cancelled := true));
    var s1 := s.(states := s.states[pc.state := s.states[pc.state].(cancelled := true)]);
    LetGo(s1, pc.state);
    var s2 := s1.(released := s.released + {pc.state});
    Here(s2, t);
    MovedReleasing(s2, t, Done);
  }

  lemma LetGo(s: State, id: StateId)
    requires Inv(s)
    ensures Inv(s.(released := s.released + {id}))
  {
    hide LocksOk, SendersOk, TableOk, ObjectsOk, RouterOk, OwnersOk, AllProgressOk, TargetOk, DeliveryOk, ReplaysOk,
      QueuesOk, OutcomesOk, TaskCovers;
    forall sid | sid in s.sessions && s.sessions[sid].channel.None?
      ensures Covered(sid, s.sessions[sid].state, s.states, s.released + {id}, s.tasks, s.router)
    {
      assert Covered(sid, s.sessions[sid].state, s.states, s.released, s.tasks, s.router);
    }
  }

  lemma DiscardKeeps(s: State, n: nat)
    requires Inv(s) && ReaperAt(s, n).Discarding?
    ensures Inv(Discard(s, n))
  {
    hide Inv, LocksOk, Ref, Bypass;
    var t, pc := Reaper(n), ReaperAt(s, n);
    Here(s, t);
    MovedDone(s, t);
    var bypassed := Bypass(s, pc.sid, Some(t));
    var s1 := s.(tasks := s.tasks[t := Done], held := Remove(s.held, pc.lock));
    Bypassed(s1, Remove(s.locks, pc.sid), bypassed);
  }

  /** The mutex is released and forgotten; who else still refers to it makes the session bypassed. */
  lemma MovedDone(s: State, t: Task)
    requires Inv(s) && t in s.tasks && s.tasks[t].Discarding? && MayMove(s, t, Done)
    ensures Inv(s.(tasks := s.tasks[t := Done], held := Remove(s.held, s.tasks[t].lock)))
    ensures LocksOk(s.tasks[t := Done], Remove(s.locks, s.tasks[t].sid), s.nextLock, Remove(s.held, s.tasks[t].lock),
            Bypass(s, s.tasks[t].sid, Some(t)))
    ensures s.bypassed <= Bypass(s, s.tasks[t].sid, Some(t))
  {
    hide LocksOk, SendersOk, TableOk, ObjectsOk, RouterOk, OwnersOk, AllProgressOk, TargetOk, DeliveryOk, ReplaysOk,
      QueuesOk, OutcomesOk, CoverageOk, MayMove, Bypass;
    MovedReleasing(s, t, Done);
    Discarded(s, t, Done);
  }

  lemma ReaperKeeps(s: State, n: nat, a: ReaperStep)
    requires Inv(s) && ReaperCan(s, n, a)
    ensures Inv(ReaperNext(s, n, a))
  {
    hide Inv, Wake, Probe, TakeLock, StopCheck, StopClose, StopCancel, Discard;
    match a
    case DoWake => WakeKeeps(s, n);
    case DoProbe => WakeKeeps(s, n);
    case DoTakeLock => TakeLockKeeps(s, n);
    case DoStopCheck => StopCheckKeeps(s, n);
    case DoStopClose => StopCloseKeeps(s, n);
    case DoStopCancel => StopCancelKeeps(s, n);
    case DoDiscard => DiscardKeeps(s, n);
  }
}
