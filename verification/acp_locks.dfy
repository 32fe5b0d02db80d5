/** The lifecycle mutexes of the ACP sessions: what every step keeps about who holds
    which mutex, and whether that mutex is still the one registered for its session. */
module AcpLocks {
  import opened Wrappers
  import opened AcpTable
  import opened AcpProtocol

  ghost predicate RefOk(r: LockRef, t: Task, locks: map<SessionId, Lock>, nextLock: Lock, held: map<Lock, Task>,
      bypassed: set<SessionId>) {
    r != NoLock ==>
      && r.lock < nextLock
      && (r.sid !in bypassed ==> r.sid in locks && locks[r.sid] == r.lock)
      && (r.Has? ==> r.lock in held && held[r.lock] == t)
  }

  /** A held mutex has one holder, and the mutex a task refers to is the registered one
      unless the exclusion of its session has been bypassed. */
  ghost predicate LocksOk(tasks: map<Task, Pc>, locks: map<SessionId, Lock>, nextLock: Lock, held: map<Lock, Task>,
      bypassed: set<SessionId>) {
    && (forall t :: t in tasks ==> RefOk(Ref(tasks[t]), t, locks, nextLock, held, bypassed))
    && (forall sid :: sid in locks ==> locks[sid] < nextLock)
  }

  ghost predicate Locks(s: State) {
    LocksOk(s.tasks, s.locks, s.nextLock, s.held, s.bypassed)
  }

  lemma Register(s: State, sid: SessionId)
    requires Locks(s)
    ensures LocksOk(s.tasks, s.locks[sid := LockOf(s, sid)], NextLock(s, sid), s.held, s.bypassed)
    ensures LockOf(s, sid) < NextLock(s, sid)
  {
    hide Ref;
  }

  lemma Acquired(tasks: map<Task, Pc>, locks: map<SessionId, Lock>, nextLock: Lock, held: map<Lock, Task>,
      bypassed: set<SessionId>,
                 t: Task, pc: Pc)
    requires LocksOk(tasks, locks, nextLock, held, bypassed)
    requires t in tasks && Ref(tasks[t]).Waits? && Ref(tasks[t]).lock !in held
    requires Ref(pc) == Has(Ref(tasks[t]).sid, Ref(tasks[t]).lock)
    ensures LocksOk(tasks[t := pc], locks, nextLock, held[Ref(pc).lock := t], bypassed)
  {
    hide Ref;
  }

  lemma Released(tasks: map<Task, Pc>, locks: map<SessionId, Lock>, nextLock: Lock, held: map<Lock, Task>,
      bypassed: set<SessionId>,
                 t: Task, pc: Pc)
    requires LocksOk(tasks, locks, nextLock, held, bypassed)
    requires t in tasks && Ref(tasks[t]).Has? && Ref(pc) == NoLock
    ensures LocksOk(tasks[t := pc], locks, nextLock, Remove(held, Ref(tasks[t]).lock), bypassed)
  {
    hide Ref;
  }

  lemma Dropped(s: State, sid: SessionId)
    requires Locks(s)
    ensures LocksOk(s.tasks, Remove(s.locks, sid), s.nextLock, s.held, Bypass(s, sid, None))
  {
    hide Ref;
  }

  lemma Discarded(s: State, t: Task, pc: Pc)
    requires Locks(s)
    requires t in s.tasks && Ref(s.tasks[t]).Has? && Ref(pc) == NoLock
    ensures var sid := Ref(s.tasks[t]).sid;
            LocksOk(s.tasks[t := pc], Remove(s.locks, sid), s.nextLock, Remove(s.held, Ref(s.tasks[t]).lock),
                Bypass(s, sid, Some(t)))
  {
    hide Ref;
  }

  /** A task changes its program point without touching the mutexes. */
  lemma LocksMoved(tasks: map<Task, Pc>, locks: map<SessionId, Lock>, nextLock: Lock, held: map<Lock, Task>,
      bypassed: set<SessionId>,
              t: Task, pc: Pc)
    requires LocksOk(tasks, locks, nextLock, held, bypassed)
    requires RefOk(Ref(pc), t, locks, nextLock, held, bypassed)
    ensures LocksOk(tasks[t := pc], locks, nextLock, held, bypassed)
  {
    hide Ref;
  }

  lemma Widened(s: State, bypassed: set<SessionId>)
    requires Locks(s) && s.bypassed <= bypassed
    ensures LocksOk(s.tasks, s.locks, s.nextLock, s.held, bypassed)
  {
    hide Ref;
  }
}
