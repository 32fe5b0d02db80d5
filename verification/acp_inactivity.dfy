/** Stopping an idle agent process: joins, departures and inactivity timers
    (tidewave-core/src/ws/acp.rs, `init` and `spawn_process_stop_after_inactivity`).

    A join holds the process lifecycle mutex while it bumps `connect_epoch` and then
    subscribes to the exit broadcast. A departure reads the number of subscribers and
    then the epoch, as two reads without the mutex. A timer compares its epoch with the
    mutex held. What the agent supports is left open, so every timer may fire. */
module AcpInactivity {
  import opened Wrappers

  type ChannelId = nat
  type ProcessId = nat

  datatype Process = Process(epoch: nat, subscribers: set<ChannelId>)

  datatype Pc =
    | Entered(p: ProcessId)            // has the mutex, process looked up or started
    | Bumped(p: ProcessId)             // epoch bumped, not subscribed yet
    | Running(p: ProcessId)
    | Left                             // subscription dropped
    | Counted(p: ProcessId)            // has read a subscriber count of zero
    | Read(p: ProcessId, epoch: nat)   // has read the epoch; may still wait for init
    | Gone

  datatype Timer = Timer(p: ProcessId, epoch: nat)

  datatype State = State(
    processes: map<ProcessId, Process>,
    current: Option<ProcessId>,
    mutex: Option<ChannelId>,
    channels: map<ChannelId, Pc>,
    timers: map<nat, Timer>,
    signalled: set<ProcessId>)

  const INIT := State(map[], None, None, map[], map[], {})

  datatype Action =
    | Enter(c: ChannelId, p: ProcessId)
    | Bump(c: ChannelId)
    | Subscribe(c: ChannelId)
    | Leave(c: ChannelId)
    | Count(c: ChannelId)
    | ReadEpoch(c: ChannelId)
    | Arm(c: ChannelId, t: nat)
    | Fire(t: nat)
    | Exit

  function At(s: State, c: ChannelId): Pc {
    if c in s.channels then s.channels[c] else Gone
  }

  predicate Can(s: State, a: Action) {
    match a
    case Enter(c, p) => c !in s.channels && s.mutex.None?
        && (if s.current.Some? then s.current == Some(p) else p !in s.processes)
    case Bump(c) => At(s, c).Entered? && At(s, c).p in s.processes
    case Subscribe(c) => At(s, c).Bumped? && At(s, c).p in s.processes
    case Leave(c) => At(s, c).Running? && At(s, c).p in s.processes
    case Count(c) => At(s, c).Left?
    case ReadEpoch(c) => At(s, c).Counted? && At(s, c).p in s.processes
    case Arm(c, t) => At(s, c).Read? && t !in s.timers
    case Fire(t) => t in s.timers && s.mutex.None?
    case Exit => s.mutex.None?
  }

  function Go(s: State, c: ChannelId, pc: Pc): State {
    s.(channels := s.channels[c := pc])
  }

  function Update(s: State, p: ProcessId, process: Process): State {
    s.(processes := s.processes[p := process])
  }

  function Next(s: State, a: Action): State
    requires Can(s, a)
  {
    match a
    case Enter(c, p) =>
      var s' := Go(s, c, Entered(p)).(mutex := Some(c));
      if s.current.Some? then s' else Update(s', p, Process(0, {})).(current := Some(p))
    case Bump(c) =>
      var p := At(s, c).p;
      Update(Go(s, c, Bumped(p)), p, s.processes[p].(epoch := s.processes[p].epoch + 1))
    case Subscribe(c) =>
      var p := At(s, c).p;
      Update(Go(s, c, Running(p)), p, s.processes[p].(subscribers := s.processes[p].subscribers + {c})).(mutex := None)
    case Leave(c) =>
      var p := At(s, c).p;
      Update(Go(s, c, Left), p, s.processes[p].(subscribers := s.processes[p].subscribers - {c}))
    case Count(c) =>
      if s.current.Some? && s.current.value in s.processes && s.processes[s.current.value].subscribers == {}
      then Go(s, c, Counted(s.current.value)) else Go(s, c, Gone)
    case ReadEpoch(c) =>
      Go(s, c, Read(At(s, c).p, s.processes[At(s, c).p].epoch))
    case Arm(c, t) =>
      Go(s, c, Gone).(timers := s.timers[t := Timer(At(s, c).p, At(s, c).epoch)])
    case Fire(t) =>
      var timer := s.timers[t];
      var s' := s.(timers := map u | u in s.timers && u != t :: s.timers[u]);
      if Strikes(s, timer) then s'.(current := None, signalled := s.signalled + {timer.p}) else s'
    case Exit =>
      s.(current := None)
  }

  /** The timer's epoch is still the process's: its exit signal is sent. */
  predicate Strikes(s: State, timer: Timer) {
    timer.p in s.processes && s.processes[timer.p].epoch == timer.epoch
  }

  predicate Entering(s: State, p: ProcessId) {
    s.mutex.Some? && At(s, s.mutex.value) == Entered(p)
  }

  predicate Bumping(s: State, p: ProcessId) {
    s.mutex.Some? && At(s, s.mutex.value) == Bumped(p)
  }

  predicate HasSubscribers(s: State, p: ProcessId) {
    p in s.processes && s.processes[p].subscribers != {}
  }

  /** The zero count and the epoch do not belong together: a join is between its bump and
      its subscription, or has subscribed already and no further join is about to bump. */
  predicate Torn(s: State, p: ProcessId) {
    Bumping(s, p) || (HasSubscribers(s, p) && !Entering(s, p))
  }

  // ---------------------------------------------------------------- invariant

  ghost predicate Inv(s: State) {
    Sections(s) && Subscribed(s)
  }

  /** Who is inside the mutex section, and that it works on the registered process. */
  ghost predicate Sections(s: State) {
    && (forall c :: c in s.channels && (s.channels[c].Entered? || s.channels[c].Bumped?) ==>
         s.mutex == Some(c) && s.channels[c].p in s.processes)
    && (s.mutex.Some? ==> At(s, s.mutex.value).Entered? || At(s, s.mutex.value).Bumped?)
    && (s.current.Some? ==> s.current.value in s.processes)
    && (forall c :: c in s.channels && (s.channels[c].Running? || s.channels[c].Counted? || s.channels[c].Read?) ==>
         s.channels[c].p in s.processes)
    && (forall t :: t in s.timers ==> s.timers[t].p in s.processes)
  }

  predicate Runs(s: State, c: ChannelId, p: ProcessId) {
    c in s.channels && s.channels[c] == Running(p)
  }

  /** The subscribers of a process are the channels that run on it. */
  ghost predicate Subscribed(s: State) {
    forall p, c :: p in s.processes ==> (c in s.processes[p].subscribers <==> Runs(s, c, p))
  }

  lemma JoinKeeps(s: State, a: Action)
    requires (a.Enter? || a.Bump? || a.Subscribe?) && Sections(s) && Can(s, a)
    ensures Sections(Next(s, a))
  {
  }

  lemma DepartureKeeps(s: State, a: Action)
    requires (a.Leave? || a.Count? || a.ReadEpoch? || a.Arm?) && Sections(s) && Can(s, a)
    ensures Sections(Next(s, a))
  {
  }

  lemma SectionsKeep(s: State, a: Action)
    requires Sections(s) && Can(s, a)
    ensures Sections(Next(s, a))
  {
    if a.Enter? || a.Bump? || a.Subscribe? {
      hide Sections, Can, Next;
      JoinKeeps(s, a);
    } else if !a.Fire? && !a.Exit? {
      hide Sections, Can, Next;
      DepartureKeeps(s, a);
    }
  }

  lemma SubscribedKeeps(s: State, a: Action)
    requires Inv(s) && Can(s, a)
    ensures Subscribed(Next(s, a))
  {
    forall p, c | p in Next(s, a).processes
      ensures c in Next(s, a).processes[p].subscribers <==> Runs(Next(s, a), c, p)
    {
      assert p in s.processes ==> (c in s.processes[p].subscribers <==> Runs(s, c, p));
    }
  }

  lemma StepKeeps(s: State, a: Action)
    requires Inv(s) && Can(s, a)
    ensures Inv(Next(s, a))
  {
    hide Sections, Subscribed, Can, Next;
    SectionsKeep(s, a);
    SubscribedKeeps(s, a);
  }

  /** An epoch that is outdated, or that was read with nobody connected or connecting. */
  predicate Harmless(s: State, p: ProcessId, epoch: nat) {
    p in s.processes && (epoch < s.processes[p].epoch || (epoch == s.processes[p].epoch && !Torn(s, p)))
  }

  lemma HarmlessKeeps(s: State, a: Action, p: ProcessId, epoch: nat)
    requires Inv(s) && Can(s, a) && Harmless(s, p, epoch)
    ensures Harmless(Next(s, a), p, epoch)
  {
  }

  predicate IsRun(s: State, actions: seq<Action>)
    decreases |actions|
  {
    actions == [] || (Can(s, actions[0]) && IsRun(Next(s, actions[0]), actions[1..]))
  }

  function Run(s: State, actions: seq<Action>): State
    requires IsRun(s, actions)
    decreases |actions|
  {
    if actions == [] then s else Run(Next(s, actions[0]), actions[1..])
  }

  lemma {:induction false} RunKeeps(s: State, actions: seq<Action>, p: ProcessId, epoch: nat)
    requires Inv(s) && IsRun(s, actions) && Harmless(s, p, epoch)
    ensures Inv(Run(s, actions)) && Harmless(Run(s, actions), p, epoch)
    decreases |actions|
  {
    hide Can, Next, Harmless, Inv;
    if actions != [] {
      StepKeeps(s, actions[0]);
      HarmlessKeeps(s, actions[0], p, epoch);
      RunKeeps(Next(s, actions[0]), actions[1..], p, epoch);
    }
  }

  lemma {:induction false} RunHolds(s: State, actions: seq<Action>)
    requires Inv(s) && IsRun(s, actions)
    ensures Inv(Run(s, actions))
    decreases |actions|
  {
    hide Can, Next, Inv;
    if actions != [] {
      StepKeeps(s, actions[0]);
      RunHolds(Next(s, actions[0]), actions[1..]);
    }
  }

  lemma StartHolds()
    ensures Inv(INIT)
  {
  }

  // ---------------------------------------------------------------- exit signals

  /** The step sends the process its exit signal. */
  predicate Signals(s: State, a: Action, p: ProcessId)
    requires Can(s, a)
  {
    p !in s.signalled && p in Next(s, a).signalled
  }

  /** The exit signal is sent exactly by a timer of the process whose epoch is the process's
      present one, and the process can no longer be joined from then on. */
  lemma SignalledExactlyWhenEpochStands(s: State, a: Action, p: ProcessId)
    requires Inv(s) && Can(s, a)
    ensures s.signalled <= Next(s, a).signalled
    ensures Signals(s, a, p)
            <==> p !in s.signalled && a.Fire? && s.timers[a.t].p == p && s.timers[a.t].epoch == s.processes[p].epoch
    ensures Signals(s, a, p) ==> Next(s, a).current == None && Next(s, a).processes == s.processes
  {
  }

  /** The state after the first `i` actions. */
  function After(s: State, actions: seq<Action>, i: nat): State
    requires IsRun(s, actions) && i <= |actions|
    decreases i
  {
    if i == 0 then s else After(Next(s, actions[0]), actions[1..], i - 1)
  }

  lemma {:induction false} CanAfter(s: State, actions: seq<Action>, i: nat)
    requires IsRun(s, actions) && i < |actions| && Inv(s)
    ensures Can(After(s, actions, i), actions[i]) && Inv(After(s, actions, i))
    decreases i
  {
    hide Can, Next, Inv;
    if i > 0 {
      StepKeeps(s, actions[0]);
      CanAfter(Next(s, actions[0]), actions[1..], i - 1);
    }
  }

  /** The step is a timer of the process firing with the process's present epoch. */
  predicate FiresInTime(s: State, a: Action, p: ProcessId) {
    a.Fire? && a.t in s.timers && p in s.processes && s.timers[a.t] == Timer(p, s.processes[p].epoch)
  }

  /** Over every run, the processes signalled are those for which such a timer has fired. */
  lemma {:induction false} SignalledOverRuns(s: State, actions: seq<Action>, p: ProcessId)
    requires Inv(s) && IsRun(s, actions)
    ensures p in Run(s, actions).signalled
            <==> p in s.signalled || exists i :: 0 <= i < |actions| && FiresInTime(After(s, actions, i), actions[i], p)
    decreases |actions|
  {
    hide Can, Next, Inv, FiresInTime;
    if actions != [] {
      var s1, rest := Next(s, actions[0]), actions[1..];
      StepKeeps(s, actions[0]);
      FiresOnce(s, actions[0], p);
      SignalledOverRuns(s1, rest, p);
      assert After(s, actions, 0) == s;
      forall i | 0 <= i < |rest| ensures After(s, actions, i + 1) == After(s1, rest, i) && actions[i + 1] == rest[i] {
      }
      if p in Run(s, actions).signalled && p !in s.signalled && !FiresInTime(s, actions[0], p) {
        var i :| 0 <= i < |rest| && FiresInTime(After(s1, rest, i), rest[i], p);
        assert FiresInTime(After(s, actions, i + 1), actions[i + 1], p);
      }
      if i :| 0 <= i < |actions| && FiresInTime(After(s, actions, i), actions[i], p) {
        if i > 0 { assert FiresInTime(After(s1, rest, i - 1), rest[i - 1], p); }
      }
    }
  }

  lemma FiresOnce(s: State, a: Action, p: ProcessId)
    requires Inv(s) && Can(s, a)
    ensures p in Next(s, a).signalled <==> p in s.signalled || FiresInTime(s, a, p)
  {
  }

  // ---------------------------------------------------------------- one departure

  /** Channel `c` arms timer `t` after `before`, and after `during` that timer signals `p` while
      somebody is subscribed to it. */
  ghost predicate Harms(s: State, before: seq<Action>, c: ChannelId, t: nat, during: seq<Action>, p: ProcessId) {
    && IsRun(s, before) && Can(Run(s, before), Arm(c, t))
    && var armed := Next(Run(s, before), Arm(c, t));
       && IsRun(armed, during) && Fire(t) !in during
       && var s' := Run(armed, during);
          Can(s', Fire(t)) && HasSubscribers(s', p) && Signals(s', Fire(t), p)
  }

  /** Some continuation lets the timer of channel `c` stop `p` under its clients. */
  ghost predicate CanHarm(s: State, c: ChannelId, p: ProcessId) {
    exists before, t, during :: Harms(s, before, c, t, during, p)
  }

  /** A departing channel reads the epoch: its timer, however late it is armed and fires,
      stays away from connected processes exactly if the count of zero still stood, or the
      process had been signalled before. */
  lemma TimerHarmsExactlyWhenTorn(s: State, c: ChannelId)
    requires Inv(s) && Can(s, ReadEpoch(c))
    ensures CanHarm(Next(s, ReadEpoch(c)), c, At(s, c).p) <==> Torn(s, At(s, c).p) && At(s, c).p !in s.signalled
  {
    hide CanHarm, Harms, Inv, Torn, Harmless;
    var p, s' := At(s, c).p, Next(s, ReadEpoch(c));
    StepKeeps(s, ReadEpoch(c));
    ReadLeavesTorn(s, c);
    if Torn(s, p) && p !in s.signalled {
      TornHarms(s', c, p);
    }
    if CanHarm(s', c, p) {
      HarmComesFromTorn(s', c, p);
    }
  }

  lemma ReadLeavesTorn(s: State, c: ChannelId)
    requires Inv(s) && Can(s, ReadEpoch(c))
    ensures var p, s' := At(s, c).p, Next(s, ReadEpoch(c));
            && (Torn(s', p) <==> Torn(s, p)) && p in s'.processes
            && At(s', c) == Read(p, s'.processes[p].epoch) && s'.signalled == s.signalled
            && (!Torn(s, p) ==> Harmless(s', p, s'.processes[p].epoch))
  {
  }

  lemma HarmComesFromTorn(s: State, c: ChannelId, p: ProcessId)
    requires Inv(s) && p in s.processes && At(s, c) == Read(p, s.processes[p].epoch) && CanHarm(s, c, p)
    ensures p !in s.signalled && !Harmless(s, p, s.processes[p].epoch)
  {
    hide Can, Next, IsRun, Run, Inv, Harmless, Signals;
    var before, t, during :| Harms(s, before, c, t, during, p);
    var epoch := s.processes[p].epoch;
    var s1 := Run(s, before);
    ReadStays(s, before, c, p, epoch);
    RunHolds(s, before);
    Arms(s1, c, t, p, epoch);
    var s2 := Next(s1, Arm(c, t));
    StepKeeps(s1, Arm(c, t));
    TimerStays(s2, during, t);
    var s3 := Run(s2, during);
    RunHolds(s2, during);
    SignalsGrow(s, before, p);
    SignalsGrow(s2, during, p);
    FreshSignal(s3, t, p);
    if Harmless(s, p, epoch) {
      RunKeeps(s, before, p, epoch);
      HarmlessKeeps(s1, Arm(c, t), p, epoch);
      RunKeeps(s2, during, p, epoch);
      HarmlessSpares(s3, t, p, epoch);
    }
  }

  lemma FreshSignal(s: State, t: nat, p: ProcessId)
    requires Can(s, Fire(t)) && Signals(s, Fire(t), p)
    ensures p !in s.signalled
  {
  }

  lemma Arms(s: State, c: ChannelId, t: nat, p: ProcessId, epoch: nat)
    requires Can(s, Arm(c, t)) && (At(s, c) == Read(p, epoch) || At(s, c).Gone?)
    ensures var s' := Next(s, Arm(c, t)); t in s'.timers && s'.timers[t] == Timer(p, epoch)
    ensures Next(s, Arm(c, t)).signalled == s.signalled
  {
  }

  lemma HarmlessSpares(s: State, t: nat, p: ProcessId, epoch: nat)
    requires Inv(s) && Can(s, Fire(t)) && s.timers[t] == Timer(p, epoch) && Harmless(s, p, epoch)
    ensures Signals(s, Fire(t), p) ==> !HasSubscribers(s, p)
  {
  }

  lemma {:induction false} ReadStays(s: State, actions: seq<Action>, c: ChannelId, p: ProcessId, epoch: nat)
    requires IsRun(s, actions) && c in s.channels && (At(s, c) == Read(p, epoch) || At(s, c).Gone?)
    ensures At(Run(s, actions), c) == Read(p, epoch) || At(Run(s, actions), c).Gone?
    decreases |actions|
  {
    hide Can, Next;
    if actions != [] {
      ReadStep(s, actions[0], c, p, epoch);
      ReadStays(Next(s, actions[0]), actions[1..], c, p, epoch);
    }
  }

  lemma ReadStep(s: State, a: Action, c: ChannelId, p: ProcessId, epoch: nat)
    requires Can(s, a) && c in s.channels && (At(s, c) == Read(p, epoch) || At(s, c).Gone?)
    ensures c in Next(s, a).channels && (At(Next(s, a), c) == Read(p, epoch) || At(Next(s, a), c).Gone?)
  {
  }

  lemma {:induction false} TimerStays(s: State, actions: seq<Action>, t: nat)
    requires IsRun(s, actions) && t in s.timers && Fire(t) !in actions
    ensures t in Run(s, actions).timers && Run(s, actions).timers[t] == s.timers[t]
    decreases |actions|
  {
    hide Can, Next;
    if actions != [] {
      TimerStep(s, actions[0], t);
      TimerStays(Next(s, actions[0]), actions[1..], t);
    }
  }

  lemma TimerStep(s: State, a: Action, t: nat)
    requires Can(s, a) && t in s.timers && a != Fire(t)
    ensures t in Next(s, a).timers && Next(s, a).timers[t] == s.timers[t]
  {
  }

  lemma {:induction false} SignalsGrow(s: State, actions: seq<Action>, p: ProcessId)
    requires IsRun(s, actions)
    ensures p in s.signalled ==> p in Run(s, actions).signalled
    decreases |actions|
  {
    hide Can, Next;
    if actions != [] {
      SignalsStay(s, actions[0]);
      SignalsGrow(Next(s, actions[0]), actions[1..], p);
    }
  }

  lemma SignalsStay(s: State, a: Action)
    requires Can(s, a)
    ensures s.signalled <= Next(s, a).signalled
  {
  }

  lemma TornHarms(s: State, c: ChannelId, p: ProcessId)
    requires Inv(s) && p in s.processes && Torn(s, p) && p !in s.signalled
    requires At(s, c) == Read(p, s.processes[p].epoch)
    ensures CanHarm(s, c, p)
  {
    hide CanHarm, IsRun, Run;
    if s.mutex.None? {
      assert IsRun(s, []) && Run(s, []) == s by { Nothing(s); }
      ArmAndFire(s, [], s, c, p);
    } else if Bumping(s, p) {
      var d := s.mutex.value;
      OneStep(s, Subscribe(d));
      var s1 := Next(s, Subscribe(d));
      assert d in s1.processes[p].subscribers;
      ArmAndFire(s, [Subscribe(d)], s1, c, p);
    } else {
      OtherJoinEnds(s, c, p);
    }
  }

  lemma Nothing(s: State)
    ensures IsRun(s, []) && Run(s, []) == s
  {
  }

  /** A join that works on another process finishes without touching this one. */
  lemma OtherJoinEnds(s: State, c: ChannelId, p: ProcessId)
    requires Inv(s) && s.mutex.Some? && HasSubscribers(s, p) && !Entering(s, p) && !Bumping(s, p) && p !in s.signalled
    requires At(s, c) == Read(p, s.processes[p].epoch)
    ensures CanHarm(s, c, p)
  {
    hide CanHarm, IsRun, Run;
    var d := s.mutex.value;
    if At(s, d).Bumped? {
      OneStep(s, Subscribe(d));
      ArmAndFire(s, [Subscribe(d)], Next(s, Subscribe(d)), c, p);
    } else {
      var s1 := Next(s, Bump(d));
      OneStep(s1, Subscribe(d));
      var actions := Prepend(s, Bump(d), [Subscribe(d)]);
      ArmAndFire(s, actions, Next(s1, Subscribe(d)), c, p);
    }
  }

  lemma ArmAndFire(start: State, before: seq<Action>, s: State, c: ChannelId, p: ProcessId)
    requires IsRun(start, before) && Run(start, before) == s && s.mutex.None? && HasSubscribers(s, p)
    requires At(s, c) == Read(p, s.processes[p].epoch) && p !in s.signalled
    ensures CanHarm(start, c, p)
  {
    hide IsRun, Run;
    var t := FreshTimer(s.timers.Keys);
    Nothing(Next(s, Arm(c, t)));
    FiresUnderClients(s, c, t, p);
    hide Can, Next, Signals, HasSubscribers;
    assert Harms(start, before, c, t, [], p);
  }

  lemma FiresUnderClients(s: State, c: ChannelId, t: nat, p: ProcessId)
    requires s.mutex.None? && HasSubscribers(s, p) && t !in s.timers
    requires At(s, c) == Read(p, s.processes[p].epoch) && p !in s.signalled
    ensures Can(s, Arm(c, t)) && Can(Next(s, Arm(c, t)), Fire(t))
    ensures HasSubscribers(Next(s, Arm(c, t)), p) && Signals(Next(s, Arm(c, t)), Fire(t), p)
  {
  }

  lemma FreshTimer(used: set<nat>) returns (t: nat)
    ensures forall u :: u in used ==> u < t
  {
    t := 0;
    if used != {} {
      var m :| m in used;
      t := FreshTimer(used - {m});
      forall u | u in used ensures u == m || u < t {
        assert u == m || u in used - {m};
      }
      t := if m >= t then m + 1 else t;
    }
  }

  lemma OneStep(s: State, a: Action)
    requires Can(s, a)
    ensures IsRun(s, [a]) && Run(s, [a]) == Next(s, a)
  {
    assert [a][1..] == [];
  }

  lemma Prepend(s: State, a: Action, actions: seq<Action>) returns (all: seq<Action>)
    requires Can(s, a) && IsRun(Next(s, a), actions)
    ensures IsRun(s, all) && Run(s, all) == Run(Next(s, a), actions) && all == [a] + actions
  {
    all := [a] + actions;
    assert all[1..] == actions;
  }

  // ---------------------------------------------------------------- runs from the start

  /** Whenever the run reads an epoch of `p`, the count of zero still stands. */
  ghost predicate ReadsInTime(s: State, actions: seq<Action>, p: ProcessId)
    requires IsRun(s, actions)
    decreases |actions|
  {
    actions == []
    || ((actions[0].ReadEpoch? && At(s, actions[0].c).p == p ==> !Torn(s, p))
        && ReadsInTime(Next(s, actions[0]), actions[1..], p))
  }

  /** Whenever the run signals `p`, nobody is subscribed to it, so no channel runs on it. */
  ghost predicate SparesClients(s: State, actions: seq<Action>, p: ProcessId)
    requires IsRun(s, actions)
    decreases |actions|
  {
    actions == []
    || ((Signals(s, actions[0], p) ==> s.processes[p].subscribers == {} && forall c :: !Runs(s, c, p))
        && SparesClients(Next(s, actions[0]), actions[1..], p))
  }

  /** Every epoch read for `p`, whether or not its timer is armed yet, is harmless. */
  ghost predicate AllHarmless(s: State, p: ProcessId) {
    && (forall c :: c in s.channels && s.channels[c].Read? && s.channels[c].p == p ==>
         Harmless(s, p, s.channels[c].epoch))
    && (forall t :: t in s.timers && s.timers[t].p == p ==> Harmless(s, p, s.timers[t].epoch))
  }

  lemma AllHarmlessStep(s: State, a: Action, p: ProcessId)
    requires Inv(s) && Can(s, a) && AllHarmless(s, p)
    requires a.ReadEpoch? && At(s, a.c).p == p ==> !Torn(s, p)
    ensures AllHarmless(Next(s, a), p)
    ensures Signals(s, a, p) ==> s.processes[p].subscribers == {} && forall c :: !Runs(s, c, p)
  {
    hide Inv, Can, Next, Harmless;
    var s' := Next(s, a);
    forall c | c in s'.channels && s'.channels[c].Read? && s'.channels[c].p == p
      ensures Harmless(s', p, s'.channels[c].epoch)
    {
      ReadFrom(s, a, c);
      if c in s.channels && s.channels[c] == s'.channels[c] {
        HarmlessKeeps(s, a, p, s'.channels[c].epoch);
      } else {
        ReadLeavesTorn(s, c);
      }
    }
    forall t | t in s'.timers && s'.timers[t].p == p ensures Harmless(s', p, s'.timers[t].epoch) {
      ArmedFrom(s, a, t);
      HarmlessKeeps(s, a, p, s'.timers[t].epoch);
    }
    SignalSpares(s, a, p);
  }

  lemma ReadFrom(s: State, a: Action, c: ChannelId)
    requires Can(s, a) && c in Next(s, a).channels && Next(s, a).channels[c].Read?
    ensures (c in s.channels && s.channels[c] == Next(s, a).channels[c])
            || (a == ReadEpoch(c) && At(s, c).p == Next(s, a).channels[c].p && At(s, c).p in s.processes
                && At(s, c).p in Next(s, a).processes
                && Next(s, a).processes[At(s, c).p].epoch == Next(s, a).channels[c].epoch)
  {
  }

  lemma ArmedFrom(s: State, a: Action, t: nat)
    requires Can(s, a) && t in Next(s, a).timers
    ensures (t in s.timers && s.timers[t] == Next(s, a).timers[t])
            || (a.Arm? && a.c in s.channels && s.channels[a.c]
                == Read(Next(s, a).timers[t].p, Next(s, a).timers[t].epoch))
  {
  }

  lemma SignalSpares(s: State, a: Action, p: ProcessId)
    requires Inv(s) && Can(s, a) && AllHarmless(s, p)
    ensures Signals(s, a, p) ==> s.processes[p].subscribers == {} && forall c :: !Runs(s, c, p)
  {
    hide Can, Next, Harmless, Inv, Signals;
    SignalledExactlyWhenEpochStands(s, a, p);
    if Signals(s, a, p) {
      FiresBy(s, a, p);
      HarmlessSpares(s, a.t, p, s.timers[a.t].epoch);
      NobodyRuns(s, p);
    }
  }

  lemma FiresBy(s: State, a: Action, p: ProcessId)
    requires Can(s, a) && Signals(s, a, p)
    ensures a.Fire? && a.t in s.timers && s.timers[a.t].p == p && p in s.processes
  {
  }

  lemma NobodyRuns(s: State, p: ProcessId)
    requires Inv(s) && p in s.processes && !HasSubscribers(s, p)
    ensures s.processes[p].subscribers == {} && forall c :: !Runs(s, c, p)
  {
  }

  lemma {:induction false} UntornRunSpares(s: State, actions: seq<Action>, p: ProcessId)
    requires Inv(s) && IsRun(s, actions) && AllHarmless(s, p) && ReadsInTime(s, actions, p)
    ensures SparesClients(s, actions, p)
    decreases |actions|
  {
    hide Can, Next, Inv, AllHarmless, Torn, Signals;
    if actions != [] {
      StepKeeps(s, actions[0]);
      AllHarmlessStep(s, actions[0], p);
      UntornRunSpares(Next(s, actions[0]), actions[1..], p);
    }
  }

  /** From the start: if no epoch of the process was read with a torn count, the process is
      only ever signalled while nobody is connected to it. */
  lemma IdleTimersSpareClients(actions: seq<Action>, p: ProcessId)
    requires IsRun(INIT, actions) && ReadsInTime(INIT, actions, p)
    ensures SparesClients(INIT, actions, p)
  {
    hide IsRun, ReadsInTime, SparesClients, Inv;
    StartHolds();
    UntornRunSpares(INIT, actions, p);
  }

  /** The torn read does happen: channel 2 joins between the two reads of channel 1's
      departure, and the timer can stop the process under it. */
  lemma TornReadStopsClient() returns (before: seq<Action>, c: ChannelId)
    ensures IsRun(INIT, before) && Can(Run(INIT, before), ReadEpoch(c))
    ensures var s := Run(INIT, before);
            Torn(s, At(s, c).p) && CanHarm(Next(s, ReadEpoch(c)), c, At(s, c).p)
  {
    hide Run, IsRun, Inv, CanHarm;
    c := 1;
    var s1 := Next(INIT, Enter(1, 0));
    var s2 := Next(s1, Bump(1));
    var s3 := Next(s2, Subscribe(1));
    assert s3.processes[0].subscribers == {1} && s3.processes == map[0 := Process(1, {1})];
    assert s3.channels == map[1 := Running(0)];
    before := JoinDuringDeparture(s3);
    before := Prepend(s2, Subscribe(1), before);
    before := Prepend(s1, Bump(1), before);
    before := Prepend(INIT, Enter(1, 0), before);
    StartHolds();
    RunHolds(INIT, before);
    TimerHarmsExactlyWhenTorn(Run(INIT, before), 1);
  }

  /** Channel 1 leaves and counts, and channel 2 bumps the epoch before channel 1 reads it. */
  lemma JoinDuringDeparture(s: State) returns (actions: seq<Action>)
    requires s == State(map[0 := Process(1, {1})], Some(0), None, map[1 := Running(0)], map[], {})
    ensures IsRun(s, actions)
    ensures var s' := Run(s, actions); Can(s', ReadEpoch(1)) && Torn(s', 0) && At(s', 1).p == 0 && s'.signalled == {}
  {
    hide Run, IsRun, Inv;
    var s1 := Next(s, Leave(1));
    assert s1.processes[0].subscribers == {};
    var s2 := Next(s1, Count(1));
    var s3 := Next(s2, Enter(2, 0));
    OneStep(s3, Bump(2));
    actions := Prepend(s2, Enter(2, 0), [Bump(2)]);
    actions := Prepend(s1, Count(1), actions);
    actions := Prepend(s, Leave(1), actions);
  }

  // ---------------------------------------------------------------- idle processes

  /** When the last client leaves, its timer can stop the process. */
  lemma LastDepartureCanStop(s: State, c: ChannelId, t: nat)
    requires Inv(s) && At(s, c).Running? && s.current == Some(At(s, c).p) && s.mutex.None?
    requires s.processes[At(s, c).p].subscribers == {c} && At(s, c).p !in s.signalled && t !in s.timers
    ensures var actions := [Leave(c), Count(c), ReadEpoch(c), Arm(c, t), Fire(t)];
            IsRun(s, actions) && At(s, c).p in Run(s, actions).signalled && Run(s, actions).current == None
  {
    hide IsRun, Run, Inv;
    var p := At(s, c).p;
    assert p in s.processes by { InProcesses(s, c); }
    var s1 := Next(s, Leave(c));
    assert s1.processes[p].subscribers == {};
    var s2 := Next(s1, Count(c));
    var actions := CountedCanStop(s2, c, p, t);
    actions := Prepend(s1, Count(c), actions);
    actions := Prepend(s, Leave(c), actions);
    assert actions == [Leave(c), Count(c), ReadEpoch(c), Arm(c, t), Fire(t)];
  }

  lemma InProcesses(s: State, c: ChannelId)
    requires Inv(s) && At(s, c).Running?
    ensures At(s, c).p in s.processes
  {
  }

  lemma CountedCanStop(s: State, c: ChannelId, p: ProcessId, t: nat) returns (actions: seq<Action>)
    requires At(s, c) == Counted(p) && p in s.processes && s.mutex.None? && p !in s.signalled && t !in s.timers
    ensures actions == [ReadEpoch(c), Arm(c, t), Fire(t)] && IsRun(s, actions)
    ensures p in Run(s, actions).signalled && Run(s, actions).current == None
  {
    hide IsRun, Run;
    var s1 := Next(s, ReadEpoch(c));
    var s2 := Next(s1, Arm(c, t));
    OneStep(s2, Fire(t));
    actions := Prepend(s1, Arm(c, t), [Fire(t)]);
    actions := Prepend(s, ReadEpoch(c), actions);
  }

  /** Some departing channel has counted no subscribers of the registered process `p`. */
  predicate CountsZero(s: State, a: Action, p: ProcessId) {
    a.Count? && At(s, a.c).Left? && s.current == Some(p) && p in s.processes && s.processes[p].subscribers == {}
  }

  /** A count of zero for `p` has been taken already. */
  ghost predicate Counted0(s: State, p: ProcessId) {
    || (exists c :: c in s.channels && (s.channels[c].Counted? || s.channels[c].Read?) && s.channels[c].p == p)
    || (exists t :: t in s.timers && s.timers[t].p == p)
    || p in s.signalled
  }

  lemma CountedStep(s: State, a: Action, p: ProcessId)
    requires Can(s, a) && Counted0(Next(s, a), p)
    ensures Counted0(s, p) || CountsZero(s, a, p)
  {
    var s' := Next(s, a);
    if c :| c in s'.channels && (s'.channels[c].Counted? || s'.channels[c].Read?) && s'.channels[c].p == p {
      assert c in s.channels;
    } else if t :| t in s'.timers && s'.timers[t].p == p {
      assert t in s.timers || a.Arm?;
    } else {
    }
  }

  lemma {:induction false} CountedBefore(s: State, actions: seq<Action>, p: ProcessId)
    requires IsRun(s, actions) && Counted0(Run(s, actions), p)
    ensures Counted0(s, p) || exists i :: 0 <= i < |actions| && CountsZero(After(s, actions, i), actions[i], p)
    decreases |actions|
  {
    hide Can, Next, Counted0, CountsZero;
    if actions != [] {
      var s1, rest := Next(s, actions[0]), actions[1..];
      CountedBefore(s1, rest, p);
      if Counted0(s1, p) {
        CountedStep(s, actions[0], p);
        assert After(s, actions, 0) == s;
      } else {
        var i :| 0 <= i < |rest| && CountsZero(After(s1, rest, i), rest[i], p);
        assert After(s, actions, i + 1) == After(s1, rest, i) && actions[i + 1] == rest[i];
      }
    }
  }

  /** From the start, a process is signalled only after a departing channel has counted no
      subscribers of it. */
  lemma SignalledOnlyAfterZeroCount(actions: seq<Action>, p: ProcessId)
    requires IsRun(INIT, actions) && p in Run(INIT, actions).signalled
    ensures exists i :: 0 <= i < |actions| && CountsZero(After(INIT, actions, i), actions[i], p)
  {
    hide IsRun, Run, CountsZero;
    CountedBefore(INIT, actions, p);
  }

  // ---------------------------------------------------------------- registration

  /** Which process new clients join changes only when the first of them starts one, when the
      process exits, or when a timer fires whose epoch still stands. */
  lemma RegistrationChangesExactlyWhen(s: State, a: Action)
    requires Inv(s) && Can(s, a)
    ensures s.current.None? ==> (Next(s, a).current.Some? <==> a.Enter?)
    ensures s.current.None? && a.Enter? ==> Next(s, a).current == Some(a.p)
    ensures var fires := a.Fire? && s.timers[a.t].epoch == s.processes[s.timers[a.t].p].epoch;
            s.current.Some? ==> (Next(s, a).current != s.current <==> a.Exit? || fires)
  {
  }

  // ---------------------------------------------------------------- successors

  /** A firing timer takes the registration of whatever process is registered by then: of
      another than its own exactly if its own has been replaced and its epoch still stands. */
  lemma FireUnregistersExactlyWhen(s: State, t: nat, q: ProcessId)
    requires Inv(s) && Can(s, Fire(t)) && s.current == Some(q)
    ensures var timer := s.timers[t];
            && (Next(s, Fire(t)).current != Some(q) <==> timer.epoch == s.processes[timer.p].epoch)
            && (Next(s, Fire(t)).current != Some(q) && timer.p != q ==>
                  Next(s, Fire(t)).current == None && Next(s, Fire(t)).processes[q] == s.processes[q]
                  && (q in Next(s, Fire(t)).signalled <==> q in s.signalled))
  {
  }

  /** Every pending timer whose epoch stands can do so: its process exits, a client `c` starts
      and joins another one, and the timer makes that one unknown to later clients while `c`
      stays connected to it. */
  lemma PendingTimerCanUnregisterSuccessor(s: State, t: nat, c: ChannelId, q: ProcessId)
    requires Inv(s) && Can(s, Fire(t)) && s.timers[t].epoch == s.processes[s.timers[t].p].epoch
    requires c !in s.channels && q !in s.processes && q !in s.signalled
    ensures var actions := [Exit, Enter(c, q), Bump(c), Subscribe(c), Fire(t)];
            IsRun(s, actions) &&
            var s' := Run(s, actions);
            s'.current == None && q !in s'.signalled && At(s', c) == Running(q) && q in s'.processes
            && s'.processes[q].subscribers == {c}
  {
    hide IsRun, Run;
    var s1 := Next(s, Exit);
    var s2 := Next(s1, Enter(c, q));
    var s3 := Next(s2, Bump(c));
    var s4 := Next(s3, Subscribe(c));
    OneStep(s4, Fire(t));
    var actions := Prepend(s3, Subscribe(c), [Fire(t)]);
    actions := Prepend(s2, Bump(c), actions);
    actions := Prepend(s1, Enter(c, q), actions);
    actions := Prepend(s, Exit, actions);
    assert actions == [Exit, Enter(c, q), Bump(c), Subscribe(c), Fire(t)];
  }
}
