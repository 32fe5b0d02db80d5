/** Runs of the ACP proxy from one state to another. */
module AcpRuns {
  import opened AcpProtocol

  ghost predicate Leads(s: State, s': State) {
    exists actions :: IsRun(s, actions) && Run(s, actions) == s'
  }

  lemma LeadsHere(s: State)
    ensures Leads(s, s)
  {
    assert IsRun(s, []) && Run(s, []) == s;
  }

  lemma {:induction false} RunsJoin(s: State, actions: seq<Action>, more: seq<Action>)
    requires IsRun(s, actions) && IsRun(Run(s, actions), more)
    ensures IsRun(s, actions + more) && Run(s, actions + more) == Run(Run(s, actions), more)
    decreases |actions|
  {
    hide Can, Next;
    if actions == [] {
      assert actions + more == more;
    } else {
      assert (actions + more)[1..] == actions[1..] + more;
      RunsJoin(Next(s, actions[0]), actions[1..], more);
    }
  }

  lemma LeadsOn(s: State, s': State, s'': State)
    requires Leads(s, s') && Leads(s', s'')
    ensures Leads(s, s'')
  {
    hide IsRun, Run;
    var actions :| IsRun(s, actions) && Run(s, actions) == s';
    var more :| IsRun(s', more) && Run(s', more) == s'';
    RunsJoin(s, actions, more);
  }

  lemma OneStep(s: State, a: Action)
    requires Can(s, a)
    ensures Leads(s, Next(s, a))
  {
    hide Can, Next;
    var s1 := Next(s, a);
    assert IsRun(s1, []) && Run(s1, []) == s1;
    assert [a][1..] == [] && IsRun(s, [a]);
    assert Run(s, [a]) == Run(s1, []);
  }

  lemma ReachableOn(s: State, s': State)
    requires Reachable(s) && Leads(s, s')
    ensures Reachable(s')
  {
    hide IsRun, Run;
    assert Leads(INIT, s);
    LeadsOn(INIT, s, s');
  }

  lemma ByC(start: State, s: State, c: nat, a: ChannelStep)
    requires Leads(start, s) && ChannelCan(s, c, a)
    ensures Leads(start, Settle(ChannelNext(s, c, a)))
  {
    hide Leads, ChannelCan, ChannelNext, Settle;
    OneStep(s, ByChannel(c, a));
    LeadsOn(start, s, Settle(ChannelNext(s, c, a)));
  }

  lemma ByN(start: State, s: State, n: nat, a: ReaperStep)
    requires Leads(start, s) && ReaperCan(s, n, a)
    ensures Leads(start, Settle(ReaperNext(s, n, a)))
  {
    hide Leads, ReaperCan, ReaperNext, Settle;
    OneStep(s, ByReaper(n, a));
    LeadsOn(start, s, Settle(ReaperNext(s, n, a)));
  }

  lemma ByR(start: State, s: State, a: RouterStep)
    requires Leads(start, s) && RouterCan(s, a)
    ensures Leads(start, Settle(RouterNext(s, a)))
  {
    hide Leads, RouterCan, RouterNext, Settle;
    OneStep(s, ByRouter(a));
    LeadsOn(start, s, Settle(RouterNext(s, a)));
  }
}
