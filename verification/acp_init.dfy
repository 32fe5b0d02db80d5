/** Running `initialize` once for all clients of an agent process: `InitState` and the
    clients that wait for it (tidewave-core/src/ws/acp.rs). */
module AcpInit {
  import opened Wrappers

  /** A response to `initialize`: the id of the client it is for, and its content. */
  datatype Response = Response(id: nat, body: nat)

  datatype Inner =
    | NotStarted
    | InFlight(requestId: nat)
    | Complete(response: Response)
    | Failed

  function Rank(inner: Inner): nat {
    match inner case NotStarted => 0 case InFlight(_) => 1 case Complete(_) => 2 case Failed => 3
  }

  predicate Settled(inner: Inner) {
    inner.Complete? || inner.Failed?
  }

  datatype BeginInit = Start | Wait | Cached(response: Response) | InitFailed

  function Begun(inner: Inner, requestId: nat): Inner {
    if inner.NotStarted? then InFlight(requestId) else inner
  }

  function CompletedBy(inner: Inner, requestId: nat, response: Response): Inner {
    if inner == InFlight(requestId) then Complete(response) else inner
  }

  /** The state behind the mutex, and the number of `notify_waiters` calls so far. */
  class InitState {
    var inner: Inner
    var notified: nat

    constructor ()
      ensures inner == NotStarted && notified == 0
    {
      inner, notified := NotStarted, 0;
    }

    method Begin(requestId: nat) returns (r: BeginInit)
      modifies this`inner
      ensures inner == Begun(old(inner), requestId) && Rank(old(inner)) <= Rank(inner)
      ensures r.Start? <==> old(inner).NotStarted?
      ensures r.Wait? <==> old(inner).InFlight?
      ensures r.Cached? ==> old(inner) == Complete(r.response)
      ensures r.InitFailed? <==> old(inner).Failed?
    {
      match inner
      case NotStarted => inner := InFlight(requestId); r := Start;
      case InFlight(_) => r := Wait;
      case Complete(response) => r := Cached(response);
      case Failed => r := InitFailed;
    }

    /** `complete_if_current`, up to the release of the mutex. */
    method SetComplete(requestId: nat, response: Response) returns (done: bool)
      modifies this`inner
      ensures inner == CompletedBy(old(inner), requestId, response) && Rank(old(inner)) <= Rank(inner)
      ensures done <==> old(inner) == InFlight(requestId)
    {
      if inner == InFlight(requestId) {
        inner := Complete(response);
        return true;
      }
      return false;
    }

    method SetFailed()
      modifies this`inner
      ensures inner == Failed && Rank(old(inner)) <= Rank(inner)
    {
      inner := Failed;
    }

    method NotifyWaiters()
      modifies this`notified
      ensures notified == old(notified) + 1
    {
      notified := notified + 1;
    }

    /** `complete_if_current`: waiters are notified exactly if the request was the current one. */
    method CompleteIfCurrent(requestId: nat, response: Response) returns (done: bool)
      modifies this
      ensures inner == CompletedBy(old(inner), requestId, response) && Rank(old(inner)) <= Rank(inner)
      ensures done <==> old(inner) == InFlight(requestId)
      ensures notified == old(notified) + if done then 1 else 0
    {
      done := SetComplete(requestId, response);
      if done { NotifyWaiters(); }
    }

    method Fail()
      modifies this
      ensures inner == Failed && notified == old(notified) + 1
    {
      SetFailed();
      NotifyWaiters();
    }
  }

  // ---------------------------------------------------------------- the clients

  /** A client's `initialize` request. A waiter remembers how many notifications there had
      been when it registered, with the mutex held; only a later one wakes it. */
  datatype Client =
    | Forwarded(proxyId: nat)
    | Checking
    | Waiting(since: nat)
    | Answered(response: Response)
    | Refused

  /** `unnotified` counts the tasks that have settled the state and have yet to notify.
      `starts` and `result` are history: how often `initialize` was forwarded, and what
      the agent answered. */
  datatype State = State(inner: Inner, notified: nat, unnotified: nat, clients: map<nat, Client>,
      inflight: map<nat, nat>,
                         nextProxyId: nat, starts: nat, result: Option<nat>)

  const INIT := State(NotStarted, 0, 0, map[], map[], 1, 0, None)

  /** Steps: a client's request (id drawn, then `begin`), the two halves of a waiter's loop,
      a response of the agent, the process failing, and the notification after either. */
  datatype Action =
    | Request(client: nat)
    | Check(client: nat)
    | Wake(client: nat)
    | Respond(proxyId: nat, body: nat)
    | Fail
    | Notify

  predicate Can(s: State, a: Action) {
    match a
    case Request(c) => c !in s.clients
    case Check(c) => c in s.clients && s.clients[c].Checking?
    case Wake(c) => c in s.clients && s.clients[c].Waiting? && s.clients[c].since < s.notified
    case Respond(proxyId, _) => proxyId in s.inflight
    case Fail => true
    case Notify => s.unnotified > 0
  }

  /** The cached response with the asking client's own id. */
  function Reply(cached: Response, client: nat): Response {
    cached.(id := client)
  }

  function Next(s: State, a: Action): State
    requires Can(s, a)
  {
    match a
    case Request(c) =>
      var s' := s.(nextProxyId := s.nextProxyId + 1, inner := Begun(s.inner, s.nextProxyId));
      (match s.inner
       case NotStarted => s'.(clients := s.clients[c := Forwarded(s.nextProxyId)],
           inflight := s.inflight[s.nextProxyId := c], starts := s.starts + 1)
       case InFlight(_) => s'.(clients := s.clients[c := Checking])
       case Complete(response) => s'.(clients := s.clients[c := Answered(Reply(response, c))])
       case Failed => s'.(clients := s.clients[c := Refused]))
    case Check(c) =>
      (match s.inner
       case Complete(response) => s.(clients := s.clients[c := Answered(Reply(response, c))])
       case Failed => s.(clients := s.clients[c := Refused])
       case _ => s.(clients := s.clients[c := Waiting(s.notified)]))
    case Wake(c) =>
      s.(clients := s.clients[c := Checking])
    case Respond(proxyId, body) =>
      var c := s.inflight[proxyId];
      var inner := CompletedBy(s.inner, proxyId, Response(c, body));
      s.(inflight := map id | id in s.inflight && id != proxyId :: s.inflight[id],
         inner := inner, unnotified := s.unnotified + if inner != s.inner then 1 else 0,
         clients := s.clients[c := Answered(Response(c, body))], result := Some(body))
    case Fail =>
      s.(inner := Failed, unnotified := s.unnotified + 1)
    case Notify =>
      s.(notified := s.notified + 1, unnotified := s.unnotified - 1)
  }

  ghost predicate ClientOk(s: State, c: nat, client: Client) {
    match client
    case Forwarded(proxyId) => proxyId in s.inflight && s.inflight[proxyId] == c
    case Waiting(since) => since <= s.notified && (Settled(s.inner) ==> since < s.notified || s.unnotified > 0)
    case Answered(response) => response.id == c && s.result == Some(response.body)
    case _ => true
  }

  ghost predicate Inv(s: State) {
    && (forall c :: c in s.clients ==> ClientOk(s, c, s.clients[c]))
    && (forall id :: id in s.inflight ==>
         id < s.nextProxyId && s.inflight[id] in s.clients && s.clients[s.inflight[id]] == Forwarded(id))
    && (s.inner.NotStarted? ==> s.inflight == map[])
    && (s.inner.InFlight? ==> s.inflight.Keys == {s.inner.requestId})
    && |s.inflight| <= 1 && (s.inflight != map[] ==> s.starts == 1)
    && s.starts <= 1 && (s.inner.NotStarted? <==> s.starts == 0 && !s.inner.Failed?)
    && (s.result.Some? ==> s.inflight == map[] && s.starts == 1)
    && (s.inner.Complete? ==> s.result == Some(s.inner.response.body))
  }

  lemma ResponseKeeps(s: State, proxyId: nat, body: nat)
    requires Inv(s) && proxyId in s.inflight
    ensures Inv(Next(s, Respond(proxyId, body)))
  {
    var s' := Next(s, Respond(proxyId, body));
    OnlyOne(s.inflight, proxyId);
    assert s'.inflight == map[] && s.result.None?;
    var c := s.inflight[proxyId];
    forall d | d in s'.clients ensures ClientOk(s', d, s'.clients[d]) {
      if d != c { assert ClientOk(s, d, s.clients[d]); }
    }
  }

  lemma RequestKeeps(s: State, c: nat)
    requires Inv(s) && c !in s.clients
    ensures Inv(Next(s, Request(c)))
  {
    var s' := Next(s, Request(c));
    forall d | d in s'.clients ensures ClientOk(s', d, s'.clients[d]) {
      if d != c { assert ClientOk(s, d, s.clients[d]); }
    }
  }

  lemma StepKeeps(s: State, a: Action)
    requires Inv(s) && Can(s, a)
    ensures Inv(Next(s, a))
  {
    match a
    case Respond(proxyId, body) => ResponseKeeps(s, proxyId, body);
    case Request(c) => RequestKeeps(s, c);
    case _ =>
      var s' := Next(s, a);
      forall d | d in s'.clients ensures ClientOk(s', d, s'.clients[d]) {
        assert ClientOk(s, d, s.clients[d]);
      }
  }

  lemma OnlyOne(m: map<nat, nat>, k: nat)
    requires k in m && |m| <= 1
    ensures m.Keys == {k}
  {
    assert |m.Keys - {k}| == |m.Keys| - 1;
    assert |m| == |m.Keys|;
  }

  predicate IsRun(s: State, actions: seq<Action>)
    decreases |actions|
  {
    actions == [] || (Can(s, actions[0]) && IsRun(Next(s, actions[0]), actions[1..]))
  }

  function Run(s: State, actions: seq<Action>): State
    requires IsRun(s, actions)
    decreases |actions|
  {
    if actions == [] then s else Run(Next(s, actions[0]), actions[1..])
  }

  lemma {:induction false} RunKeeps(s: State, actions: seq<Action>)
    requires Inv(s) && IsRun(s, actions)
    ensures Inv(Run(s, actions))
    decreases |actions|
  {
    if actions != [] {
      StepKeeps(s, actions[0]);
      RunKeeps(Next(s, actions[0]), actions[1..]);
    }
  }

  // ---------------------------------------------------------------- what the agent was asked and said

  datatype Asked = Asked(client: nat, proxyId: nat)
  datatype Said = Said(proxyId: nat, body: nat)

  /** The requests of this run that went to the agent: those whose client then waits for the
      agent under a proxy id. */
  function Forwards(s: State, actions: seq<Action>): seq<Asked>
    requires IsRun(s, actions)
    decreases |actions|
  {
    if actions == [] then []
    else Forward(s, actions[0]) + Forwards(Next(s, actions[0]), actions[1..])
  }

  function Forward(s: State, a: Action): seq<Asked>
    requires Can(s, a)
  {
    if a.Request? && Next(s, a).clients[a.client].Forwarded? then
      [Asked(a.client, Next(s, a).clients[a.client].proxyId)]
    else []
  }

  /** The agent's responses in these actions. */
  function Responses(actions: seq<Action>): seq<Said> {
    if actions == [] then []
    else (if actions[0].Respond? then [Said(actions[0].proxyId, actions[0].body)] else []) + Responses(actions[1..])
  }

  /** What was asked and said accounts for the state: one request at most, one response to it
      at most, everybody answered by that response, and nobody refused without a failure. */
  ghost predicate Accounted(s: State, asked: seq<Asked>, said: seq<Said>, failed: bool) {
    && |asked| == s.starts && |said| <= |asked| <= 1
    && (said != [] ==> said[0].proxyId == asked[0].proxyId && s.result == Some(said[0].body))
    && (said == [] ==> s.result.None?)
    && (s.inflight != map[] ==> asked != [] && said == [] && asked[0].proxyId in s.inflight.Keys)
    && (s.inner.Failed? ==> failed)
    && (forall c :: c in s.clients && s.clients[c].Refused? ==> failed)
  }

  lemma AccountedStep(s: State, a: Action, asked: seq<Asked>, said: seq<Said>, failed: bool)
    requires Inv(s) && Can(s, a) && Accounted(s, asked, said, failed)
    ensures Accounted(Next(s, a), asked + Forward(s, a), said + Responses([a]), failed || a.Fail?)
  {
    StepKeeps(s, a);
    assert [a][1..] == [];
    if a.Respond? {
      OnlyOne(s.inflight, a.proxyId);
      assert Next(s, a).inflight == map[];
      assert a.proxyId == asked[0].proxyId;
    }
  }

  lemma {:induction false} AccountedOverRun(s: State, actions: seq<Action>, asked: seq<Asked>, said: seq<Said>,
      failed: bool)
    requires Inv(s) && IsRun(s, actions) && Accounted(s, asked, said, failed)
    ensures Accounted(Run(s, actions), asked + Forwards(s, actions), said + Responses(actions), failed
            || Fail in actions)
    decreases |actions|
  {
    hide Inv, Can, Next, Accounted, Forward;
    if actions == [] {
      assert asked + [] == asked && said + [] == said;
    } else {
      var a, s1 := actions[0], Next(s, actions[0]);
      AccountedStep(s, a, asked, said, failed);
      StepKeeps(s, a);
      assert [a][1..] == [] && Responses([a]) + Responses(actions[1..]) == Responses(actions);
      AccountedOverRun(s1, actions[1..], asked + Forward(s, a), said + Responses([a]), failed || a.Fail?);
      assert asked + Forward(s, a) + Forwards(s1, actions[1..]) == asked + Forwards(s, actions);
      assert said + Responses([a]) + Responses(actions[1..]) == said + Responses(actions);
    }
  }

  /** However many clients ask, and whatever they, the agent and the exit monitor do:
      `initialize` is forwarded at most once; whoever is answered gets, under its own id, the
      content of the one response the agent has given, to the one request that was forwarded;
      and nobody is refused unless the process has failed. */
  lemma InitializeRunsOnce(actions: seq<Action>)
    requires IsRun(INIT, actions)
    ensures var s, asked, said := Run(INIT, actions), Forwards(INIT, actions), Responses(actions);
            && |asked| <= 1
            && (forall c :: c in s.clients && s.clients[c].Answered? ==>
                  && asked != [] && |said| == 1 && said[0].proxyId == asked[0].proxyId
                  && s.clients[c].response == Response(c, said[0].body))
            && (forall c :: c in s.clients && s.clients[c].Refused? ==> Fail in actions)
  {
    RunKeeps(INIT, actions);
    AccountedOverRun(INIT, actions, [], [], false);
    var s := Run(INIT, actions);
    assert [] + Forwards(INIT, actions) == Forwards(INIT, actions);
    assert [] + Responses(actions) == Responses(actions);
    assert forall c :: c in s.clients ==> ClientOk(s, c, s.clients[c]);
  }

  /** The agent's response answers the client whose request was forwarded at once, and every
      later request as long as the process does not fail. */
  lemma ResponseAnswersLaterRequests(actions: seq<Action>, c: nat)
    requires IsRun(INIT, actions) && Responses(actions) != [] && Fail !in actions && c !in Run(INIT, actions).clients
    ensures Next(Run(INIT, actions), Request(c)).clients[c] == Answered(Response(c, Responses(actions)[0].body))
  {
    RunKeeps(INIT, actions);
    AccountedOverRun(INIT, actions, [], [], false);
    CompletedStays(INIT, actions);
    assert [] + Responses(actions) == Responses(actions);
  }

  lemma {:induction false} CompletedStays(s: State, actions: seq<Action>)
    requires Inv(s) && IsRun(s, actions) && Fail !in actions && !s.inner.Failed?
    requires s.result.Some? ==> s.inner.Complete?
    ensures Run(s, actions).result.Some? ==> Run(s, actions).inner.Complete?
    decreases |actions|
  {
    if actions != [] {
      StepKeeps(s, actions[0]);
      if actions[0].Respond? { OnlyOne(s.inflight, actions[0].proxyId); }
      CompletedStays(Next(s, actions[0]), actions[1..]);
    }
  }

  /** No waiter misses its wakeup: once the state is settled and everyone who settled it
      has notified, every waiter can go on. */
  lemma NoWakeupMissed(actions: seq<Action>, c: nat)
    requires IsRun(INIT, actions) && c in Run(INIT, actions).clients && Run(INIT, actions).clients[c].Waiting?
    requires Settled(Run(INIT, actions).inner) && Run(INIT, actions).unnotified == 0
    ensures Can(Run(INIT, actions), Wake(c))
    ensures var s := Next(Next(Run(INIT, actions), Wake(c)), Check(c)); s.clients[c].Answered? || s.clients[c].Refused?
  {
    RunKeeps(INIT, actions);
    var s := Run(INIT, actions);
    assert ClientOk(s, c, s.clients[c]);
  }

  /** The state never goes back, and only the request that started it completes it. */
  lemma RankNeverFalls(s: State, a: Action)
    requires Can(s, a)
    ensures Rank(s.inner) <= Rank(Next(s, a).inner)
    ensures Next(s, a).inner.Complete? && !s.inner.Complete? ==> a.Respond? && s.inner == InFlight(a.proxyId)
    ensures s.inner.Complete? && Next(s, a).inner.Complete? ==> Next(s, a).inner == s.inner
  {
  }
}
