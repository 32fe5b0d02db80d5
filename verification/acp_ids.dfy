/** Request ids of one agent process (tidewave-core/src/ws/acp.rs): drawn from one counter by
    forwarded requests, initialize attempts and reapers, and registered in a later step by
    those that want an answer. `AcpProcess.ProcessState` performs the steps on `Ids` in place;
    here any number of callers interleave them. */
module AcpIds {
  import opened Wrappers
  import opened AcpSession
  import opened AcpTable

  datatype Pending =
    | SessionNew
    | SessionLoad(sid: SessionId, created: bool)
    | SessionResume(sid: SessionId, created: bool)
    | SessionFork
    | SessionClose(sid: SessionId)

  datatype InflightRequest = InflightRequest(channel: ChannelId, clientId: JsonId, session: Option<SessionId>,
      pending: Option<Pending>)

  /** What an id was drawn for. A reaper's close asks for no answer. */
  datatype Purpose = ForForward | ForInitialize | ForReaperClose

  /** `drawn`, `registered` and `answered` are history. */
  datatype Ids = Ids(
    next: nat,
    drawn: map<JsonId, Purpose>,
    inflight: map<JsonId, InflightRequest>,
    registered: map<JsonId, InflightRequest>,
    answered: set<JsonId>)

  const NO_IDS := Ids(1, map[], map[], map[], {})

  function DrawId(ids: Ids, purpose: Purpose): Ids {
    ids.(next := ids.next + 1, drawn := ids.drawn[Number(ids.next) := purpose])
  }

  function RegisterId(ids: Ids, id: JsonId, request: InflightRequest): Ids {
    ids.(inflight := ids.inflight[id := request], registered := ids.registered[id := request])
  }

  function AnswerId(ids: Ids, id: JsonId): Ids {
    if id in ids.inflight then ids.(inflight := Remove(ids.inflight, id), answered := ids.answered + {id}) else ids
  }

  /** Exactly the numbers below the counter have been drawn. What is registered was drawn for
      that, and is in flight or answered, not both. */
  ghost predicate Sound(ids: Ids) {
    && ids.next > 0
    && (forall id :: id in ids.drawn <==> id.Number? && 0 < id.n < ids.next)
    && (forall id :: id in ids.registered ==> id in ids.drawn && ids.drawn[id] != ForReaperClose)
    && ids.inflight.Keys + ids.answered == ids.registered.Keys
    && ids.inflight.Keys !! ids.answered
    && (forall id :: id in ids.inflight ==> ids.inflight[id] == ids.registered[id])
  }

  lemma DrawKeeps(ids: Ids, purpose: Purpose)
    requires Sound(ids)
    ensures Sound(DrawId(ids, purpose)) && Number(ids.next) !in ids.drawn && Number(ids.next) !in ids.registered
  {
  }

  lemma RegisterKeeps(ids: Ids, id: JsonId, request: InflightRequest)
    requires Sound(ids) && id in ids.drawn && ids.drawn[id] != ForReaperClose && id !in ids.registered
    ensures Sound(RegisterId(ids, id, request))
  {
  }

  lemma AnswerKeeps(ids: Ids, id: JsonId)
    requires Sound(ids)
    ensures Sound(AnswerId(ids, id))
  {
  }

  // ---------------------------------------------------------------- callers

  type CallerId = nat

  /** A caller between its steps. An initialize attempt learns from `begin` whether it is to
      forward the request. */
  datatype Caller =
    | Drew(id: JsonId, purpose: Purpose, request: InflightRequest)
    | Won(id: JsonId, request: InflightRequest)
    | Finished(id: JsonId)

  /** A response delivered: the id answered, and the channel and client id it went to. */
  datatype Routed = Routed(id: JsonId, channel: ChannelId, clientId: JsonId)

  datatype State = State(ids: Ids, callers: map<CallerId, Caller>, started: Option<JsonId>, routed: seq<Routed>)

  const INIT := State(NO_IDS, map[], None, [])

  /** A caller draws an id, an initialize attempt enters `begin`, the request is registered,
      a reaper sends its close, the agent responds to any id. */
  datatype Action =
    | Draw(k: CallerId, purpose: Purpose, request: InflightRequest)
    | Begin(k: CallerId)
    | Register(k: CallerId)
    | SendClose(k: CallerId)
    | Respond(id: JsonId)

  predicate Can(s: State, a: Action) {
    match a
    case Draw(k, _, _) => k !in s.callers
    case Begin(k) => k in s.callers && s.callers[k].Drew? && s.callers[k].purpose == ForInitialize
    case Register(k) => k in s.callers && (s.callers[k].Won?
        || (s.callers[k].Drew? && s.callers[k].purpose == ForForward))
    case SendClose(k) => k in s.callers && s.callers[k].Drew? && s.callers[k].purpose == ForReaperClose
    case Respond(_) => true
  }

  function Next(s: State, a: Action): State
    requires Can(s, a)
  {
    match a
    case Draw(k, purpose, request) =>
      s.(ids := DrawId(s.ids, purpose), callers := s.callers[k := Drew(Number(s.ids.next), purpose, request)])
    case Begin(k) =>
      var x := s.callers[k];
      if s.started.None? then s.(started := Some(x.id), callers := s.callers[k := Won(x.id, x.request)])
      else s.(callers := s.callers[k := Finished(x.id)])
    case Register(k) =>
      var x := s.callers[k];
      s.(ids := RegisterId(s.ids, x.id, x.request), callers := s.callers[k := Finished(x.id)])
    case SendClose(k) => s.(callers := s.callers[k := Finished(s.callers[k].id)])
    case Respond(id) =>
      if id in s.ids.inflight then
        var r := s.ids.inflight[id];
        s.(ids := AnswerId(s.ids, id), routed := s.routed + [Routed(id, r.channel, r.clientId)])
      else s
  }

  predicate IsRun(s: State, actions: seq<Action>)
    decreases |actions|
  {
    actions == [] || (Can(s, actions[0]) && IsRun(Next(s, actions[0]), actions[1..]))
  }

  function Run(s: State, actions: seq<Action>): State
    requires IsRun(s, actions)
    decreases |actions|
  {
    if actions == [] then s else Run(Next(s, actions[0]), actions[1..])
  }

  // ---------------------------------------------------------------- invariant

  type Callers = map<CallerId, Caller>

  /** A caller's id was drawn for it, and is not registered before the caller does so. */
  ghost predicate CallerOk(ids: Ids, started: Option<JsonId>, x: Caller) {
    && x.id in ids.drawn
    && (x.Drew? ==> ids.drawn[x.id] == x.purpose && x.id !in ids.registered && started != Some(x.id))
    && (x.Won? ==> ids.drawn[x.id] == ForInitialize && x.id !in ids.registered && started == Some(x.id))
  }

  ghost predicate CallersOk(ids: Ids, started: Option<JsonId>, callers: Callers) {
    && (forall k :: k in callers ==> CallerOk(ids, started, callers[k]))
    && (forall k, l :: k in callers && l in callers && k != l ==> callers[k].id != callers[l].id)
  }

  predicate RegisteredFor(ids: Ids, id: JsonId, purpose: Purpose) {
    id in ids.registered && id in ids.drawn && ids.drawn[id] == purpose
  }

  ghost predicate StartOk(ids: Ids, started: Option<JsonId>) {
    && (started.Some? ==> started.value in ids.drawn)
    && (forall id :: RegisteredFor(ids, id, ForInitialize) ==> started == Some(id))
  }

  /** The responses routed are those to the requests answered, each once. */
  ghost predicate RoutesOk(ids: Ids, routed: seq<Routed>) {
    && (forall i :: 0 <= i < |routed| ==> RouteOk(ids, routed[i]))
    && (forall i, j :: 0 <= i < j < |routed| ==> routed[i].id != routed[j].id)
    && |routed| == |ids.answered|
  }

  ghost predicate RouteOk(ids: Ids, r: Routed) {
    && r.id in ids.answered && r.id in ids.registered
    && r.channel == ids.registered[r.id].channel && r.clientId == ids.registered[r.id].clientId
  }

  ghost predicate Inv(s: State) {
    Sound(s.ids) && CallersOk(s.ids, s.started, s.callers) && StartOk(s.ids, s.started) && RoutesOk(s.ids, s.routed)
  }

  lemma StepKeeps(s: State, a: Action)
    requires Inv(s) && Can(s, a)
    ensures Inv(Next(s, a))
  {
    hide Sound, CallersOk, CallerOk, StartOk, RoutesOk, DrawId, RegisterId, AnswerId;
    match a
    case Draw(k, purpose, request) =>
      DrawKeeps(s.ids, purpose);
      DrawStep(s, k, purpose, request);
    case Begin(k) => BeginStep(s.ids, s.started, s.callers, k);
    case Register(k) => RegisterStep(s, k);
    case SendClose(k) => CallerFinishes(s.ids, s.started, s.callers, k);
    case Respond(id) =>
      AnswerKeeps(s.ids, id);
      if id in s.ids.inflight { RespondStep(s, id); }
  }

  lemma DrawStep(s: State, k: CallerId, purpose: Purpose, request: InflightRequest)
    requires Inv(s) && k !in s.callers
    ensures var ids := DrawId(s.ids, purpose);
            && CallersOk(ids, s.started, s.callers[k := Drew(Number(s.ids.next), purpose, request)])
            && StartOk(ids, s.started) && RoutesOk(ids, s.routed)
  {
    hide Sound, CallersOk, StartOk, RoutesOk, DrawId;
    DrawnId(s.ids, purpose);
    DrawnCallers(s.ids, s.started, s.callers, k, purpose, request);
    SameRoutes(s.ids, DrawId(s.ids, purpose), s.routed);
  }

  lemma DrawnId(ids: Ids, purpose: Purpose)
    ensures var ids' := DrawId(ids, purpose);
            ids'.registered == ids.registered && ids'.answered == ids.answered
  {
  }

  lemma DrawnCallers(ids: Ids, started: Option<JsonId>, callers: Callers, k: CallerId, purpose: Purpose,
      request: InflightRequest)
    requires Sound(ids) && CallersOk(ids, started, callers) && StartOk(ids, started) && k !in callers
    ensures CallersOk(DrawId(ids, purpose), started, callers[k := Drew(Number(ids.next), purpose, request)])
    ensures StartOk(DrawId(ids, purpose), started)
  {
    forall l | l in callers
      ensures CallerOk(DrawId(ids, purpose), started, callers[l]) && callers[l].id != Number(ids.next)
    {
      assert CallerOk(ids, started, callers[l]);
    }
  }

  lemma SameRoutes(ids: Ids, ids': Ids, routed: seq<Routed>)
    requires RoutesOk(ids, routed) && ids'.answered == ids.answered
    requires forall id :: id in ids.registered && id in ids.answered ==>
             id in ids'.registered && ids'.registered[id] == ids.registered[id]
    ensures RoutesOk(ids', routed)
  {
    forall i | 0 <= i < |routed| ensures RouteOk(ids', routed[i]) {
      assert RouteOk(ids, routed[i]);
    }
  }

  lemma BeginStep(ids: Ids, started: Option<JsonId>, callers: Callers, k: CallerId)
    requires Sound(ids) && CallersOk(ids, started, callers) && StartOk(ids, started)
    requires k in callers && callers[k].Drew? && callers[k].purpose == ForInitialize
    ensures CallersOk(ids, started, callers[k := Finished(callers[k].id)])
    ensures started.None? ==>
              var x := callers[k];
              CallersOk(ids, Some(x.id), callers[k := Won(x.id, x.request)]) && StartOk(ids, Some(x.id))
  {
    hide Sound;
    assert CallerOk(ids, started, callers[k]);
    CallerFinishes(ids, started, callers, k);
    forall l | l in callers && l != k && started.None? ensures CallerOk(ids, Some(callers[k].id), callers[l]) {
      assert CallerOk(ids, started, callers[l]);
    }
  }

  lemma CallerFinishes(ids: Ids, started: Option<JsonId>, callers: Callers, k: CallerId)
    requires CallersOk(ids, started, callers) && k in callers
    ensures CallersOk(ids, started, callers[k := Finished(callers[k].id)])
  {
    assert CallerOk(ids, started, callers[k]);
    forall l | l in callers && l != k ensures CallerOk(ids, started, callers[l]) {
    }
  }

  lemma RegisterStep(s: State, k: CallerId)
    requires Inv(s) && Can(s, Register(k))
    ensures var x := s.callers[k];
            var ids := RegisterId(s.ids, x.id, x.request);
            && Sound(ids) && CallersOk(ids, s.started, s.callers[k := Finished(x.id)])
            && StartOk(ids, s.started) && RoutesOk(ids, s.routed)
  {
    hide Sound, RoutesOk;
    var x := s.callers[k];
    var ids := RegisterId(s.ids, x.id, x.request);
    assert CallerOk(s.ids, s.started, x);
    RegisterKeeps(s.ids, x.id, x.request);
    forall l | l in s.callers && l != k ensures CallerOk(ids, s.started, s.callers[l]) {
      assert CallerOk(s.ids, s.started, s.callers[l]) && s.callers[l].id != x.id;
    }
    SameRoutes(s.ids, ids, s.routed);
  }

  lemma RespondStep(s: State, id: JsonId)
    requires Inv(s) && id in s.ids.inflight
    ensures var ids, r := AnswerId(s.ids, id), s.ids.inflight[id];
            && CallersOk(ids, s.started, s.callers) && StartOk(ids, s.started)
            && RoutesOk(ids, s.routed + [Routed(id, r.channel, r.clientId)])
  {
    hide Sound, RoutesOk, Remove;
    var ids := AnswerId(s.ids, id);
    RespondRoutes(s.ids, s.routed, id);
    forall k | k in s.callers ensures CallerOk(ids, s.started, s.callers[k]) {
      assert CallerOk(s.ids, s.started, s.callers[k]);
    }
    forall other | RegisteredFor(ids, other, ForInitialize) ensures s.started == Some(other) {
      assert RegisteredFor(s.ids, other, ForInitialize);
    }
  }

  lemma RespondRoutes(ids: Ids, routed: seq<Routed>, id: JsonId)
    requires Sound(ids) && RoutesOk(ids, routed) && id in ids.inflight
    ensures var r := ids.inflight[id];
            RoutesOk(AnswerId(ids, id), routed + [Routed(id, r.channel, r.clientId)])
  {
    hide Remove;
    var r, ids' := ids.inflight[id], AnswerId(ids, id);
    var routed' := routed + [Routed(id, r.channel, r.clientId)];
    assert id !in ids.answered && |ids'.answered| == |ids.answered| + 1;
    forall i | 0 <= i < |routed'| ensures RouteOk(ids', routed'[i]) && (i < |routed| ==> routed'[i].id != id) {
      assert i < |routed| ==> RouteOk(ids, routed[i]);
    }
  }

  lemma {:induction false} RunKeeps(s: State, actions: seq<Action>)
    requires Inv(s) && IsRun(s, actions)
    ensures Inv(Run(s, actions))
    decreases |actions|
  {
    hide Can, Next, Inv;
    if actions != [] {
      StepKeeps(s, actions[0]);
      RunKeeps(Next(s, actions[0]), actions[1..]);
    }
  }

  lemma InitHolds()
    ensures Inv(INIT)
  {
  }

  // ---------------------------------------------------------------- over every run

  /** All ids drawn are distinct, whatever they are drawn for, and nobody else registers an id
      between its drawing and its own registration. */
  lemma IdsAreDistinct(actions: seq<Action>, k: CallerId, l: CallerId)
    requires IsRun(INIT, actions) && k in Run(INIT, actions).callers && l in Run(INIT, actions).callers && k != l
    ensures var s := Run(INIT, actions);
            && s.callers[k].id != s.callers[l].id
            && s.callers[k].id.Number? && s.callers[k].id.n < s.ids.next
            && (!s.callers[k].Finished? ==> s.callers[k].id !in s.ids.registered)
  {
    hide Inv;
    InitHolds();
    RunKeeps(INIT, actions);
    CallersApart(Run(INIT, actions), k, l);
  }

  lemma CallersApart(s: State, k: CallerId, l: CallerId)
    requires Inv(s) && k in s.callers && l in s.callers && k != l
    ensures s.callers[k].id != s.callers[l].id && s.callers[k].id.Number? && s.callers[k].id.n < s.ids.next
    ensures !s.callers[k].Finished? ==> s.callers[k].id !in s.ids.registered
  {
    assert CallerOk(s.ids, s.started, s.callers[k]);
  }

  /** The id of a reaper's close is never registered, and no response to it is routed. Of all
      initialize attempts at most one is registered. */
  lemma ClosesAreNotAnswered(actions: seq<Action>, id: JsonId, other: JsonId)
    requires IsRun(INIT, actions) && id in Run(INIT, actions).ids.drawn
    ensures var s := Run(INIT, actions);
            && (s.ids.drawn[id] == ForReaperClose ==>
                  id !in s.ids.registered && forall i :: 0 <= i < |s.routed| ==> s.routed[i].id != id)
            && (RegisteredFor(s.ids, id, ForInitialize) && RegisteredFor(s.ids, other, ForInitialize) ==> id == other)
  {
    hide Inv;
    InitHolds();
    RunKeeps(INIT, actions);
    NotAnswered(Run(INIT, actions), id, other);
  }

  lemma NotAnswered(s: State, id: JsonId, other: JsonId)
    requires Inv(s) && id in s.ids.drawn
    ensures s.ids.drawn[id] == ForReaperClose ==>
              id !in s.ids.registered && forall i :: 0 <= i < |s.routed| ==> s.routed[i].id != id
    ensures RegisteredFor(s.ids, id, ForInitialize) && RegisteredFor(s.ids, other, ForInitialize) ==> id == other
  {
    forall i | 0 <= i < |s.routed| ensures RouteOk(s.ids, s.routed[i]) {
    }
  }

  /** Every response goes once, to the channel and client id that issued its request, and
      registered = routed + still in flight. */
  lemma ResponsesAreOneToOne(actions: seq<Action>, i: nat)
    requires IsRun(INIT, actions)
    ensures var s := Run(INIT, actions);
            && |s.ids.registered| == |s.routed| + |s.ids.inflight|
            && (i < |s.routed| ==>
                  && s.routed[i].id in s.ids.registered && s.routed[i].id !in s.ids.inflight
                  && s.routed[i].channel == s.ids.registered[s.routed[i].id].channel
                  && s.routed[i].clientId == s.ids.registered[s.routed[i].id].clientId
                  && forall j :: 0 <= j < |s.routed| && j != i ==> s.routed[j].id != s.routed[i].id)
  {
    hide Inv;
    InitHolds();
    RunKeeps(INIT, actions);
    OneToOne(Run(INIT, actions), i);
  }

  lemma OneToOne(s: State, i: nat)
    requires Inv(s)
    ensures |s.ids.registered| == |s.routed| + |s.ids.inflight|
    ensures i < |s.routed| ==> RouteOk(s.ids, s.routed[i]) && s.routed[i].id !in s.ids.inflight
    ensures i < |s.routed| ==> forall j :: 0 <= j < |s.routed| && j != i ==> s.routed[j].id != s.routed[i].id
  {
    Accounted(s.ids);
  }

  lemma Accounted(ids: Ids)
    requires Sound(ids)
    ensures |ids.registered| == |ids.answered| + |ids.inflight|
  {
    assert |ids.registered| == |ids.registered.Keys| && |ids.inflight| == |ids.inflight.Keys|;
    assert ids.registered.Keys == ids.answered + ids.inflight.Keys;
  }
}
