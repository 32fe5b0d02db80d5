/** `ProcessState` (tidewave-core/src/ws/acp.rs): the session table and the in-flight
    requests of one agent process, updated in place. Each method is one critical
    section, so any sequence of calls is an interleaving of the tasks that share the
    process, and what every method keeps holds over every run. */
module AcpProcess {
  import opened Wrappers
  import opened AcpSession
  import opened AcpTable
  import opened AcpIds

  /** A response of the agent: the id it answers and its content. */
  datatype AgentResponse = AgentResponse(id: JsonId, body: nat)

  /** A response on its way to a client. */
  datatype RoutedResponse = RoutedResponse(channel: ChannelId, id: JsonId, body: nat, pending: Option<Pending>)

  /** A lifecycle mutex; only its identity matters here. */
  class LifecycleLock {
    constructor () {
    }
  }

  class ProcessState {
    var sessions: Table<SessionState>
    var sessionLifecycleLocks: map<SessionId, LifecycleLock>
    var nextProxyId: nat
    var inflightRequests: map<JsonId, InflightRequest>

    // history: every id drawn with its purpose, every request registered, every id answered
    ghost var drawn: map<JsonId, Purpose>
    ghost var registered: map<JsonId, InflightRequest>
    ghost var answered: set<JsonId>

    ghost function RequestIds(): Ids
      reads this
    {
      Ids(nextProxyId, drawn, inflightRequests, registered, answered)
    }

    ghost predicate Valid()
      reads this
    {
      Sound(RequestIds())
    }

    constructor ()
      ensures Valid() && sessions == map[] && sessionLifecycleLocks == map[] && RequestIds() == NO_IDS
    {
      sessions, sessionLifecycleLocks, nextProxyId, inflightRequests := map[], map[], 1, map[];
      drawn, registered, answered := map[], map[], {};
    }

    // -------------------------------------------------------------- request ids

    method GenerateProxyId(ghost purpose: Purpose) returns (id: JsonId)
      requires Valid()
      modifies this`nextProxyId, this`drawn
      ensures Valid() && id == Number(old(nextProxyId))
      ensures id !in old(drawn) && id !in registered && drawn == old(drawn)[id := purpose]
      ensures RequestIds() == DrawId(old(RequestIds()), purpose)
    {
      DrawKeeps(RequestIds(), purpose);
      id := Number(nextProxyId);
      nextProxyId := nextProxyId + 1;
      drawn := drawn[id := purpose];
    }

    /** Whatever the id, the request is remembered under it. The ids stay sound if it was
        drawn for a request and has not been registered before. */
    method RegisterInflightRequest(id: JsonId, request: InflightRequest)
      requires Valid()
      modifies this`inflightRequests, this`registered
      ensures RequestIds() == RegisterId(old(RequestIds()), id, request)
      ensures id in drawn && drawn[id] != ForReaperClose && id !in old(registered) ==> Valid()
    {
      if id in drawn && drawn[id] != ForReaperClose && id !in registered {
        RegisterKeeps(RequestIds(), id, request);
      }
      inflightRequests := inflightRequests[id := request];
      registered := registered[id := request];
    }

    method MapClientIdToProxy(request: InflightRequest) returns (id: JsonId)
      requires Valid()
      modifies this`nextProxyId, this`inflightRequests, this`drawn, this`registered
      ensures Valid() && id == Number(old(nextProxyId)) && id !in old(drawn)
      ensures RequestIds() == RegisterId(DrawId(old(RequestIds()), ForForward), id, request)
    {
      id := GenerateProxyId(ForForward);
      RegisterInflightRequest(id, request);
    }

    method RemoveInflightRequest(id: JsonId) returns (request: Option<InflightRequest>)
      requires Valid()
      modifies this`inflightRequests, this`answered
      ensures Valid() && RequestIds() == AnswerId(old(RequestIds()), id)
      ensures request.Some? <==> id in registered && id !in old(answered)
      ensures request.Some? ==> request.value == registered[id]
    {
      AnswerKeeps(RequestIds(), id);
      if id in inflightRequests {
        request := Some(inflightRequests[id]);
        inflightRequests := Remove(inflightRequests, id);
        answered := answered + {id};
      } else {
        request := None;
      }
    }

    /** The lookup of `handle_process_response`: the response goes to exactly the channel that
        sent the request, under its own id, and at most once; a response to a reaper's close
        goes to nobody. */
    method HandleProcessResponse(response: AgentResponse) returns (routed: Option<RoutedResponse>)
      requires Valid()
      modifies this`inflightRequests, this`answered
      ensures Valid() && RequestIds() == AnswerId(old(RequestIds()), response.id)
      ensures routed.Some? <==> response.id in registered && response.id !in old(answered)
      ensures routed.Some? ==> var r := registered[response.id];
                routed.value == RoutedResponse(r.channel, r.clientId, response.body, r.pending)
      ensures response.id in registered ==> response.id in answered
      ensures response.id in drawn && drawn[response.id] == ForReaperClose ==> routed.None?
      ensures |registered| == |answered| + |inflightRequests|
    {
      var request := RemoveInflightRequest(response.id);
      match request
      case Some(r) => routed := Some(RoutedResponse(r.channel, r.clientId, response.body, r.pending));
      case None => routed := None;
      Accounted(RequestIds());
    }

    // -------------------------------------------------------------- session table

    /** An existing session gets the owner, whoever had it; no other session changes, and an
        unknown one is not created. */
    method MapSessionChannel(sid: SessionId, c: ChannelId)
      modifies this`sessions
      ensures Owns(sessions, sid, c) <==> sid in old(sessions)
      ensures sessions.Keys == old(sessions).Keys
      ensures forall id :: id in sessions ==> sessions[id].state == old(sessions)[id].state
      ensures forall id, d :: id != sid ==> (Owns(sessions, id, d) <==> Owns(old(sessions), id, d))
      ensures sessions == MapChannel(old(sessions), sid, c)
    {
      if sid in sessions { sessions := sessions[sid := sessions[sid].(channel := Some(c))]; }
    }

    method UnmapSessionIfOwnedBy(sid: SessionId, c: ChannelId) returns (unmapped: bool)
      modifies this`sessions
      ensures sessions == UnmapIfOwnedBy(old(sessions), sid, c)
      ensures unmapped <==> Owns(old(sessions), sid, c)
    {
      if sid !in sessions { return false; }
      if sessions[sid].channel == Some(c) {
        sessions := sessions[sid := sessions[sid].(channel := None)];
        return true;
      }
      return false;
    }

    method ClaimOrInsertSessionChannel(sid: SessionId, c: ChannelId) returns (created: Result<bool, ()>)
      modifies this`sessions
      ensures created.Err? <==> SessionChannel(old(sessions), sid).Some?
      ensures created.Err? ==> sessions == old(sessions)
      ensures created == Ok(false) ==> sid in old(sessions) && sessions == MapChannel(old(sessions), sid, c)
      ensures created == Ok(true) ==>
                (sid !in old(sessions) && sid in sessions && fresh(sessions[sid].state) && sessions[sid].state.Valid()
                 && sessions == old(sessions)[sid := SessionEntry(sessions[sid].state, Some(c))])
    {
      if sid in sessions {
        if sessions[sid].channel.Some? { return Err(()); }
        sessions := sessions[sid := sessions[sid].(channel := Some(c))];
        return Ok(false);
      }
      var state := new SessionState();
      sessions := sessions[sid := SessionEntry(state, Some(c))];
      return Ok(true);
    }

    /** Releases everything the channel owns and returns each released session once, with
        the counter its grace-period timer will be compared with. */
    method UnmapSessionsForChannel(c: ChannelId) returns (unmapped: seq<(SessionId, nat)>)
      modifies this`sessions
      ensures sessions == UnmapAll(old(sessions), c)
      ensures forall sid, k :: (sid, k) in unmapped <==>
              Owns(old(sessions), sid, c) && k == sessions[sid].state.cancelCounter
      ensures forall i, j :: 0 <= i < j < |unmapped| ==> unmapped[i].0 != unmapped[j].0
    {
      unmapped := [];
      var todo := sessions.Keys;
      while todo != {}
        invariant todo <= old(sessions).Keys && sessions.Keys == old(sessions).Keys
        invariant forall sid :: sid in sessions ==> sessions[sid].state == old(sessions)[sid].state
        invariant forall sid :: sid in sessions ==>
                  sessions[sid] == if sid in todo then old(sessions)[sid] else UnmapAll(old(sessions), c)[sid]
        invariant forall sid, k :: (sid, k) in unmapped <==>
                  sid in sessions && sid !in todo && old(sessions)[sid].channel == Some(c)
                  && k == sessions[sid].state.cancelCounter
        invariant forall i, j :: 0 <= i < j < |unmapped| ==> unmapped[i].0 != unmapped[j].0
        decreases todo
      {
        var sid :| sid in todo;
        todo := todo - {sid};
        var entry := sessions[sid];
        if entry.channel == Some(c) {
          assert forall i :: 0 <= i < |unmapped| ==> unmapped[i].0 != sid by {
            assert forall i :: 0 <= i < |unmapped| ==> (unmapped[i].0, unmapped[i].1) in unmapped;
          }
          sessions := sessions[sid := entry.(channel := None)];
          unmapped := unmapped + [(sid, entry.state.cancelCounter)];
        }
      }
    }

    method InsertSession(sid: SessionId, state: SessionState, channel: Option<ChannelId>) returns (inserted: bool)
      modifies this`sessions
      ensures sessions == InsertIfAbsent(old(sessions), sid, SessionEntry(state, channel))
      ensures inserted <==> sid !in old(sessions)
    {
      if sid in sessions { return false; }
      sessions := sessions[sid := SessionEntry(state, channel)];
      return true;
    }

    method RemoveSession(sid: SessionId)
      modifies this`sessions, this`sessionLifecycleLocks
      ensures sid !in sessions && sid !in sessionLifecycleLocks
      ensures sessions == Remove(old(sessions), sid) && sessionLifecycleLocks == Remove(old(sessionLifecycleLocks), sid)
    {
      sessions := Remove(sessions, sid);
      sessionLifecycleLocks := Remove(sessionLifecycleLocks, sid);
    }

    /** Never removes a session that another channel owns; what goes, goes with its mutex. */
    method RemoveSessionIfUnownedOrOwnedBy(sid: SessionId, c: ChannelId) returns (removed: bool)
      modifies this`sessions, this`sessionLifecycleLocks
      ensures removed <==> UnownedOrOwnedBy(old(sessions), sid, c)
      ensures sessions == if removed then Remove(old(sessions), sid) else old(sessions)
      ensures sessionLifecycleLocks == if removed then Remove(old(sessionLifecycleLocks), sid)
              else old(sessionLifecycleLocks)
    {
      removed := UnownedOrOwnedBy(sessions, sid, c);
      if removed {
        sessions := Remove(sessions, sid);
        sessionLifecycleLocks := Remove(sessionLifecycleLocks, sid);
      }
    }

    /** Everybody who asks before the entry is removed gets the same mutex. */
    method SessionLifecycleLock(sid: SessionId) returns (lock: LifecycleLock)
      modifies this`sessionLifecycleLocks
      ensures sid in sessionLifecycleLocks && sessionLifecycleLocks[sid] == lock
      ensures sid in old(sessionLifecycleLocks) ==> sessionLifecycleLocks == old(sessionLifecycleLocks)
      ensures sid !in old(sessionLifecycleLocks)
              ==> fresh(lock) && sessionLifecycleLocks == old(sessionLifecycleLocks)[sid := lock]
    {
      if sid !in sessionLifecycleLocks {
        lock := new LifecycleLock();
        sessionLifecycleLocks := sessionLifecycleLocks[sid := lock];
      }
      lock := sessionLifecycleLocks[sid];
    }
  }

  // ---------------------------------------------------------------- table laws

  /** After its cleanup a channel owns nothing, and nobody else has lost anything. */
  lemma UnmapAllReleases<S>(table: Table<S>, c: ChannelId)
    ensures forall sid :: !Owns(UnmapAll(table, c), sid, c)
    ensures forall sid, d :: d != c ==> (Owns(UnmapAll(table, c), sid, d) <==> Owns(table, sid, d))
    ensures UnmapAll(table, c).Keys == table.Keys && UnmapAll(UnmapAll(table, c), c) == UnmapAll(table, c)
  {
  }

  /** Unmapping the owned sessions one at a time, in any order, is the cleanup. */
  lemma {:induction false} UnmapOneByOne<S>(table: Table<S>, c: ChannelId, order: seq<SessionId>)
    requires forall sid :: sid in table && table[sid].channel == Some(c) ==> sid in order
    ensures UnmapEach(table, c, order) == UnmapAll(table, c)
  {
    if order != [] {
      var table' := UnmapIfOwnedBy(table, order[0], c);
      UnmapOneByOne(table', c, order[1..]);
      assert UnmapAll(table', c) == UnmapAll(table, c);
    } else {
      assert UnmapAll(table, c) == table;
    }
  }

  function UnmapEach<S>(table: Table<S>, c: ChannelId, order: seq<SessionId>): Table<S> {
    if order == [] then table else UnmapEach(UnmapIfOwnedBy(table, order[0], c), c, order[1..])
  }

  /** Two clients never claim one session: of two claims in a row the second is refused,
      until the first owner lets go. */
  lemma ClaimsExclude<S>(table: Table<S>, sid: SessionId, c: ChannelId, d: ChannelId, state: S)
    requires SessionChannel(table, sid) == None
    ensures var claimed := if sid in table then MapChannel(table, sid, c)
            else InsertIfAbsent(table, sid, SessionEntry(state, Some(c)));
            && SessionChannel(claimed, sid) == Some(c)
            && (c != d ==> UnmapIfOwnedBy(claimed, sid, d) == claimed)
            && SessionChannel(UnmapIfOwnedBy(claimed, sid, c), sid) == None
            && (sid in table ==> UnmapIfOwnedBy(claimed, sid, c) == table)
  {
  }
}
