/** The shared state of the MCP proxy and the methods that update it in place. Each method
    is one critical section; `McpProtocol` interleaves them. */
module McpState {
  import opened Wrappers
  import opened McpProtocol

  /** An answer on its way to a handler. */
  datatype Completion = Completion(handler: HandlerId, reply: Message)

  predicate OwnKey(k: Key, session: SessionId, c: ChannelId) {
    k.session == session && k.channel == c
  }

  function KeySet(keys: seq<Key>): set<Key> {
    set k | k in keys
  }

  class McpChannelState {
    var sessions: map<SessionId, ChannelId>
    var awaiting: map<Key, Answer>
    var nextChannelId: nat
    var nextProxyId: nat

    /** Ids are drawn in order, so what is still in use was drawn earlier. */
    ghost predicate Valid()
      reads this
    {
      && (forall session :: session in sessions ==> sessions[session] < nextChannelId)
      && (forall k :: k in awaiting ==>
          k.channel < nextChannelId && exists n: nat :: n < nextProxyId && k.id == ProxyId(n))
    }

    constructor ()
      ensures Valid() && sessions == map[] && awaiting == map[]
    {
      sessions, awaiting := map[], map[];
      nextChannelId, nextProxyId := 1, 1;
    }

    method Join(session: SessionId) returns (c: ChannelId)
      requires Valid()
      modifies this`sessions, this`nextChannelId
      ensures Valid()
      ensures c == old(nextChannelId) && nextChannelId == c + 1
      ensures sessions == old(sessions)[session := c]
      ensures forall other :: other in old(sessions) ==> old(sessions)[other] != c
    {
      c := nextChannelId;
      nextChannelId := nextChannelId + 1;
      sessions := sessions[session := c];
    }

    /** Installs the pending answer of a request; nothing that is pending is displaced. */
    method Install(session: SessionId, clientId: JsonId, handler: HandlerId) returns (k: Key)
      requires Valid() && session in sessions
      modifies this`awaiting, this`nextProxyId
      ensures Valid()
      ensures k == Key(session, sessions[session], ProxyId(old(nextProxyId))) && nextProxyId == old(nextProxyId) + 1
      ensures k !in old(awaiting)
      ensures awaiting == old(awaiting)[k := Answer(clientId, handler)]
    {
      k := Key(session, sessions[session], ProxyId(nextProxyId));
      if k in awaiting {
        var n: nat :| n < nextProxyId && k.id == ProxyId(n);
        ProxyIdInjective(n, nextProxyId);
      }
      awaiting := awaiting[k := Answer(clientId, handler)];
      nextProxyId := nextProxyId + 1;
      assert k.id == ProxyId(nextProxyId - 1);
    }

    /** The browser of channel `c` sent `m`: only a response to an id awaited from this
        channel completes anything, and then exactly that entry. */
    method Complete(session: SessionId, c: ChannelId, m: Message) returns (done: Option<Completion>)
      requires Valid()
      modifies this`awaiting
      ensures Valid()
      ensures done.Some? <==>
              !m.hasMethod && m.hasResult != m.hasError && m.id.Some? && Key(session, c, m.id.value) in old(awaiting)
      ensures done.None? ==> awaiting == old(awaiting)
      ensures done.Some? ==>
                var k := Key(session, c, m.id.value);
                && awaiting == old(awaiting) - {k}
                && done.value.handler == old(awaiting)[k].handler
                && done.value.reply == m.(id := Some(old(awaiting)[k].clientId))
    {
      var id := ResponseId(m);
      if id.Some? {
        var k := Key(session, c, id.value);
        if k in awaiting {
          var answer := awaiting[k];
          awaiting := awaiting - {k};
          return Some(Completion(answer.handler, m.(id := Some(answer.clientId))));
        }
      }
      return None;
    }

    /** A channel's exit, or a failed push through it. */
    method RemoveIf(session: SessionId, c: ChannelId)
      requires Valid()
      modifies this`sessions
      ensures Valid()
      ensures !(session in sessions && sessions[session] == c)
      ensures forall other :: other in old(sessions) && (other != session || old(sessions)[other] != c) ==>
                other in sessions && sessions[other] == old(sessions)[other]
      ensures sessions.Keys <= old(sessions).Keys
    {
      if session in sessions && sessions[session] == c {
        sessions := sessions - {session};
      }
    }

    /** Fails everything that waits for channel `c`, once each and under its client's id,
        and touches nothing else. */
    method CleanupPendingAnswers(session: SessionId, c: ChannelId) returns (keys: seq<Key>, sent: seq<Completion>)
      requires Valid()
      modifies this`awaiting
      ensures Valid()
      ensures forall k :: k in keys <==> k in old(awaiting) && OwnKey(k, session, c)
      ensures forall i, j :: 0 <= i < j < |keys| ==> keys[i] != keys[j]
      ensures |sent| == |keys|
      ensures forall i :: 0 <= i < |keys| ==>
                sent[i] == Completion(old(awaiting)[keys[i]].handler, ConnectionClosed(old(awaiting)[keys[i]].clientId))
      ensures awaiting == old(awaiting) - KeySet(keys)
    {
      hide ProxyId, OwnKey, ConnectionClosed;
      keys := CollectKeys(session, c);
      sent := [];
      var i := 0;
      while i < |keys|
        invariant 0 <= i == |sent| <= |keys|
        invariant awaiting == old(awaiting) - KeySet(keys[..i])
        invariant forall j :: 0 <= j < i ==>
                    sent[j] == Completion(old(awaiting)[keys[j]].handler,
                        ConnectionClosed(old(awaiting)[keys[j]].clientId))
      {
        assert keys[..i + 1] == keys[..i] + [keys[i]];
        assert KeySet(keys[..i + 1]) == KeySet(keys[..i]) + {keys[i]};
        var k := keys[i];
        if k in awaiting {
          var answer := awaiting[k];
          awaiting := awaiting - {k};
          sent := sent + [Completion(answer.handler, ConnectionClosed(answer.clientId))];
        } else {
          assert false;
        }
        i := i + 1;
      }
      assert keys[..i] == keys;
    }

    method CollectKeys(session: SessionId, c: ChannelId) returns (keys: seq<Key>)
      ensures forall k :: k in keys <==> k in awaiting && OwnKey(k, session, c)
      ensures forall i, j :: 0 <= i < j < |keys| ==> keys[i] != keys[j]
    {
      keys := [];
      var rest := awaiting.Keys;
      while rest != {}
        invariant rest <= awaiting.Keys
        invariant forall k :: k in keys <==> k in awaiting && k !in rest && OwnKey(k, session, c)
        invariant forall i, j :: 0 <= i < j < |keys| ==> keys[i] != keys[j]
        decreases rest
      {
        var k :| k in rest;
        rest := rest - {k};
        if OwnKey(k, session, c) {
          keys := keys + [k];
        }
      }
    }
  }
}
