/** The session table of one ACP process: which session exists, which state object
    it has, and which channel owns it. Each function is the effect of one critical
    section on `ProcessState::sessions` (tidewave-core/src/ws/acp.rs). */
module AcpTable {
  import opened Wrappers

  type ChannelId = nat
  type SessionId = nat

  datatype SessionEntry<S> = SessionEntry(state: S, channel: Option<ChannelId>)

  type Table<S> = map<SessionId, SessionEntry<S>>

  function SessionChannel<S>(table: Table<S>, id: SessionId): Option<ChannelId> {
    if id in table then table[id].channel else None
  }

  predicate Owns<S>(table: Table<S>, id: SessionId, c: ChannelId) {
    SessionChannel(table, id) == Some(c)
  }

  function MapChannel<S>(table: Table<S>, id: SessionId, c: ChannelId): Table<S> {
    if id in table then table[id := table[id].(channel := Some(c))] else table
  }

  function UnmapIfOwnedBy<S>(table: Table<S>, id: SessionId, c: ChannelId): Table<S> {
    if Owns(table, id, c) then table[id := table[id].(channel := None)] else table
  }

  function UnmapAll<S>(table: Table<S>, c: ChannelId): Table<S> {
    map id | id in table :: if table[id].channel == Some(c) then table[id].(channel := None) else table[id]
  }

  function InsertIfAbsent<S>(table: Table<S>, id: SessionId, entry: SessionEntry<S>): Table<S> {
    if id in table then table else table[id := entry]
  }

  predicate UnownedOrOwnedBy<S>(table: Table<S>, id: SessionId, c: ChannelId) {
    id in table && (table[id].channel == None || table[id].channel == Some(c))
  }

  function Remove<K, V>(table: map<K, V>, id: K): (rest: map<K, V>)
    ensures rest.Keys == table.Keys - {id}
    ensures forall k :: k in rest ==> rest[k] == table[k]
  {
    map k | k in table && k != id :: table[k]
  }
}
