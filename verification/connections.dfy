/** The per-process connection registry shared by both relay variants.

    Each live transport connection is registered under its id. Before a
    successful Hello its entry carries no uid; afterwards it carries the uid
    the client announced. A connection counts as bound only when that uid is
    truthy, i.e. present and non-empty, exactly as the `if (conn.uid)` and
    `if (client.uid)` tests of the relay decide it. */
module Connections {

  datatype Option<T> = None | Some(value: T)

  /** The transport's connection id. */
  type ConnId = string

  /** A client-chosen identity. An absent `uid` field of a message is
      represented by the empty string: both are falsy to every guard. */
  type Uid = string

  /** Connection id to the uid it is bound to, if any. */
  type Registry = map<ConnId, Option<Uid>>

  /** JavaScript truthiness of an optional uid string. */
  predicate Truthy(uid: Option<Uid>) {
    uid.Some? && uid.value != ""
  }

  /** The connection is registered and has completed a Hello with a truthy uid. */
  predicate IsBound(reg: Registry, id: ConnId) {
    id in reg && Truthy(reg[id])
  }

  /** The connection is registered and bound to exactly `uid`. */
  predicate IsBoundTo(reg: Registry, id: ConnId, uid: Uid) {
    IsBound(reg, id) && reg[id].value == uid
  }

  /** The connections a bound-only fan-out addresses. */
  function BoundIds(reg: Registry): set<ConnId> {
    set id | id in reg && Truthy(reg[id])
  }

  /** The session phase of one connection as an explicit tagged variant:
      not registered, registered without a truthy uid, or bound. */
  datatype Phase = Absent | Unbound | Bound(uid: Uid)

  /** The phase the registry records for `id`. */
  function PhaseOf(reg: Registry, id: ConnId): (p: Phase)
    ensures p.Absent? <==> id !in reg
    ensures p.Bound? <==> IsBound(reg, id)
    ensures p.Bound? ==> IsBoundTo(reg, id, p.uid)
  {
    if id !in reg then Absent
    else if Truthy(reg[id]) then Bound(reg[id].value)
    else Unbound
  }

  /** A new transport connection: it is registered without a uid. A second
      registration under the same id replaces the old record. Both servers'
      connection handlers do exactly this. */
  function Register(reg: Registry, id: ConnId): (r: Registry)
    ensures id in r && r[id] == None
    ensures !IsBound(r, id)
    ensures r.Keys == reg.Keys + {id}
    ensures forall other :: other in reg && other != id ==> r[other] == reg[other]
    ensures BoundIds(r) == BoundIds(reg) - {id}
  {
    reg[id := None]
  }

  /** The transport closed: the record is deleted, in both servers.
      Deleting an id that is not registered changes nothing. */
  function Unregister(reg: Registry, id: ConnId): (r: Registry)
    ensures id !in r
    ensures r.Keys == reg.Keys - {id}
    ensures forall other :: other in r ==> r[other] == reg[other]
    ensures BoundIds(r) == BoundIds(reg) - {id}
    ensures id !in reg ==> r == reg
  {
    reg - {id}
  }

  /** Closing a connection that was just opened under a fresh id restores the
      registry it was opened in. */
  lemma RegisterThenUnregister(reg: Registry, id: ConnId)
    requires id !in reg
    ensures Unregister(Register(reg, id), id) == reg
  {
  }

  /** A second close event for the same id is harmless. */
  lemma UnregisterIdempotent(reg: Registry, id: ConnId)
    ensures Unregister(Unregister(reg, id), id) == Unregister(reg, id)
  {
  }
}
