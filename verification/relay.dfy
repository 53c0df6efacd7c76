/** The current relay server (src/index.ts) as a pure transition system.

    The server owns a connection registry and reads and writes one shared
    snapshot, uid to UserState, held under a fixed key of the store. Each
    handler of the source becomes a function from the server state and the
    event to the next state and the list of effects the handler emits:
    writes to a connection, closes of a connection and publishes on the
    global channel. The store's GET/SET round trips complete inside the step
    that issues them, so the store appears as part of the state. */
module Relay {
  import opened Connections

  /** A user's last known position and speaking flag. */
  datatype UserState = UserState(x: int, y: int, speaking: bool)

  type UserStateMap = map<Uid, UserState>

  /** The value under the store's fixed key: absent, or a snapshot. */
  type Store = Option<UserStateMap>

  /** A client message, already parsed. `OtherType` is any non-null JSON
      value whose `type` is neither hello nor update. `Unparsable` is text on
      which the JSON parse throws, or the JSON literal `null`, on which reading
      `type` throws. An Update whose `update` field is absent carries `None`. */
  datatype Message =
    | Hello(uid: Uid)
    | Update(uid: Uid, update: Option<UserState>)
    | OtherType
    | Unparsable

  /** The payload published on the global channel; `None` when the Update
      carried no `update` field, which serialisation then omits. */
  datatype Delta = Delta(uid: Uid, update: Option<UserState>)

  /** A channel delivery, parsed. `Garbled` is text on which the JSON parse
      throws, or the JSON literal `null`, on which reading `uid` throws; both
      are caught and skipped. */
  datatype ChannelData = Parsed(delta: Delta) | Garbled

  /** Why a client message was refused. `NoClient` is the type error raised
      when the connection's record is gone from the registry. */
  datatype Failure = CannotHelloTwice | MustHelloFirst | UidMismatch | NotJson | NoClient

  /** What the server writes to a connection. */
  datatype ServerMessage = Broadcast(updates: UserStateMap) | Diagnostic(failure: Failure)

  datatype Effect =
    | Write(id: ConnId, message: ServerMessage)
    | Close(id: ConnId)
    | Publish(delta: Delta)

  datatype Server = Server(clients: Registry, store: Store)

  datatype Output = Output(server: Server, effects: seq<Effect>)

  /** The snapshot as the handlers read it: a missing value is the empty map. */
  function Snapshot(store: Store): UserStateMap {
    match store
    case None => map[]
    case Some(m) => m
  }

  /** The entry a map holds for `uid`, if any. */
  function Lookup(m: UserStateMap, uid: Uid): Option<UserState> {
    if uid in m then Some(m[uid]) else None
  }

  /** The reply of a Hello: one Broadcast carrying the whole snapshot. */
  function HelloReply(store: Store): (reply: ServerMessage)
    ensures reply.Broadcast?
    ensures store.None? ==> reply.updates == map[]
    ensures store.Some? ==> reply.updates == store.value
  {
    Broadcast(Snapshot(store))
  }

  /** The snapshot after `uid` reported `update`, as written back by the SET:
      that one entry is replaced wholesale and every other entry is kept. An
      absent `update` assigns undefined, and serialisation drops that key, so
      the entry disappears. */
  function Overwrite(store: Store, uid: Uid, update: Option<UserState>): (m: UserStateMap)
    ensures Lookup(m, uid) == update
    ensures update.Some? ==> m.Keys == Snapshot(store).Keys + {uid}
    ensures update.None? ==> m.Keys == Snapshot(store).Keys - {uid}
    ensures forall other :: other != uid ==> Lookup(m, other) == Lookup(Snapshot(store), other)
  {
    match update
    case Some(v) => Snapshot(store)[uid := v]
    case None => Snapshot(store) - {uid}
  }

  /** The catch block of the data handler: a diagnostic write, then a close.
      The registry entry stays until the transport reports the close. */
  function Reject(s: Server, id: ConnId, f: Failure): Output {
    Output(s, [Write(id, Diagnostic(f)), Close(id)])
  }

  /** The connection handler: register the new connection without a uid. */
  function Connect(s: Server, id: ConnId): (s': Server)
    ensures id in s'.clients && !IsBound(s'.clients, id)
    ensures s'.clients.Keys == s.clients.Keys + {id}
    ensures forall other :: other in s.clients && other != id ==> s'.clients[other] == s.clients[other]
    ensures s'.store == s.store
  {
    s.(clients := Register(s.clients, id))
  }

  /** The close handler: delete exactly that connection's record. */
  function Disconnect(s: Server, id: ConnId): (s': Server)
    ensures id !in s'.clients
    ensures s'.clients.Keys == s.clients.Keys - {id}
    ensures forall other :: other in s'.clients ==> s'.clients[other] == s.clients[other]
    ensures s'.store == s.store
  {
    s.(clients := Unregister(s.clients, id))
  }

  /** The data handler for one message on connection `id`. */
  function OnData(s: Server, id: ConnId, msg: Message): (out: Output)
    // only the sender's own record may change, and a truthy binding never does
    ensures out.server.clients.Keys == s.clients.Keys
    ensures forall c :: c in s.clients && c != id ==> out.server.clients[c] == s.clients[c]
    ensures forall c :: IsBound(s.clients, c) ==> out.server.clients[c] == s.clients[c]
    // writes and closes address the sender only
    ensures forall e :: e in out.effects && !e.Publish? ==> e.id == id
    // a close comes only with a diagnostic and leaves the server untouched
    ensures Close(id) in out.effects ==>
              out.server == s && |out.effects| == 2 && out.effects[0].Write? && out.effects[0].message.Diagnostic?
    // the store changes only for a valid Update, which replaces the sender's entry
    ensures out.server.store != s.store ==>
              msg.Update? && IsBoundTo(s.clients, id, msg.uid)
              && out.server.store == Some(Overwrite(s.store, msg.uid, msg.update))
    // whatever is published agrees with what is now stored
    ensures forall e :: e in out.effects && e.Publish? ==>
              msg.Update? && e.delta == Delta(msg.uid, msg.update)
              && out.server.store.Some? && Lookup(out.server.store.value, msg.uid) == msg.update
  {
    match msg
    case Hello(uid) =>
      if id !in s.clients then Reject(s, id, NoClient)
      else if Truthy(s.clients[id]) then Reject(s, id, CannotHelloTwice)
      else Output(s.(clients := s.clients[id := Some(uid)]), [Write(id, HelloReply(s.store))])
    case Update(uid, update) =>
      if id !in s.clients then Reject(s, id, NoClient)
      else if !Truthy(s.clients[id]) then Reject(s, id, MustHelloFirst)
      else if uid != s.clients[id].value then Reject(s, id, UidMismatch)
      else Output(s.(store := Some(Overwrite(s.store, uid, update))), [Publish(Delta(uid, update))])
    case OtherType => Output(s, [])
    case Unparsable => Reject(s, id, NotJson)
  }

  /** The Broadcast a channel delta becomes: a singleton updates map, or an
      empty one when the delta has no `update` (its undefined value is
      dropped when the Broadcast is serialised). */
  function Relayed(d: Delta): (m: ServerMessage)
    ensures m.Broadcast? && m.updates.Keys <= {d.uid} && Lookup(m.updates, d.uid) == d.update
  {
    match d.update
    case Some(v) => Broadcast(map[d.uid := v])
    case None => Broadcast(map[])
  }

  /** The channel subscription handler. A garbled payload is skipped; a delta
      is written once to every bound connection and to no other. The server
      state is never changed by it. */
  method OnChannel(s: Server, data: ChannelData) returns (effects: seq<Effect>)
    ensures data.Garbled? ==> effects == []
    ensures forall e :: e in effects ==>
              data.Parsed? && e.Write? && e.message == Relayed(data.delta) && IsBound(s.clients, e.id)
    ensures data.Parsed? ==>
              forall id :: multiset(effects)[Write(id, Relayed(data.delta))] == if IsBound(s.clients, id) then 1 else 0
  {
    effects := [];
    if data.Garbled? {
      return;
    }
    var m := Relayed(data.delta);
    var pending := s.clients.Keys;
    while pending != {}
      invariant pending <= s.clients.Keys
      invariant forall e :: e in effects ==> e.Write? && e.message == m && IsBound(s.clients, e.id) && e.id !in pending
      invariant forall id :: multiset(effects)[Write(id, m)] == if IsBound(s.clients, id) && id !in pending then 1 else 0
      decreases pending
    {
      var id :| id in pending;
      if Truthy(s.clients[id]) {
        effects := effects + [Write(id, m)];
      }
      pending := pending - {id};
    }
  }

  /** A valid Update relayed back through this instance's own subscription:
      every bound connection, the sender included, receives exactly one
      Broadcast of the new entry, and the store holds that entry. */
  method UpdateAndRelay(s: Server, id: ConnId, uid: Uid, update: Option<UserState>) returns (out: Output, relayed: seq<Effect>)
    requires IsBoundTo(s.clients, id, uid)
    ensures out.server.clients == s.clients
    ensures Lookup(Snapshot(out.server.store), uid) == update
    ensures out.effects == [Publish(Delta(uid, update))]
    ensures forall c :: multiset(relayed)[Write(c, Relayed(Delta(uid, update)))] == if IsBound(s.clients, c) then 1 else 0
    ensures multiset(relayed)[Write(id, Relayed(Delta(uid, update)))] == 1
    ensures forall e :: e in relayed ==> e.Write? && e.message.Broadcast? && Lookup(e.message.updates, uid) == Lookup(Snapshot(out.server.store), uid)
  {
    out := OnData(s, id, Update(uid, update));
    relayed := OnChannel(out.server, Parsed(out.effects[0].delta));
  }

  // ---------------------------------------------------------------------
  // Properties of single steps

  /** A Hello on a registered, unbound connection binds it to the given uid
      and answers with the whole snapshot; nothing else changes. */
  lemma HelloOnUnbound(s: Server, id: ConnId, uid: Uid)
    requires id in s.clients && !IsBound(s.clients, id)
    ensures var out := OnData(s, id, Hello(uid));
            && out.server.clients == s.clients[id := Some(uid)]
            && out.server.store == s.store
            && out.effects == [Write(id, Broadcast(Snapshot(s.store)))]
            && (uid != "" ==> IsBoundTo(out.server.clients, id, uid))
  {
  }

  /** A Hello with an empty uid is accepted but leaves the connection unbound:
      it still gets the snapshot, but no broadcast, and may Hello again. */
  lemma EmptyHelloStaysUnbound(s: Server, id: ConnId)
    requires id in s.clients && !IsBound(s.clients, id)
    ensures var out := OnData(s, id, Hello(""));
            && !IsBound(out.server.clients, id)
            && BoundIds(out.server.clients) == BoundIds(s.clients)
            && OnData(out.server, id, Hello("")).effects == out.effects
  {
  }

  /** A second Hello on a bound connection is refused: a diagnostic is
      written, the connection is closed, and the state is untouched. */
  lemma HelloTwiceCloses(s: Server, id: ConnId, uid: Uid)
    requires IsBound(s.clients, id)
    ensures OnData(s, id, Hello(uid)) == Output(s, [Write(id, Diagnostic(CannotHelloTwice)), Close(id)])
  {
  }

  /** An Update before a truthy Hello, or for another uid than the bound one,
      closes the connection without writing the store or publishing. */
  lemma UpdateGuardsClose(s: Server, id: ConnId, uid: Uid, update: Option<UserState>)
    requires id in s.clients && !IsBoundTo(s.clients, id, uid)
    ensures var out := OnData(s, id, Update(uid, update));
            && out.server == s
            && Close(id) in out.effects
            && forall e :: e in out.effects ==> !e.Publish?
    ensures !IsBound(s.clients, id) ==> OnData(s, id, Update(uid, update)).effects[0] == Write(id, Diagnostic(MustHelloFirst))
    ensures IsBound(s.clients, id) ==> OnData(s, id, Update(uid, update)).effects[0] == Write(id, Diagnostic(UidMismatch))
  {
  }

  /** A valid Update replaces the sender's entry wholesale, keeps every other
      entry, and publishes exactly one delta equal to the message's pair. */
  lemma ValidUpdate(s: Server, id: ConnId, uid: Uid, update: UserState)
    requires IsBoundTo(s.clients, id, uid)
    ensures var out := OnData(s, id, Update(uid, Some(update)));
            && out.server.clients == s.clients
            && out.server.store.Some?
            && uid in out.server.store.value && out.server.store.value[uid] == update
            && (forall other :: other != uid ==>
                  (other in out.server.store.value <==> other in Snapshot(s.store))
                  && (other in Snapshot(s.store) ==> out.server.store.value[other] == Snapshot(s.store)[other]))
            && out.effects == [Publish(Delta(uid, Some(update)))]
  {
  }

  /** An accepted Update without an `update` field erases the sender's entry
      from the stored snapshot, keeps every other entry, and publishes a
      delta that every receiver turns into a Broadcast with no updates. */
  lemma UpdateWithoutStateErases(s: Server, id: ConnId, uid: Uid)
    requires IsBoundTo(s.clients, id, uid)
    ensures var out := OnData(s, id, Update(uid, None));
            && out.server.clients == s.clients
            && out.server.store == Some(Snapshot(s.store) - {uid})
            && uid !in out.server.store.value
            && out.effects == [Publish(Delta(uid, None))]
            && Relayed(Delta(uid, None)) == Broadcast(map[])
  {
  }

  /** Sending the same Update twice leaves the same state as sending it once:
      the entry holds that value and no key is duplicated or added. */
  lemma UpdateTwice(s: Server, id: ConnId, uid: Uid, update: Option<UserState>)
    requires IsBoundTo(s.clients, id, uid)
    ensures var once := OnData(s, id, Update(uid, update));
            var twice := OnData(once.server, id, Update(uid, update));
            && twice.server == once.server
            && twice.effects == once.effects
            && Lookup(Snapshot(twice.server.store), uid) == update
            && (update.Some? ==> twice.server.store.value.Keys == Snapshot(s.store).Keys + {uid})
  {
    var once := OnData(s, id, Update(uid, update));
    assert Overwrite(once.server.store, uid, update) == Overwrite(s.store, uid, update);
  }

  /** A message of any other type is ignored: no state change, no effect. */
  lemma OtherTypeIgnored(s: Server, id: ConnId)
    ensures OnData(s, id, OtherType) == Output(s, [])
  {
  }

  /** What a message does to a connection in a given phase. */
  datatype Verdict = Accept(next: Phase) | Ignore | Refuse(failure: Failure)

  /** The session protocol as a table over explicit phases. */
  function Protocol(p: Phase, msg: Message): Verdict {
    match msg
    case Hello(uid) =>
      (match p
       case Absent => Refuse(NoClient)
       case Bound(_) => Refuse(CannotHelloTwice)
       case Unbound => if uid == "" then Accept(Unbound) else Accept(Bound(uid)))
    case Update(uid, _) =>
      (match p
       case Absent => Refuse(NoClient)
       case Unbound => Refuse(MustHelloFirst)
       case Bound(bound) => if bound == uid then Accept(p) else Refuse(UidMismatch))
    case OtherType => Ignore
    case Unparsable => Refuse(NotJson)
  }

  /** The data handler follows the phase table for every input: a refusal is
      exactly a diagnostic and a close with no state change, an ignored
      message does nothing, and an accepted one moves the connection to the
      table's next phase with one effect and no close. */
  lemma OnDataFollowsProtocol(s: Server, id: ConnId, msg: Message)
    ensures var out := OnData(s, id, msg);
            match Protocol(PhaseOf(s.clients, id), msg)
            case Refuse(f) => out == Reject(s, id, f)
            case Ignore => out == Output(s, [])
            case Accept(next) =>
              PhaseOf(out.server.clients, id) == next && |out.effects| == 1 && Close(id) !in out.effects
  {
  }

  /** Unparsable client data, or JSON `null`, is refused and closes the
      connection. */
  lemma UnparsableCloses(s: Server, id: ConnId)
    ensures OnData(s, id, Unparsable) == Output(s, [Write(id, Diagnostic(NotJson)), Close(id)])
  {
  }

  // ---------------------------------------------------------------------
  // Properties of runs

  /** The events the server reacts to. */
  datatype Event =
    | Connection(id: ConnId)
    | Closed(id: ConnId)
    | Data(id: ConnId, msg: Message)
    | ChannelMessage(data: ChannelData)

  /** The server state after one event (the effects are dropped). */
  function Apply(s: Server, ev: Event): Server {
    match ev
    case Connection(id) => Connect(s, id)
    case Closed(id) => Disconnect(s, id)
    case Data(id, msg) => OnData(s, id, msg).server
    case ChannelMessage(_) => s
  }

  /** The server state after a sequence of events. */
  function Run(s: Server, events: seq<Event>): Server
    decreases |events|
  {
    if |events| == 0 then s else Run(Apply(s, events[0]), events[1..])
  }

  /** The event opens or closes the transport connection `id`. */
  predicate Reopens(ev: Event, id: ConnId) {
    (ev.Connection? || ev.Closed?) && ev.id == id
  }

  /** Once bound, a connection keeps its uid through any events until its
      transport is closed or re-registered. */
  lemma {:induction false} BindingPersists(s: Server, events: seq<Event>, id: ConnId, uid: Uid)
    requires IsBoundTo(s.clients, id, uid)
    requires forall i :: 0 <= i < |events| ==> !Reopens(events[i], id)
    ensures IsBoundTo(Run(s, events).clients, id, uid)
    decreases |events|
  {
    if |events| > 0 {
      var next := Apply(s, events[0]);
      assert !Reopens(events[0], id);
      assert IsBoundTo(next.clients, id, uid);
      assert forall i :: 0 <= i < |events[1..]| ==> !Reopens(events[1..][i], id) by {
        forall i | 0 <= i < |events[1..]|
          ensures !Reopens(events[1..][i], id)
        {
          assert events[1..][i] == events[i + 1];
        }
      }
      BindingPersists(next, events[1..], id, uid);
    }
  }

  /** The uids of the update-less Updates among the events. */
  function Erasers(events: seq<Event>): set<Uid>
    decreases |events|
  {
    if |events| == 0 then {}
    else
      var ev := events[0];
      (if ev.Data? && ev.msg.Update? && ev.msg.update.None? then {ev.msg.uid} else {})
      + Erasers(events[1..])
  }

  /** An identity leaves the stored snapshot only through an Update without
      an `update` field sent for it: every other event keeps every entry. */
  lemma {:induction false} SnapshotLosesOnlyErased(s: Server, events: seq<Event>)
    ensures Snapshot(s.store).Keys - Snapshot(Run(s, events).store).Keys <= Erasers(events)
    decreases |events|
  {
    if |events| > 0 {
      var next := Apply(s, events[0]);
      var ev := events[0];
      assert Snapshot(s.store).Keys - Snapshot(next.store).Keys
             <= (if ev.Data? && ev.msg.Update? && ev.msg.update.None? then {ev.msg.uid} else {});
      SnapshotLosesOnlyErased(next, events[1..]);
    }
  }
}
