/** The older relay server (src/index.js) as a pure transition system.

    This variant keeps no snapshot: its only state is the connection
    registry. Hello must carry a truthy uid and gets no reply; Update must
    carry truthy `x`, `y` and `speaking` and is published as received; every
    channel message is written, as received, to every registered connection,
    bound or not. */
module LegacyRelay {
  import opened Connections

  /** A client message, already parsed. Numbers are integers whose only
      falsy value is 0; an absent `x` or `y` is represented by 0, an absent
      `speaking` by false. `OtherType` is any non-null JSON value whose `type`
      is neither hello nor update. `Unparsable` is text on which the JSON
      parse throws, or the JSON literal `null`, on which reading `type`
      throws. */
  datatype Message =
    | Hello(uid: Uid)
    | Update(uid: Uid, x: int, y: int, speaking: bool)
    | OtherType
    | Unparsable

  /** Why a client message was refused. `NoClient` is the type error raised
      when the connection's record is gone from the registry. */
  datatype Failure =
    | CannotSetUidTwice
    | HelloMustHaveUid
    | MustHelloFirst
    | UidMismatch
    | MissingData
    | NotJson
    | NoClient

  /** The text of a message delivered on the global channel. It is passed on
      without being parsed, and any instance may have published it. */
  type Payload = string

  /** What the server writes to a connection: channel text passed through,
      or the "Bad message" diagnostic. */
  datatype Outgoing = Relayed(text: Payload) | BadMessage(failure: Failure)

  /** `Publish` carries the accepted client message; its serialised text is
      what the channel delivers. */
  datatype Effect =
    | Write(id: ConnId, out: Outgoing)
    | Close(id: ConnId)
    | Publish(msg: Message)

  datatype Output = Output(clients: Registry, effects: seq<Effect>)

  /** The fields an Update must carry: all three truthy. */
  predicate HasData(msg: Message)
    requires msg.Update?
  {
    msg.x != 0 && msg.y != 0 && msg.speaking
  }

  /** The catch block of the data handler: a "Bad message" write, then a
      close. The registry entry stays until the transport reports the close. */
  function Reject(clients: Registry, id: ConnId, f: Failure): Output {
    Output(clients, [Write(id, BadMessage(f)), Close(id)])
  }

  /** The data handler for one message on connection `id`. */
  function OnData(clients: Registry, id: ConnId, msg: Message): (out: Output)
    // only the sender's own record may change, and a truthy binding never does
    ensures out.clients.Keys == clients.Keys
    ensures forall c :: c in clients && c != id ==> out.clients[c] == clients[c]
    ensures forall c :: IsBound(clients, c) ==> out.clients[c] == clients[c]
    // a record only ever gains a truthy uid
    ensures id in clients && out.clients[id] != clients[id] ==> msg.Hello? && IsBoundTo(out.clients, id, msg.uid)
    // writes and closes address the sender only
    ensures forall e :: e in out.effects && !e.Publish? ==> e.id == id
    // a close comes only with a diagnostic and leaves the registry untouched
    ensures Close(id) in out.effects ==>
              out.clients == clients && |out.effects| == 2 && out.effects[0].Write? && out.effects[0].out.BadMessage?
    // only a complete Update from its own bound connection is published, as received
    ensures forall e :: e in out.effects && e.Publish? ==>
              e.msg == msg && msg.Update? && IsBoundTo(clients, id, msg.uid) && HasData(msg)
  {
    match msg
    case Hello(uid) =>
      if id !in clients then Reject(clients, id, NoClient)
      else if Truthy(clients[id]) then Reject(clients, id, CannotSetUidTwice)
      else if uid == "" then Reject(clients, id, HelloMustHaveUid)
      else Output(clients[id := Some(uid)], [])
    case Update(uid, _, _, _) =>
      if id !in clients then Reject(clients, id, NoClient)
      else if !Truthy(clients[id]) then Reject(clients, id, MustHelloFirst)
      else if uid != clients[id].value then Reject(clients, id, UidMismatch)
      else if !HasData(msg) then Reject(clients, id, MissingData)
      else Output(clients, [Publish(msg)])
    case OtherType => Output(clients, [])
    case Unparsable => Reject(clients, id, NotJson)
  }

  /** The channel subscription handler: the text is written, unchanged,
      once to every registered connection, bound or not. */
  method OnChannel(clients: Registry, payload: Payload) returns (effects: seq<Effect>)
    ensures forall e :: e in effects ==> e.Write? && e.out == Relayed(payload) && e.id in clients
    ensures forall id :: multiset(effects)[Write(id, Relayed(payload))] == if id in clients then 1 else 0
    ensures |effects| == |clients|
  {
    effects := [];
    var pending := clients.Keys;
    while pending != {}
      invariant pending <= clients.Keys
      invariant forall e :: e in effects ==> e.Write? && e.out == Relayed(payload) && e.id in clients && e.id !in pending
      invariant forall id :: multiset(effects)[Write(id, Relayed(payload))] == if id in clients && id !in pending then 1 else 0
      invariant |effects| + |pending| == |clients|
      decreases pending
    {
      var id :| id in pending;
      effects := effects + [Write(id, Relayed(payload))];
      pending := pending - {id};
    }
  }

  // ---------------------------------------------------------------------
  // Properties of single steps

  /** A Hello on an already bound connection is refused and closes it. */
  lemma HelloTwiceCloses(clients: Registry, id: ConnId, uid: Uid)
    requires IsBound(clients, id)
    ensures OnData(clients, id, Hello(uid)) == Output(clients, [Write(id, BadMessage(CannotSetUidTwice)), Close(id)])
  {
  }

  /** A Hello with a missing or empty uid is refused, closes the connection
      and leaves it unbound. */
  lemma EmptyHelloCloses(clients: Registry, id: ConnId)
    requires id in clients && !IsBound(clients, id)
    ensures var out := OnData(clients, id, Hello(""));
            && out == Output(clients, [Write(id, BadMessage(HelloMustHaveUid)), Close(id)])
            && !IsBound(out.clients, id)
  {
  }

  /** A valid Hello binds the uid and emits nothing at all. */
  lemma ValidHello(clients: Registry, id: ConnId, uid: Uid)
    requires id in clients && !IsBound(clients, id) && uid != ""
    ensures var out := OnData(clients, id, Hello(uid));
            && IsBoundTo(out.clients, id, uid)
            && out.clients == clients[id := Some(uid)]
            && out.effects == []
  {
  }

  /** An Update before Hello, or for another uid than the bound one, closes
      the connection and publishes nothing. */
  lemma UpdateGuardsClose(clients: Registry, id: ConnId, msg: Message)
    requires msg.Update? && id in clients && !IsBoundTo(clients, id, msg.uid)
    ensures var out := OnData(clients, id, msg);
            && out.clients == clients
            && Close(id) in out.effects
            && forall e :: e in out.effects ==> !e.Publish?
  {
  }

  /** An Update with a falsy `x`, `y` or `speaking`, such as `x = 0` or
      `speaking = false`, is refused even from its own bound connection. */
  lemma FalsyFieldsClose(clients: Registry, id: ConnId, uid: Uid, x: int, y: int, speaking: bool)
    requires IsBoundTo(clients, id, uid)
    requires x == 0 || y == 0 || !speaking
    ensures OnData(clients, id, Update(uid, x, y, speaking))
            == Output(clients, [Write(id, BadMessage(MissingData)), Close(id)])
  {
  }

  /** A complete Update from its bound connection is published unchanged,
      and nothing else happens. */
  lemma ValidUpdate(clients: Registry, id: ConnId, msg: Message)
    requires msg.Update? && IsBoundTo(clients, id, msg.uid) && HasData(msg)
    ensures OnData(clients, id, msg) == Output(clients, [Publish(msg)])
  {
  }

  /** A message of any other type is ignored: no state change, no effect. */
  lemma OtherTypeIgnored(clients: Registry, id: ConnId)
    ensures OnData(clients, id, OtherType) == Output(clients, [])
  {
  }

  /** What a message does to a connection in a given phase. */
  datatype Verdict = Accept(next: Phase) | Ignore | Refuse(failure: Failure)

  /** The session protocol as a table over explicit phases. */
  function Protocol(p: Phase, msg: Message): Verdict {
    match msg
    case Hello(uid) =>
      (match p
       case Absent => Refuse(NoClient)
       case Bound(_) => Refuse(CannotSetUidTwice)
       case Unbound => if uid == "" then Refuse(HelloMustHaveUid) else Accept(Bound(uid)))
    case Update(uid, x, y, speaking) =>
      (match p
       case Absent => Refuse(NoClient)
       case Unbound => Refuse(MustHelloFirst)
       case Bound(bound) =>
         if bound != uid then Refuse(UidMismatch)
         else if x == 0 || y == 0 || !speaking then Refuse(MissingData)
         else Accept(p))
    case OtherType => Ignore
    case Unparsable => Refuse(NotJson)
  }

  /** The data handler follows the phase table for every input: a refusal is
      exactly a "Bad message" write and a close with no registry change, an
      ignored message does nothing, and an accepted one moves the connection
      to the table's next phase without a close. */
  lemma OnDataFollowsProtocol(clients: Registry, id: ConnId, msg: Message)
    ensures var out := OnData(clients, id, msg);
            match Protocol(PhaseOf(clients, id), msg)
            case Refuse(f) => out == Reject(clients, id, f)
            case Ignore => out == Output(clients, [])
            case Accept(next) =>
              PhaseOf(out.clients, id) == next && Close(id) !in out.effects
              && out.effects == (if msg.Update? then [Publish(msg)] else [])
  {
  }

  // ---------------------------------------------------------------------
  // Properties of runs

  /** The events the server reacts to. */
  datatype Event =
    | Connection(id: ConnId)
    | Closed(id: ConnId)
    | Data(id: ConnId, msg: Message)
    | ChannelMessage(payload: Payload)

  /** The registry after one event (the effects are dropped). */
  function Apply(clients: Registry, ev: Event): Registry {
    match ev
    case Connection(id) => Register(clients, id)
    case Closed(id) => Unregister(clients, id)
    case Data(id, msg) => OnData(clients, id, msg).clients
    case ChannelMessage(_) => clients
  }

  /** The registry after a sequence of events. */
  function Run(clients: Registry, events: seq<Event>): Registry
    decreases |events|
  {
    if |events| == 0 then clients else Run(Apply(clients, events[0]), events[1..])
  }

  /** The event opens or closes the transport connection `id`. */
  predicate Reopens(ev: Event, id: ConnId) {
    (ev.Connection? || ev.Closed?) && ev.id == id
  }

  /** Every uid a record carries is truthy: unlike the current server, this
      one never stores an empty uid. */
  predicate NoEmptyBinding(clients: Registry) {
    forall id :: id in clients && clients[id].Some? ==> clients[id].value != ""
  }

  /** No sequence of events ever stores an empty uid in the registry. */
  lemma {:induction false} RunKeepsNoEmptyBinding(clients: Registry, events: seq<Event>)
    requires NoEmptyBinding(clients)
    ensures NoEmptyBinding(Run(clients, events))
    decreases |events|
  {
    if |events| > 0 {
      var next := Apply(clients, events[0]);
      assert NoEmptyBinding(next);
      RunKeepsNoEmptyBinding(next, events[1..]);
    }
  }

  /** Once bound, a connection keeps its uid through any events until its
      transport is closed or re-registered. */
  lemma {:induction false} BindingPersists(clients: Registry, events: seq<Event>, id: ConnId, uid: Uid)
    requires IsBoundTo(clients, id, uid)
    requires forall i :: 0 <= i < |events| ==> !Reopens(events[i], id)
    ensures IsBoundTo(Run(clients, events), id, uid)
    decreases |events|
  {
    if |events| > 0 {
      var next := Apply(clients, events[0]);
      assert !Reopens(events[0], id);
      assert IsBoundTo(next, id, uid);
      assert forall i :: 0 <= i < |events[1..]| ==> !Reopens(events[1..][i], id) by {
        forall i | 0 <= i < |events[1..]|
          ensures !Reopens(events[1..][i], id)
        {
          assert events[1..][i] == events[i + 1];
        }
      }
      BindingPersists(next, events[1..], id, uid);
    }
  }
}
