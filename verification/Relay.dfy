/**
 The document relay: browsers with their own replicas around one server replica. A document
 is the set of operations it holds, applying an update is union, and a state-vector diff is
 set difference. Every socket is a pair of queues; a socket's frames are handled one at a
 time, and the handlers of different sockets interleave at every suspension point.
 */
module Relay {
  import opened Basics

  type Op = nat

  /** Client to server: join, subscribe_document, SYNC_STEP1, and SYNC_STEP2 or an update. */
  datatype Up = Hello | Subscribe | Want(have: set<Op>) | Push(ops: set<Op>)

  /** Server to client: joined, SYNC_STEP1, and SYNC_STEP2 or an update. */
  datatype Down = Welcome | Ask(have: set<Op>) | Give(ops: set<Op>)

  /**
   Where a socket's handler is suspended. `mine` is what its frame added to the server's
   replica; `targets` are the sockets a broadcast has not reached yet.
   */
  datatype Handler =
    | Idle
    | Welcoming
    | Relaying(before: set<Op>, mine: set<Op>)
    | Sending(update: set<Op>, mine: set<Op>, targets: set<Id>)

  /**
   `live`: the server still runs this socket's session. `missed` is history: operations whose
   relay to this socket died with the handler that should have made it, since its last SYNC_STEP1.
   */
  datatype Socket = Socket(
    client: Id, up: seq<Up>, down: seq<Down>, joined: bool, live: bool, handler: Handler, missed: set<Op>)

  /**
   `conn` is the socket that is open in the browser; `known`: a join was acknowledged to this
   browser once; `made` tells whether its user has opened the document.
   */
  datatype Client = Client(ops: set<Op>, conn: Option<Id>, known: bool, made: bool)

  datatype State = State(
    clients: map<Id, Client>, sockets: map<Id, Socket>, members: map<Id, Id>, server: set<Op>)

  const START := State(map[], map[], map[], {})

  datatype Event =
    | Open(c: Id)
    | Connect(c: Id, k: Id)
    | Disconnect(c: Id)
    | LoseUp(k: Id, n: nat)
    | Make(c: Id)
    | Edit(c: Id, op: Op)
    | Receive(k: Id)
    | Greet(k: Id)
    | Relay(k: Id)
    | Send(k: Id, target: Id)
    | Finish(k: Id)
    | Die(k: Id)
    | End(k: Id)
    | Hear(k: Id)

  predicate Current(s: State, c: Id, k: Id) { c in s.clients && s.clients[c].conn == Some(k) }

  predicate May(s: State, e: Event) {
    match e
    case Open(c) => c !in s.clients
    case Connect(c, k) => c in s.clients && s.clients[c].conn == None && k !in s.sockets
    case Disconnect(c) => c in s.clients
    case LoseUp(k, n) => k in s.sockets && n <= |s.sockets[k].up| && !Current(s, s.sockets[k].client, k)
    case Make(c) => c in s.clients && s.clients[c].known && !s.clients[c].made
    case Edit(c, _) => c in s.clients && s.clients[c].made
    case Receive(k) =>
      && k in s.sockets && s.sockets[k].live && s.sockets[k].handler == Idle && s.sockets[k].up != []
      && (s.sockets[k].up[0] == Hello ==> Current(s, s.sockets[k].client, k))
    case Greet(k) => k in s.sockets && s.sockets[k].handler == Welcoming
    case Relay(k) => k in s.sockets && s.sockets[k].handler.Relaying?
    case Send(k, target) => k in s.sockets && s.sockets[k].handler.Sending? && target in s.sockets[k].handler.targets
    case Finish(k) => k in s.sockets && s.sockets[k].handler.Sending? && s.sockets[k].handler.targets == {}
    case Die(k) => k in s.sockets && s.sockets[k].handler != Idle
    case End(k) => k in s.sockets && s.sockets[k].live && s.sockets[k].handler == Idle
    case Hear(k) =>
      k in s.sockets && s.sockets[k].down != [] && Current(s, s.sockets[k].client, k)
  }

  function Put(s: State, k: Id, x: Socket): State { s.(sockets := s.sockets[k := x]) }

  /** `send_bytes` on a socket whose session is still open. */
  function Enqueue(x: Socket, f: Down): Socket { if x.live then x.(down := x.down + [f]) else x }

  /** What `leave` does to the room when session k ends. */
  function Without(members: map<Id, Id>, c: Id, k: Id): map<Id, Id> {
    if c in members && members[c] == k then members - {c} else members
  }

  /** The server takes the next frame of socket k. */
  function ReceiveStep(s: State, k: Id): State
    requires k in s.sockets && s.sockets[k].up != []
  {
    var x := s.sockets[k].(up := s.sockets[k].up[1..]);
    match s.sockets[k].up[0]
    case Hello => Put(s, k, x.(joined := true, handler := Welcoming)).(members := s.members[x.client := k])
    case Subscribe => Put(s, k, Enqueue(x, Ask(s.server)))
    case Want(have) =>
      Put(s, k, Enqueue(x, Give(s.server - have)).(handler := Relaying(s.server, {}), missed := {}))
    case Push(ops) =>
      Put(s, k, x.(handler := Relaying(s.server, ops - s.server))).(server := s.server + ops)
  }

  /** The sockets of every connected user but one. */
  function Others(members: map<Id, Id>, c: Id): set<Id> { (members - {c}).Values }

  /** After the capacity report: relay what changed since the frame arrived. */
  function RelayStep(s: State, k: Id): State
    requires k in s.sockets && s.sockets[k].handler.Relaying?
  {
    var x := s.sockets[k];
    var update := s.server - x.handler.before;
    Put(s, k, x.(handler :=
      if update == {} then Idle else Sending(update, x.handler.mine, Others(s.members, x.client))))
  }

  function SendStep(s: State, k: Id, target: Id): State
    requires k in s.sockets && s.sockets[k].handler.Sending?
  {
    var x := s.sockets[k];
    var s' := Put(s, k, x.(handler := x.handler.(targets := x.handler.targets - {target})));
    if target in s'.sockets then Put(s', target, Enqueue(s'.sockets[target], Give(x.handler.update))) else s'
  }

  /** What a handler that dies leaves undone. */
  function Undone(s: State, h: Socket, k: Id, x: Socket): set<Op> {
    match h.handler
    case Relaying(_, mine) => if x.client == h.client then {} else mine
    case Sending(_, mine, targets) => if k in targets then mine else {}
    case _ => {}
  }

  /** A handler raises: the session ends, and its operations are not relayed any further. */
  function DieStep(s: State, k: Id): State
    requires k in s.sockets
  {
    var h := s.sockets[k];
    State(s.clients,
          map i | i in s.sockets ::
            var x := s.sockets[i].(missed := s.sockets[i].missed + Undone(s, h, i, s.sockets[i]));
            if i == k then x.(handler := Idle, live := false) else x,
          Without(s.members, h.client, k), s.server)
  }

  /** `applyFrame`, `handleJoined` and `handleBinary` in the browser. */
  function HearStep(s: State, k: Id): State
    requires k in s.sockets && s.sockets[k].down != [] && s.sockets[k].client in s.clients
  {
    var x := s.sockets[k].(down := s.sockets[k].down[1..]);
    var c := s.clients[x.client];
    match s.sockets[k].down[0]
    case Welcome =>
      Put(s, k, if c.made then x.(up := x.up + [Subscribe, Want(c.ops)]) else x).(
        clients := s.clients[x.client := c.(known := true)])
    case Ask(have) => Put(s, k, if c.made then x.(up := x.up + [Push(c.ops - have)]) else x)
    case Give(ops) =>
      Put(s, k, x).(clients := if c.made then s.clients[x.client := c.(ops := c.ops + ops)] else s.clients)
  }

  /** `ensureDocument` for a document not opened before; without an open socket its frames are dropped. */
  function MakeStep(s: State, c: Id): State
    requires c in s.clients
  {
    var x := s.clients[c].(made := true);
    var s' := s.(clients := s.clients[c := x]);
    if x.conn.Some? && x.conn.value in s.sockets then
      var k := x.conn.value;
      Put(s', k, s.sockets[k].(up := s.sockets[k].up + [Subscribe, Want(x.ops)]))
    else s'
  }

  function EditStep(s: State, c: Id, op: Op): State
    requires c in s.clients
  {
    var x := s.clients[c].(ops := s.clients[c].ops + {op});
    var s' := s.(clients := s.clients[c := x]);
    if x.conn.Some? && x.conn.value in s.sockets then
      var k := x.conn.value;
      Put(s', k, s.sockets[k].(up := s.sockets[k].up + [Push({op})]))
    else s'
  }

  function Step(s: State, e: Event): State
    requires May(s, e)
  {
    match e
    case Open(c) => s.(clients := s.clients[c := Client({}, None, false, false)])
    case Connect(c, k) =>
      Put(s, k, Socket(c, [Hello], [], false, true, Idle, {})).(
        clients := s.clients[c := s.clients[c].(conn := Some(k))])
    case Disconnect(c) => s.(clients := s.clients[c := s.clients[c].(conn := None)])
    case LoseUp(k, n) => Put(s, k, s.sockets[k].(up := s.sockets[k].up[..n]))
    case Make(c) => MakeStep(s, c)
    case Edit(c, op) => EditStep(s, c, op)
    case Receive(k) => ReceiveStep(s, k)
    case Greet(k) => Put(s, k, Enqueue(s.sockets[k], Welcome).(handler := Idle))
    case Relay(k) => RelayStep(s, k)
    case Send(k, target) => SendStep(s, k, target)
    case Finish(k) => Put(s, k, s.sockets[k].(handler := Idle))
    case Die(k) => DieStep(s, k)
    case End(k) =>
      Put(s, k, s.sockets[k].(live := false)).(members := Without(s.members, s.sockets[k].client, k))
    case Hear(k) => HearStep(s, k)
  }

  predicate Legal(s: State, es: seq<Event>)
    decreases |es|
  {
    es != [] ==> May(s, es[0]) && Legal(Step(s, es[0]), es[1..])
  }

  function After(s: State, es: seq<Event>): State
    requires Legal(s, es)
    decreases |es|
  {
    if es == [] then s else After(Step(s, es[0]), es[1..])
  }
}
