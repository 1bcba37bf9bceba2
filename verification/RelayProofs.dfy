/** Nothing is lost between the replicas, and at rest they agree. */
module RelayProofs {
  import opened Basics
  import opened Relay

  // ------------------------------------------------------------------
  // What is in the queues
  // ------------------------------------------------------------------

  function Pushed(up: seq<Up>): set<Op> {
    if up == [] then {} else (if up[0].Push? then up[0].ops else {}) + Pushed(up[1..])
  }

  function Given(down: seq<Down>): set<Op> {
    if down == [] then {} else (if down[0].Give? then down[0].ops else {}) + Given(down[1..])
  }

  /** Some SYNC_STEP1 on its way asks for op. */
  predicate Asks(down: seq<Down>, op: Op) {
    down != [] && ((down[0].Ask? && op !in down[0].have) || Asks(down[1..], op))
  }

  lemma {:induction false} PushedAppend(up: seq<Up>, f: Up)
    ensures Pushed(up + [f]) == Pushed(up) + (if f.Push? then f.ops else {})
  {
    if up == [] {
    } else {
      assert (up + [f])[1..] == up[1..] + [f];
      PushedAppend(up[1..], f);
    }
  }

  lemma {:induction false} GivenAppend(down: seq<Down>, f: Down)
    ensures Given(down + [f]) == Given(down) + (if f.Give? then f.ops else {})
  {
    if down == [] {
    } else {
      assert (down + [f])[1..] == down[1..] + [f];
      GivenAppend(down[1..], f);
    }
  }

  lemma {:induction false} AsksAppend(down: seq<Down>, f: Down, op: Op)
    ensures Asks(down + [f], op) <==> Asks(down, op) || (f.Ask? && op !in f.have)
  {
    if down == [] {
    } else {
      assert (down + [f])[1..] == down[1..] + [f];
      AsksAppend(down[1..], f, op);
    }
  }

  lemma {:induction false} PushedPrefix(up: seq<Up>, n: nat)
    requires n <= |up|
    ensures Pushed(up[..n]) <= Pushed(up)
  {
    if n == 0 {
    } else {
      assert up[..n][1..] == up[1..][..n - 1];
      PushedPrefix(up[1..], n - 1);
    }
  }

  // ------------------------------------------------------------------
  // The invariant
  // ------------------------------------------------------------------

  predicate HandlerOk(h: Handler, client: set<Op>, server: set<Op>) {
    match h
    case Relaying(before, mine) => before <= server && mine <= server && mine <= client && mine !! before
    case Sending(update, mine, _) => mine <= update <= server && mine <= client
    case _ => true
  }

  /** Frames carry only what their sender holds. */
  predicate SocketOk(s: State, k: Id)
    requires k in s.sockets
  {
    var x := s.sockets[k];
    && x.client in s.clients
    && var ops := s.clients[x.client].ops;
    && Pushed(x.up) <= ops && Given(x.down) <= s.server
    && (forall f | f in x.up && f.Want? :: f.have <= ops)
    && (forall f | f in x.down && f.Ask? :: f.have <= s.server)
    && HandlerOk(x.handler, ops, s.server)
    && (x.handler != Idle ==> x.live)
  }

  /** The join has not been acknowledged to the browser yet. */
  predicate Joining(x: Socket) { Hello in x.up || x.handler == Welcoming || Welcome in x.down }

  predicate Wants(up: seq<Up>) { exists f :: f in up && f.Want? }

  /** A handler of another client's socket has yet to relay op to socket k of client c. */
  predicate Owes(h: Socket, op: Op, c: Id, k: Id) {
    h.client != c
    && ((h.handler.Relaying? && op in h.handler.mine)
        || (h.handler.Sending? && op in h.handler.mine && k in h.handler.targets))
  }

  /** Client c has op, or it is on its way to socket k, or its relay to it died. */
  predicate Reaches(s: State, c: Id, k: Id, op: Op)
    requires c in s.clients && k in s.sockets
  {
    || op in s.clients[c].ops || op in s.sockets[k].missed || op in Given(s.sockets[k].down)
    || exists h :: h in s.sockets && Owes(s.sockets[h], op, c, k)
  }

  /** The server has op, or it is on its way there, or the server has asked for it. */
  predicate Offered(s: State, k: Id, op: Op)
    requires k in s.sockets
  {
    op in s.server || op in Pushed(s.sockets[k].up) || Asks(s.sockets[k].down, op)
  }

  predicate LinkOk(s: State, c: Id, k: Id)
    requires c in s.clients && k in s.sockets
  {
    var x := s.sockets[k];
    && (x.joined || (x.up != [] && x.up[0] == Hello))
    && (x.joined ==> c in s.members && s.members[c] == k)
    && (!s.clients[c].made || Joining(x) || Wants(x.up) || forall op | op in s.server :: Reaches(s, c, k, op))
    && (Joining(x) || Subscribe in x.up || forall op | op in s.clients[c].ops :: Offered(s, k, op))
  }

  predicate ClientOk(s: State, c: Id)
    requires c in s.clients
  {
    && (!s.clients[c].made ==> s.clients[c].ops == {})
    && (s.clients[c].conn.Some? ==>
          && var k := s.clients[c].conn.value;
          && k in s.sockets && s.sockets[k].client == c && (s.sockets[k].live ==> LinkOk(s, c, k)))
  }

  predicate Good(s: State) {
    && (forall k | k in s.sockets :: SocketOk(s, k))
    && (forall c | c in s.clients :: ClientOk(s, c))
  }

  // ------------------------------------------------------------------
  // One step, seen from a socket and from a client
  // ------------------------------------------------------------------

  /** Replicas only grow. */
  predicate Grows(s: State, w: State) {
    && s.server <= w.server
    && (forall c | c in s.clients :: c in w.clients && s.clients[c].ops <= w.clients[c].ops)
  }

  lemma SocketKept(s: State, w: State, k: Id)
    requires k in s.sockets && SocketOk(s, k) && Grows(s, w)
    requires k in w.sockets && w.sockets[k] == s.sockets[k].(missed := w.sockets[k].missed)
    ensures SocketOk(w, k)
  {
  }

  /** Every operation the server holds still reaches the client that step did not concern. */
  predicate StillReaches(s: State, w: State, c: Id, k: Id) {
    c in s.clients && k in s.sockets && c in w.clients && k in w.sockets ==>
      forall op | op in w.server :: (op in s.server ==> Reaches(s, c, k, op)) ==> Reaches(w, c, k, op)
  }

  lemma ClientKept(s: State, w: State, c: Id)
    requires c in s.clients && ClientOk(s, c) && c in w.clients && w.clients[c] == s.clients[c] && Grows(s, w)
    requires s.clients[c].conn.Some? ==>
               var k := s.clients[c].conn.value;
               && k in w.sockets && k in s.sockets && w.sockets[k] == s.sockets[k].(missed := w.sockets[k].missed)
               && (Joining(s.sockets[k]) || Wants(s.sockets[k].up) || !s.sockets[k].live || StillReaches(s, w, c, k))
               && (c in s.members && s.members[c] == k ==> c in w.members && w.members[c] == k)
    ensures ClientOk(w, c)
  {
  }

  /** The handlers are where they were. */
  predicate SameHandlers(s: State, w: State) {
    forall h | h in s.sockets ::
      h in w.sockets && w.sockets[h].client == s.sockets[h].client && w.sockets[h].handler == s.sockets[h].handler
  }

  lemma SameReaches(s: State, w: State, c: Id, k: Id)
    requires SameHandlers(s, w) && w.server == s.server && Grows(s, w)
    requires k in s.sockets && k in w.sockets && s.sockets[k].missed <= w.sockets[k].missed
    requires Given(s.sockets[k].down) <= Given(w.sockets[k].down)
    ensures StillReaches(s, w, c, k)
  {
    if c in s.clients && c in w.clients {
      forall op | op in s.server && Reaches(s, c, k, op) ensures Reaches(w, c, k, op) {
        if h :| h in s.sockets && Owes(s.sockets[h], op, c, k) { assert Owes(w.sockets[h], op, c, k); }
      }
    }
  }

  /** A step of one browser, seen from the others. */
  lemma OthersKept(s: State, w: State, c: Id)
    requires Good(s) && SameHandlers(s, w) && w.server == s.server && w.members == s.members
    requires forall d | d in s.clients && d != c :: d in w.clients && w.clients[d] == s.clients[d]
    requires c in s.clients ==> c in w.clients && s.clients[c].ops <= w.clients[c].ops
    requires forall k | k in s.sockets && s.sockets[k].client != c :: w.sockets[k] == s.sockets[k]
    ensures forall d | d in s.clients && d != c :: ClientOk(w, d)
    ensures forall k | k in s.sockets && s.sockets[k].client != c :: SocketOk(w, k)
  {
    hide LinkOk, Reaches, StillReaches;
    forall d | d in s.clients && d != c ensures ClientOk(w, d) {
      assert ClientOk(s, d);
      if s.clients[d].conn.Some? { SameReaches(s, w, d, s.clients[d].conn.value); }
      ClientKept(s, w, d);
    }
    forall k | k in s.sockets && s.sockets[k].client != c ensures SocketOk(w, k) { SocketKept(s, w, k); }
  }

  // The queues of one socket

  lemma EnqueueSocket(s: State, k: Id, f: Down)
    requires k in s.sockets && SocketOk(s, k)
    requires f.Give? ==> f.ops <= s.server
    requires f.Ask? ==> f.have <= s.server
    ensures SocketOk(Put(s, k, Enqueue(s.sockets[k], f)), k)
  {
    GivenAppend(s.sockets[k].down, f);
  }

  // ------------------------------------------------------------------
  // The browser's steps
  // ------------------------------------------------------------------

  lemma OpenOk(s: State, c: Id)
    requires Good(s) && May(s, Open(c))
    ensures Good(Step(s, Open(c)))
  {
    hide SocketOk, ClientOk;
    Homes(s);
    OthersKept(s, Step(s, Open(c)), c);
    NewClientOk(Step(s, Open(c)), c);
  }

  lemma Homes(s: State)
    requires Good(s)
    ensures forall k | k in s.sockets :: s.sockets[k].client in s.clients
    ensures forall c | c in s.clients && s.clients[c].conn.Some? ::
              s.clients[c].conn.value in s.sockets && s.sockets[s.clients[c].conn.value].client == c
  {
    assert forall k | k in s.sockets :: SocketOk(s, k);
    assert forall c | c in s.clients :: ClientOk(s, c);
  }

  lemma NewClientOk(s: State, c: Id)
    requires c in s.clients && s.clients[c] == Client({}, None, false, false)
    ensures ClientOk(s, c)
  {
  }

  lemma ConnectOk(s: State, c: Id, k: Id)
    requires Good(s) && May(s, Connect(c, k))
    ensures Good(Step(s, Connect(c, k)))
  {
    hide LinkOk, SocketOk, ClientOk;
    var w := Step(s, Connect(c, k));
    Homes(s);
    OthersKept(s, w, c);
    forall i | i in s.sockets ensures SocketOk(w, i) { SocketKept(s, w, i); }
    NewSocketOk(s, c, k);
  }

  lemma NewSocketOk(s: State, c: Id, k: Id)
    requires May(s, Connect(c, k)) && ClientOk(s, c)
    ensures SocketOk(Step(s, Connect(c, k)), k) && ClientOk(Step(s, Connect(c, k)), c)
  {
    assert Hello in Step(s, Connect(c, k)).sockets[k].up;
  }

  lemma DisconnectOk(s: State, c: Id)
    requires Good(s) && May(s, Disconnect(c))
    ensures Good(Step(s, Disconnect(c)))
  {
    hide LinkOk, SocketOk;
    var w := Step(s, Disconnect(c));
    Homes(s);
    OthersKept(s, w, c);
    forall i | i in s.sockets ensures SocketOk(w, i) { SocketKept(s, w, i); }
    assert ClientOk(s, c);
  }

  lemma LoseUpOk(s: State, k: Id, n: nat)
    requires Good(s) && May(s, LoseUp(k, n))
    ensures Good(Step(s, LoseUp(k, n)))
  {
    hide LinkOk, SocketOk;
    var w, c := Step(s, LoseUp(k, n)), s.sockets[k].client;
    Homes(s);
    OthersKept(s, w, c);
    assert ClientOk(s, c);
    if s.clients[c].conn.Some? { SameReaches(s, w, c, s.clients[c].conn.value); }
    ClientKept(s, w, c);
    forall i | i in s.sockets ensures SocketOk(w, i) { if i != k { SocketKept(s, w, i); } else { ShorterOk(s, k, n); } }
  }

  lemma ShorterOk(s: State, k: Id, n: nat)
    requires May(s, LoseUp(k, n)) && SocketOk(s, k)
    ensures SocketOk(Step(s, LoseUp(k, n)), k)
  {
    PushedPrefix(s.sockets[k].up, n);
  }

  lemma MakeOk(s: State, c: Id)
    requires Good(s) && May(s, Make(c))
    ensures Good(MakeStep(s, c))
  {
    hide LinkOk, SocketOk;
    var w := MakeStep(s, c);
    Homes(s);
    OthersKept(s, w, c);
    assert ClientOk(s, c);
    forall i | i in s.sockets ensures SocketOk(w, i) {
      if Current(s, c, i) { MakeSocket(s, c, i); } else { SocketKept(s, w, i); }
    }
    if s.clients[c].conn.Some? && s.sockets[s.clients[c].conn.value].live { MakeLink(s, c, s.clients[c].conn.value); }
  }

  lemma MakeSocket(s: State, c: Id, k: Id)
    requires Current(s, c, k) && k in s.sockets && SocketOk(s, k) && s.sockets[k].client == c
    ensures SocketOk(MakeStep(s, c), k)
  {
    var x, ops := s.sockets[k], s.clients[c].ops;
    PushedAppend(x.up, Subscribe); PushedAppend(x.up + [Subscribe], Want(ops));
    assert x.up + [Subscribe, Want(ops)] == x.up + [Subscribe] + [Want(ops)];
  }

  /** The new replica is empty, and asks for everything. */
  lemma MakeLink(s: State, c: Id, k: Id)
    requires May(s, Make(c)) && Current(s, c, k) && k in s.sockets && ClientOk(s, c) && s.sockets[k].live
    ensures LinkOk(MakeStep(s, c), c, k)
  {
    var w := MakeStep(s, c);
    assert Want({}) in w.sockets[k].up;
    assert Hello in s.sockets[k].up ==> Hello in w.sockets[k].up;
  }

  lemma EditOk(s: State, c: Id, op: Op)
    requires Good(s) && May(s, Edit(c, op))
    ensures Good(EditStep(s, c, op))
  {
    hide LinkOk, SocketOk;
    var w := EditStep(s, c, op);
    Homes(s);
    OthersKept(s, w, c);
    assert ClientOk(s, c);
    forall i | i in s.sockets ensures SocketOk(w, i) {
      if Current(s, c, i) { EditSocket(s, c, op, i); } else { SocketKept(s, w, i); }
    }
    if s.clients[c].conn.Some? && s.sockets[s.clients[c].conn.value].live {
      EditLink(s, c, op, s.clients[c].conn.value);
    }
  }

  lemma EditSocket(s: State, c: Id, op: Op, k: Id)
    requires Current(s, c, k) && k in s.sockets && SocketOk(s, k) && s.sockets[k].client == c
    ensures SocketOk(EditStep(s, c, op), k)
  {
    PushedAppend(s.sockets[k].up, Push({op}));
  }

  lemma EditLink(s: State, c: Id, op: Op, k: Id)
    requires Current(s, c, k) && k in s.sockets && ClientOk(s, c) && s.sockets[k].live
    ensures LinkOk(EditStep(s, c, op), c, k)
  {
    var w := EditStep(s, c, op);
    PushedAppend(s.sockets[k].up, Push({op}));
    SameReaches(s, w, c, k);
    assert Hello in s.sockets[k].up ==> Hello in w.sockets[k].up;
    assert Subscribe in s.sockets[k].up ==> Subscribe in w.sockets[k].up;
    forall f | f in s.sockets[k].up && f.Want? ensures f in w.sockets[k].up {}
  }

  lemma HearSocket(s: State, k: Id)
    requires k in s.sockets && s.sockets[k].down != [] && SocketOk(s, k)
    ensures SocketOk(HearStep(s, k), k)
  {
    var x, c := s.sockets[k], s.clients[s.sockets[k].client];
    match x.down[0]
    case Welcome =>
      PushedAppend(x.up, Subscribe); PushedAppend(x.up + [Subscribe], Want(c.ops));
      assert x.up + [Subscribe, Want(c.ops)] == x.up + [Subscribe] + [Want(c.ops)];
    case Ask(have) => PushedAppend(x.up, Push(c.ops - have));
    case Give(_) =>
  }

  lemma HearReaches(s: State, c: Id, k: Id)
    requires k in s.sockets && s.sockets[k].down != [] && s.sockets[k].client == c && c in s.clients
    requires s.clients[c].made || !s.sockets[k].down[0].Give?
    ensures StillReaches(s, HearStep(s, k), c, k)
  {
    var w := HearStep(s, k);
    forall op | op in s.server && Reaches(s, c, k, op) ensures Reaches(w, c, k, op) {
      if h :| h in s.sockets && Owes(s.sockets[h], op, c, k) { assert Owes(w.sockets[h], op, c, k); }
    }
  }

  lemma HearLink(s: State, c: Id, k: Id)
    requires Current(s, c, k) && k in s.sockets && ClientOk(s, c) && SocketOk(s, k)
    requires s.sockets[k].live && s.sockets[k].down != []
    ensures LinkOk(HearStep(s, k), c, k)
  {
    var w, x := HearStep(s, k), s.sockets[k];
    if x.down[0] == Welcome {
      if s.clients[c].made { assert Want(s.clients[c].ops) in w.sockets[k].up && Subscribe in w.sockets[k].up; }
    } else {
      assert Joining(x) ==> Joining(w.sockets[k]) by { HearJoining(s, c, k); }
      if s.clients[c].made {
        HearReaches(s, c, k);
        HearOffers(s, c, k);
      }
    }
  }

  lemma HearJoining(s: State, c: Id, k: Id)
    requires Current(s, c, k) && k in s.sockets && s.sockets[k].client == c && s.sockets[k].down != []
    requires s.sockets[k].down[0] != Welcome
    ensures Joining(s.sockets[k]) ==> Joining(HearStep(s, k).sockets[k])
    ensures Wants(s.sockets[k].up) ==> Wants(HearStep(s, k).sockets[k].up)
    ensures Subscribe in s.sockets[k].up ==> Subscribe in HearStep(s, k).sockets[k].up
  {
    var x, y := s.sockets[k], HearStep(s, k).sockets[k];
    assert Welcome in x.down ==> Welcome in x.down[1..];
    assert Hello in x.up ==> Hello in y.up;
    forall f | f in x.up && f.Want? ensures f in y.up {}
  }

  lemma HearOffers(s: State, c: Id, k: Id)
    requires Current(s, c, k) && k in s.sockets && s.sockets[k].client == c && s.sockets[k].down != []
    requires s.sockets[k].down[0] != Welcome
    requires s.clients[c].made && s.sockets[k].live && ClientOk(s, c) && SocketOk(s, k)
    ensures var w := HearStep(s, k);
            || Joining(w.sockets[k]) || Subscribe in w.sockets[k].up
            || forall op | op in w.clients[c].ops :: Offered(w, k, op)
  {
    var w, x := HearStep(s, k), s.sockets[k];
    HearJoining(s, c, k);
    if x.down[0].Ask? { PushedAppend(x.up, Push(s.clients[c].ops - x.down[0].have)); }
  }

  lemma HearEffect(s: State, k: Id)
    requires k in s.sockets && s.sockets[k].down != [] && s.sockets[k].client in s.clients
    ensures var w, c := HearStep(s, k), s.sockets[k].client;
            && w.server == s.server && w.members == s.members
            && w.sockets.Keys == s.sockets.Keys && w.clients.Keys == s.clients.Keys
            && (forall d | d in s.clients && d != c :: w.clients[d] == s.clients[d])
            && (forall i | i in s.sockets && i != k :: w.sockets[i] == s.sockets[i])
            && w.sockets[k].client == c && w.sockets[k].handler == s.sockets[k].handler
            && w.sockets[k].live == s.sockets[k].live
            && s.clients[c].ops <= w.clients[c].ops && w.clients[c].conn == s.clients[c].conn
            && w.clients[c].made == s.clients[c].made && (!w.clients[c].made ==> w.clients[c].ops == s.clients[c].ops)
  {
  }

  lemma HearOk(s: State, k: Id)
    requires Good(s) && May(s, Hear(k))
    ensures Good(HearStep(s, k))
  {
    hide LinkOk, SocketOk, HearStep;
    HearEffect(s, k);
    var w, c := HearStep(s, k), s.sockets[k].client;
    Homes(s);
    OthersKept(s, w, c);
    assert ClientOk(s, c);
    forall i | i in s.sockets ensures SocketOk(w, i) {
      if i == k { HearSocket(s, k); } else { SocketKept(s, w, i); }
    }
    if s.sockets[k].live { HearLink(s, c, k); }
  }

  // ------------------------------------------------------------------
  // The server's steps
  // ------------------------------------------------------------------

  /** A step of the server, seen from the sockets it leaves alone. */
  lemma ServerKept(s: State, w: State, c: Id)
    requires Good(s) && w.clients == s.clients && s.server <= w.server && c in s.clients
    requires s.clients[c].conn.Some? ==>
               var k := s.clients[c].conn.value;
               && k in w.sockets && w.sockets[k] == s.sockets[k].(missed := w.sockets[k].missed)
               && (Joining(s.sockets[k]) || Wants(s.sockets[k].up) || !s.sockets[k].live || StillReaches(s, w, c, k))
               && (c in s.members && s.members[c] == k ==> c in w.members && w.members[c] == k)
    ensures ClientOk(w, c)
  {
    hide LinkOk, SocketOk;
    assert ClientOk(s, c);
    ClientKept(s, w, c);
  }

  lemma ReceiveSocket(s: State, k: Id)
    requires k in s.sockets && s.sockets[k].up != [] && SocketOk(s, k) && s.sockets[k].live
    ensures SocketOk(ReceiveStep(s, k), k)
  {
    var x := s.sockets[k];
    match x.up[0]
    case Subscribe => GivenAppend(x.down, Ask(s.server));
    case Want(have) => GivenAppend(x.down, Give(s.server - have));
    case _ =>
  }

  lemma ReceiveEffect(s: State, k: Id)
    requires k in s.sockets && s.sockets[k].up != []
    ensures var w, c := ReceiveStep(s, k), s.sockets[k].client;
            && w.clients == s.clients && s.server <= w.server && w.sockets.Keys == s.sockets.Keys
            && (forall i | i in s.sockets && i != k :: w.sockets[i] == s.sockets[i])
            && (forall d | d in s.members && d != c :: d in w.members && w.members[d] == s.members[d])
            && (s.sockets[k].up[0] != Hello ==> w.members == s.members)
            && (s.sockets[k].up[0] == Hello ==> c in w.members && w.members[c] == k)
            && w.sockets[k].client == c && w.sockets[k].live == s.sockets[k].live
  {
  }

  /** What a frame adds is owed to the sockets of every other client; its own client has it. */
  lemma ReceiveReaches(s: State, k: Id, c: Id, i: Id)
    requires k in s.sockets && s.sockets[k].up != [] && s.sockets[k].handler == Idle
    requires i in s.sockets && i != k && SocketOk(s, k)
    ensures StillReaches(s, ReceiveStep(s, k), c, i)
  {
    var w := ReceiveStep(s, k);
    if c in s.clients {
      forall op | op in w.server && (op in s.server ==> Reaches(s, c, i, op)) ensures Reaches(w, c, i, op) {
        if op !in s.server { assert c == s.sockets[k].client || Owes(w.sockets[k], op, c, i); }
        else if h :| h in s.sockets && Owes(s.sockets[h], op, c, i) { assert Owes(w.sockets[h], op, c, i); }
      }
    }
  }

  lemma ReceiveLink(s: State, c: Id, k: Id)
    requires Current(s, c, k) && k in s.sockets && s.sockets[k].client == c && SocketOk(s, k) && LinkOk(s, c, k)
    requires s.sockets[k].live && s.sockets[k].handler == Idle && s.sockets[k].up != []
    ensures LinkOk(ReceiveStep(s, k), c, k)
  {
    var x, w := s.sockets[k], ReceiveStep(s, k);
    assert forall f | f in x.up && f != x.up[0] :: f in x.up[1..];
    match x.up[0]
    case Hello =>
    case Subscribe => AskLink(s, c, k);
    case Want(have) => GivenAppend(x.down, Give(s.server - have)); WantLink(s, c, k);
    case Push(ops) => PushLink(s, c, k);
  }

  lemma AskLink(s: State, c: Id, k: Id)
    requires Current(s, c, k) && k in s.sockets && s.sockets[k].client == c && SocketOk(s, k) && LinkOk(s, c, k)
    requires s.sockets[k].live && s.sockets[k].handler == Idle && s.sockets[k].up != []
    requires s.sockets[k].up[0] == Subscribe
    ensures LinkOk(ReceiveStep(s, k), c, k)
  {
    var x, w := s.sockets[k], ReceiveStep(s, k);
    forall f | f in x.up && f != Subscribe ensures f in x.up[1..] {}
    forall op | op in s.clients[c].ops ensures Offered(w, k, op) { AsksAppend(x.down, Ask(s.server), op); }
    GivenAppend(x.down, Ask(s.server));
    SameReaches(s, w, c, k);
  }

  lemma WantLink(s: State, c: Id, k: Id)
    requires Current(s, c, k) && k in s.sockets && s.sockets[k].client == c && SocketOk(s, k) && LinkOk(s, c, k)
    requires s.sockets[k].live && s.sockets[k].handler == Idle && s.sockets[k].up != [] && s.sockets[k].up[0].Want?
    ensures LinkOk(ReceiveStep(s, k), c, k)
  {
    var x, w := s.sockets[k], ReceiveStep(s, k);
    var f := Give(s.server - x.up[0].have);
    forall g | g in x.up && g != x.up[0] ensures g in x.up[1..] {}
    GivenAppend(x.down, f);
    forall op | op in s.clients[c].ops && Offered(s, k, op) ensures Offered(w, k, op) { AsksAppend(x.down, f, op); }
  }

  lemma PushLink(s: State, c: Id, k: Id)
    requires Current(s, c, k) && k in s.sockets && s.sockets[k].client == c && SocketOk(s, k) && LinkOk(s, c, k)
    requires s.sockets[k].live && s.sockets[k].handler == Idle && s.sockets[k].up != [] && s.sockets[k].up[0].Push?
    ensures LinkOk(ReceiveStep(s, k), c, k)
  {
    var x, w := s.sockets[k], ReceiveStep(s, k);
    forall f | f in x.up && f != x.up[0] ensures f in x.up[1..] {}
    forall op | op in s.server && Reaches(s, c, k, op) ensures Reaches(w, c, k, op) {
      if h :| h in s.sockets && Owes(s.sockets[h], op, c, k) { assert Owes(w.sockets[h], op, c, k); }
    }
  }

  lemma ReceiveOk(s: State, k: Id)
    requires Good(s) && May(s, Receive(k))
    ensures Good(ReceiveStep(s, k))
  {
    hide LinkOk, SocketOk, ReceiveStep, StillReaches;
    var w := ReceiveStep(s, k);
    Homes(s);
    ReceiveEffect(s, k);
    forall i | i in w.sockets ensures SocketOk(w, i) {
      if i == k { ReceiveSocket(s, k); } else { SocketKept(s, w, i); }
    }
    forall d | d in w.clients ensures ClientOk(w, d) {
      assert ClientOk(s, d);
      if Current(s, d, k) { ReceiveLink(s, d, k); }
      else {
        if s.clients[d].conn.Some? { ReceiveReaches(s, k, d, s.clients[d].conn.value); }
        ServerKept(s, w, d);
      }
    }
  }

  /** A step that only changes socket k's session and what hangs on it. */
  ghost predicate OnlySocket(s: State, w: State, k: Id) {
    && k in s.sockets && w.clients == s.clients && w.server == s.server && w.sockets.Keys == s.sockets.Keys
    && (forall i | i in s.sockets && i != k :: w.sockets[i] == s.sockets[i])
    && w.sockets[k].client == s.sockets[k].client && w.sockets[k].up == s.sockets[k].up
    && w.sockets[k].joined == s.sockets[k].joined && s.sockets[k].missed <= w.sockets[k].missed
    && (w.sockets[k].live ==> s.sockets[k].live)
    && (forall d, i | Current(s, d, i) && i != k && d in s.members && s.members[d] == i ::
          d in w.members && w.members[d] == i)
  }

  lemma SocketStepOk(s: State, w: State, k: Id)
    requires Good(s) && OnlySocket(s, w, k) && SocketOk(w, k)
    requires forall c, i | c in s.clients && i in s.sockets && i != k && s.sockets[i].live
               && c in s.members && s.members[c] == i && Current(s, c, i) :: StillReaches(s, w, c, i)
    requires forall c | Current(s, c, k) && w.sockets[k].live && LinkOk(s, c, k) :: LinkOk(w, c, k)
    ensures Good(w)
  {
    hide LinkOk, SocketOk, StillReaches;
    Homes(s);
    forall i | i in w.sockets ensures SocketOk(w, i) { if i != k { SocketKept(s, w, i); } }
    forall d | d in w.clients ensures ClientOk(w, d) {
      assert ClientOk(s, d);
      if !Current(s, d, k) {
        if s.clients[d].conn.Some? {
          assert Current(s, d, s.clients[d].conn.value);
          LinkJoined(s, d, s.clients[d].conn.value);
        }
        ServerKept(s, w, d);
      }
    }
  }

  lemma LinkJoined(s: State, c: Id, k: Id)
    requires c in s.clients && k in s.sockets
    ensures LinkOk(s, c, k) && !Joining(s.sockets[k]) ==> c in s.members && s.members[c] == k
  {
  }

  lemma GreetOk(s: State, k: Id)
    requires Good(s) && May(s, Greet(k))
    ensures Good(Step(s, Greet(k)))
  {
    hide LinkOk, StillReaches, SocketOk;
    var w := Step(s, Greet(k));
    EnqueueSocket(s, k, Welcome);
    GreetSocket(s, k);
    forall c, i | c in s.clients && i in s.sockets && i != k ensures StillReaches(s, w, c, i) {
      SilentReaches(s, w, k, c, i);
    }
    forall c | Current(s, c, k) && w.sockets[k].live && LinkOk(s, c, k) ensures LinkOk(w, c, k) { GreetLink(s, c, k); }
    SocketStepOk(s, w, k);
  }

  lemma GreetSocket(s: State, k: Id)
    requires May(s, Greet(k)) && SocketOk(Put(s, k, Enqueue(s.sockets[k], Welcome)), k)
    ensures SocketOk(Step(s, Greet(k)), k)
  {
  }

  lemma GreetLink(s: State, c: Id, k: Id)
    requires May(s, Greet(k)) && Current(s, c, k) && s.sockets[k].live && LinkOk(s, c, k)
    ensures LinkOk(Step(s, Greet(k)), c, k)
  {
    assert Welcome in Step(s, Greet(k)).sockets[k].down;
  }

  /** A handler that owes nothing may change. */
  lemma SilentReaches(s: State, w: State, k: Id, c: Id, i: Id)
    requires OnlySocket(s, w, k) && i in s.sockets && i != k
    requires forall op :: !Owes(s.sockets[k], op, c, i)
    ensures StillReaches(s, w, c, i)
  {
    if c in s.clients {
      forall op | op in w.server && Reaches(s, c, i, op) ensures Reaches(w, c, i, op) {
        if h :| h in s.sockets && Owes(s.sockets[h], op, c, i) { assert Owes(w.sockets[h], op, c, i); }
      }
    }
  }

  /** A broadcast goes to the socket of every connected user but its author. */
  lemma RelayReaches(s: State, k: Id, c: Id, i: Id)
    requires May(s, Relay(k)) && SocketOk(s, k) && i in s.sockets && i != k
    requires c in s.members && s.members[c] == i
    ensures StillReaches(s, RelayStep(s, k), c, i)
  {
    var w := RelayStep(s, k);
    if c in s.clients {
      forall op | op in w.server && Reaches(s, c, i, op) ensures Reaches(w, c, i, op) {
        if h :| h in s.sockets && Owes(s.sockets[h], op, c, i) {
          if h == k {
            assert (s.members - {s.sockets[k].client})[c] == i;
            assert i in Others(s.members, s.sockets[k].client) && op in s.server - s.sockets[k].handler.before;
          }
          assert Owes(w.sockets[h], op, c, i);
        }
      }
    }
  }

  lemma RelayOk(s: State, k: Id)
    requires Good(s) && May(s, Relay(k))
    ensures Good(RelayStep(s, k))
  {
    var w := RelayStep(s, k);
    assert SocketOk(s, k);
    forall c, i | c in s.clients && i in s.sockets && i != k && c in s.members && s.members[c] == i
      ensures StillReaches(s, w, c, i)
    {
      RelayReaches(s, k, c, i);
    }
    OwnLink(s, w, k);
    SocketStepOk(s, w, k);
  }

  /** What socket k's own handler does next is nothing to its own client. */
  lemma OwnLink(s: State, w: State, k: Id)
    requires OnlySocket(s, w, k) && w.sockets[k].down == s.sockets[k].down && w.members == s.members
    requires s.sockets[k].handler != Welcoming
    ensures forall c | Current(s, c, k) && s.sockets[k].client == c && LinkOk(s, c, k) :: LinkOk(w, c, k)
  {
    forall c | Current(s, c, k) && s.sockets[k].client == c && LinkOk(s, c, k) ensures LinkOk(w, c, k) {
      forall op | op in s.server && Reaches(s, c, k, op) ensures Reaches(w, c, k, op) {
        if h :| h in s.sockets && Owes(s.sockets[h], op, c, k) { assert Owes(w.sockets[h], op, c, k); }
      }
    }
  }

  /** More may come down a socket, and its handler may go on. */
  lemma LinkGrows(s: State, w: State, c: Id, i: Id)
    requires c in s.clients && i in s.sockets && i in w.sockets && LinkOk(s, c, i)
    requires w.clients == s.clients && w.members == s.members && w.server == s.server
    requires w.sockets[i].up == s.sockets[i].up && w.sockets[i].joined == s.sockets[i].joined
    requires Joining(s.sockets[i]) ==> Joining(w.sockets[i])
    requires forall op :: Asks(s.sockets[i].down, op) ==> Asks(w.sockets[i].down, op)
    requires StillReaches(s, w, c, i)
    ensures LinkOk(w, c, i)
  {
  }

  lemma SendReaches(s: State, k: Id, target: Id, c: Id, i: Id)
    requires May(s, Send(k, target)) && SocketOk(s, k) && i in s.sockets && s.sockets[i].live
    ensures StillReaches(s, SendStep(s, k, target), c, i)
  {
    var w := SendStep(s, k, target);
    if c in s.clients {
      GivenAppend(s.sockets[i].down, Give(s.sockets[k].handler.update));
      forall op | op in w.server && Reaches(s, c, i, op) ensures Reaches(w, c, i, op) {
        if h :| h in s.sockets && Owes(s.sockets[h], op, c, i) {
          assert (h == k && i == target && op in Given(w.sockets[i].down)) || Owes(w.sockets[h], op, c, i);
        }
      }
    }
  }

  lemma SendSocket(s: State, k: Id, target: Id, i: Id)
    requires May(s, Send(k, target)) && i in s.sockets && SocketOk(s, i) && SocketOk(s, k)
    ensures SocketOk(SendStep(s, k, target), i)
  {
    GivenAppend(s.sockets[i].down, Give(s.sockets[k].handler.update));
  }

  lemma SendEffect(s: State, k: Id, target: Id, i: Id)
    requires May(s, Send(k, target)) && i in s.sockets
    ensures var w := SendStep(s, k, target);
            && w.clients == s.clients && w.members == s.members && w.server == s.server
            && w.sockets.Keys == s.sockets.Keys
            && w.sockets[i].up == s.sockets[i].up && w.sockets[i].joined == s.sockets[i].joined
            && w.sockets[i].client == s.sockets[i].client && w.sockets[i].live == s.sockets[i].live
            && (Joining(s.sockets[i]) ==> Joining(w.sockets[i]))
            && (forall op :: Asks(s.sockets[i].down, op) ==> Asks(w.sockets[i].down, op))
  {
    forall op ensures Asks(s.sockets[i].down, op) ==> Asks(SendStep(s, k, target).sockets[i].down, op) {
      AsksAppend(s.sockets[i].down, Give(s.sockets[k].handler.update), op);
    }
  }

  lemma SendOk(s: State, k: Id, target: Id)
    requires Good(s) && May(s, Send(k, target))
    ensures Good(SendStep(s, k, target))
  {
    hide LinkOk, SocketOk, SendStep, StillReaches;
    var w := SendStep(s, k, target);
    SendEffect(s, k, target, k);
    forall i | i in w.sockets ensures SocketOk(w, i) { SendSocket(s, k, target, i); }
    forall d | d in w.clients ensures ClientOk(w, d) {
      assert ClientOk(s, d);
      if s.clients[d].conn.Some? {
        var i := s.clients[d].conn.value;
        SendEffect(s, k, target, i);
        if s.sockets[i].live { SendReaches(s, k, target, d, i); LinkGrows(s, w, d, i); }
      }
    }
  }

  lemma FinishOk(s: State, k: Id)
    requires Good(s) && May(s, Finish(k))
    ensures Good(Step(s, Finish(k)))
  {
    var w := Step(s, Finish(k));
    assert SocketOk(s, k);
    forall c, i | c in s.clients && i in s.sockets && i != k ensures StillReaches(s, w, c, i) {
      SilentReaches(s, w, k, c, i);
    }
    OwnLink(s, w, k);
    SocketStepOk(s, w, k);
  }

  lemma EndOk(s: State, k: Id)
    requires Good(s) && May(s, End(k))
    ensures Good(Step(s, End(k)))
  {
    hide LinkOk, StillReaches, Good, SocketOk;
    var w := Step(s, End(k));
    EndOnly(s, k);
    OneSocketOk(s, k);
    ShutSocket(s, w, k);
    forall c, i | c in s.clients && i in s.sockets && i != k ensures StillReaches(s, w, c, i) {
      SilentReaches(s, w, k, c, i);
    }
    SocketStepOk(s, w, k);
  }

  lemma OneSocketOk(s: State, k: Id)
    requires Good(s) && k in s.sockets
    ensures SocketOk(s, k)
  {
  }

  lemma EndOnly(s: State, k: Id)
    requires May(s, End(k))
    ensures OnlySocket(s, Step(s, End(k)), k) && !Step(s, End(k)).sockets[k].live
  {
  }

  lemma ShutSocket(s: State, w: State, k: Id)
    requires k in s.sockets && SocketOk(s, k) && s.sockets[k].handler == Idle && w.clients == s.clients
    requires w.server == s.server
    requires k in w.sockets && w.sockets[k] == s.sockets[k].(live := false)
    ensures SocketOk(w, k)
  {
  }

  lemma DieReaches(s: State, k: Id, c: Id, i: Id)
    requires May(s, Die(k)) && i in s.sockets && s.sockets[i].client == c
    ensures StillReaches(s, DieStep(s, k), c, i)
  {
    var w := DieStep(s, k);
    if c in s.clients {
      forall op | op in w.server && Reaches(s, c, i, op) ensures Reaches(w, c, i, op) {
        if h :| h in s.sockets && Owes(s.sockets[h], op, c, i) {
          assert (h == k && op in w.sockets[i].missed) || Owes(w.sockets[h], op, c, i);
        }
      }
    }
  }

  lemma DieOk(s: State, k: Id)
    requires Good(s) && May(s, Die(k))
    ensures Good(DieStep(s, k))
  {
    hide LinkOk, SocketOk, StillReaches;
    var w := DieStep(s, k);
    Homes(s);
    forall i | i in w.sockets ensures SocketOk(w, i) {
      assert SocketOk(s, i);
      if i != k { SocketKept(s, w, i); } else { DeadSocket(s, k); }
    }
    forall d | d in w.clients ensures ClientOk(w, d) {
      assert ClientOk(s, d);
      if s.clients[d].conn.Some? && s.clients[d].conn.value != k {
        DieReaches(s, k, d, s.clients[d].conn.value);
        ServerKept(s, w, d);
      }
    }
  }

  lemma DeadSocket(s: State, k: Id)
    requires k in s.sockets && SocketOk(s, k)
    ensures SocketOk(DieStep(s, k), k)
  {
  }

  // ------------------------------------------------------------------
  // Runs
  // ------------------------------------------------------------------

  lemma StepOk(s: State, e: Event)
    requires Good(s) && May(s, e)
    ensures Good(Step(s, e))
  {
    hide Good;
    match e
    case Open(c) => OpenOk(s, c);
    case Connect(c, k) => ConnectOk(s, c, k);
    case Disconnect(c) => DisconnectOk(s, c);
    case LoseUp(k, n) => LoseUpOk(s, k, n);
    case Make(c) => MakeOk(s, c);
    case Edit(c, op) => EditOk(s, c, op);
    case Receive(k) => ReceiveOk(s, k);
    case Greet(k) => GreetOk(s, k);
    case Relay(k) => RelayOk(s, k);
    case Send(k, target) => SendOk(s, k, target);
    case Finish(k) => FinishOk(s, k);
    case Die(k) => DieOk(s, k);
    case End(k) => EndOk(s, k);
    case Hear(k) => HearOk(s, k);
  }

  lemma {:induction false} RunOk(s: State, es: seq<Event>)
    requires Good(s) && Legal(s, es)
    ensures Good(After(s, es))
    decreases |es|
  {
    hide Good, Step, May;
    if es == [] {
    } else {
      StepOk(s, es[0]);
      RunOk(Step(s, es[0]), es[1..]);
    }
  }

  lemma StartGood(s: State)
    requires s == START
    ensures Good(s)
  {
  }

  // ------------------------------------------------------------------
  // Results
  // ------------------------------------------------------------------

  /** No frame and no handler is pending. */
  ghost predicate AtRest(s: State) {
    forall k | k in s.sockets && s.sockets[k].live ::
      s.sockets[k].up == [] && s.sockets[k].down == [] && s.sockets[k].handler == Idle
  }

  /**
   Convergence: after any run of edits, disconnects, offline work, lost frames, resyncs and
   documents opened late, once nothing is pending every connected replica holds nothing the
   server lacks, and lacks at most what died with a handler since it last synced.
   */
  lemma Converges(s: State, es: seq<Event>, c: Id, k: Id)
    requires s == START && Legal(s, es) && AtRest(After(s, es))
    requires Current(After(s, es), c, k) && k in After(s, es).sockets && After(s, es).sockets[k].live
    ensures var w := After(s, es);
            && w.clients[c].ops <= w.server
            && (w.clients[c].made ==> w.server - w.clients[c].ops <= w.sockets[k].missed)
            && c in w.members && w.members[c] == k
  {
    hide Legal, After, SocketOk;
    RunOk(s, es);
    var w := After(s, es);
    assert ClientOk(w, c);
    RestReaches(w, c, k);
  }

  lemma RestReaches(s: State, c: Id, k: Id)
    requires Good(s) && AtRest(s) && Current(s, c, k) && k in s.sockets && s.sockets[k].live && LinkOk(s, c, k)
    ensures s.clients[c].ops <= s.server
    ensures s.clients[c].made ==> s.server - s.clients[c].ops <= s.sockets[k].missed
    ensures c in s.members && s.members[c] == k
  {
    forall op | op in s.server && s.clients[c].made ensures op in s.clients[c].ops || op in s.sockets[k].missed {
      assert Reaches(s, c, k, op);
      assert forall h | h in s.sockets :: SocketOk(s, h);
    }
    forall op | op in s.clients[c].ops ensures op in s.server { assert Offered(s, k, op); }
  }

  ghost predicate NobodyDies(es: seq<Event>) { forall e | e in es :: !e.Die? }

  /** A step that is no death adds nothing to what any socket missed. */
  lemma StepMisses(s: State, e: Event, k: Id)
    requires May(s, e) && !e.Die? && k in s.sockets && s.sockets[k].missed == {}
    ensures k in Step(s, e).sockets && Step(s, e).sockets[k].missed == {}
  {
  }

  lemma {:induction false} NothingMissed(s: State, es: seq<Event>, k: Id)
    requires Legal(s, es) && NobodyDies(es)
    requires k in s.sockets ==> s.sockets[k].missed == {}
    ensures k in After(s, es).sockets ==> After(s, es).sockets[k].missed == {}
    decreases |es|
  {
    hide Step, May;
    if es == [] {
    } else {
      assert es[0] in es;
      if k in s.sockets { StepMisses(s, es[0], k); } else { NewMisses(s, es[0], k); }
      NothingMissed(Step(s, es[0]), es[1..], k);
    }
  }

  lemma NewMisses(s: State, e: Event, k: Id)
    requires May(s, e) && k !in s.sockets
    ensures k in Step(s, e).sockets ==> Step(s, e).sockets[k].missed == {}
  {
  }

  /** If no handler dies between applying and relaying, all connected replicas equal the server's. */
  lemma ConvergesExactly(s: State, es: seq<Event>, c: Id, k: Id)
    requires s == START && Legal(s, es) && NobodyDies(es) && AtRest(After(s, es))
    requires Current(After(s, es), c, k) && k in After(s, es).sockets && After(s, es).sockets[k].live
    requires After(s, es).clients[c].made
    ensures After(s, es).clients[c].ops == After(s, es).server
  {
    hide Legal, After, AtRest;
    Converges(s, es, c, k);
    NothingMissed(s, es, k);
    SameSets(After(s, es).clients[c].ops, After(s, es).server);
  }

  lemma SameSets(a: set<Op>, b: set<Op>)
    requires a <= b && b - a <= {}
    ensures a == b
  {
    assert forall op | op in b :: op !in a ==> op in b - a;
  }

  /**
   More: a replica equals the server's at rest if no handler died since its last SYNC_STEP1
   was answered, whatever died before.
   */
  lemma ConvergesSinceSync(s: State, es: seq<Event>, fs: seq<Event>, c: Id, k: Id)
    requires s == START && Legal(s, es) && May(After(s, es), Receive(k)) && After(s, es).sockets[k].up[0].Want?
    requires Legal(Step(After(s, es), Receive(k)), fs) && NobodyDies(fs)
    requires var w := After(Step(After(s, es), Receive(k)), fs);
             AtRest(w) && Current(w, c, k) && k in w.sockets && w.sockets[k].live && w.clients[c].made
    ensures var w := After(Step(After(s, es), Receive(k)), fs); w.clients[c].ops == w.server
  {
    hide Legal, After, AtRest, Good, Step, May;
    StartGood(s);
    var m := Step(After(s, es), Receive(k));
    RunOk(s, es);
    StepOk(After(s, es), Receive(k));
    RunOk(m, fs);
    AnsweredMisses(After(s, es), k);
    NothingMissed(m, fs, k);
    var w := After(m, fs);
    LinkOf(w, c, k);
    RestReaches(w, c, k);
    SameSets(w.clients[c].ops, w.server);
  }

  lemma AnsweredMisses(s: State, k: Id)
    requires May(s, Receive(k)) && s.sockets[k].up[0].Want?
    ensures k in Step(s, Receive(k)).sockets && Step(s, Receive(k)).sockets[k].missed == {}
  {
  }

  lemma LinkOf(s: State, c: Id, k: Id)
    requires Good(s) && Current(s, c, k) && k in s.sockets && s.sockets[k].live
    ensures LinkOk(s, c, k)
  {
    assert ClientOk(s, c);
  }

  /**
   The death of a handler is the only way to fall behind, and a real one: from any state at
   rest, an edit whose handler dies before relaying leaves every other replica without it.
   */
  lemma DeathDiverges(s: State, c: Id, k: Id, d: Id, i: Id, op: Op)
    requires Good(s) && AtRest(s) && op !in s.server && c != d
    requires Current(s, c, k) && k in s.sockets && s.sockets[k].live && s.clients[c].made
    requires Current(s, d, i) && i in s.sockets && s.sockets[i].live
    ensures var es := [Edit(c, op), Receive(k), Die(k)];
            && Legal(s, es) && AtRest(After(s, es))
            && Current(After(s, es), d, i) && i in After(s, es).sockets && After(s, es).sockets[i].live
            && op in After(s, es).server && op !in After(s, es).clients[d].ops && op in After(s, es).sockets[i].missed
  {
    hide Good, AtRest, Step, May;
    DyingSteps(s, c, k, d, i, op);
    ThreeSteps(s, Edit(c, op), Receive(k), Die(k));
  }

  lemma DyingSteps(s: State, c: Id, k: Id, d: Id, i: Id, op: Op)
    requires Good(s) && AtRest(s) && op !in s.server && c != d
    requires Current(s, c, k) && k in s.sockets && s.sockets[k].live && s.clients[c].made
    requires Current(s, d, i) && i in s.sockets && s.sockets[i].live
    ensures && May(s, Edit(c, op)) && var s1 := Step(s, Edit(c, op));
            && May(s1, Receive(k)) && var s2 := Step(s1, Receive(k));
            && May(s2, Die(k)) && var w := Step(s2, Die(k));
            && AtRest(w) && Current(w, d, i) && i in w.sockets && w.sockets[i].live
            && op in w.server && op !in w.clients[d].ops && op in w.sockets[i].missed
  {
    assert ClientOk(s, c) && ClientOk(s, d);
    RestReaches(s, c, k); RestReaches(s, d, i);
    var s1 := Step(s, Edit(c, op));
    assert s1.sockets[k].up == [Push({op})];
    assert Step(s1, Receive(k)).sockets[k].handler == Relaying(s.server, {op});
  }

  lemma ThreeSteps(s: State, e1: Event, e2: Event, e3: Event)
    requires May(s, e1) && May(Step(s, e1), e2) && May(Step(Step(s, e1), e2), e3)
    ensures Legal(s, [e1, e2, e3]) && After(s, [e1, e2, e3]) == Step(Step(Step(s, e1), e2), e3)
  {
    hide May, Step;
    OneStep(Step(Step(s, e1), e2), e3, []);
    OneStep(Step(s, e1), e2, [e3]);
    OneStep(s, e1, [e2, e3]);
    assert [e2] + [e3] == [e2, e3] && [e1] + [e2, e3] == [e1, e2, e3] && [e3] + [] == [e3];
  }

  lemma OneStep(s: State, e: Event, es: seq<Event>)
    requires May(s, e) && Legal(Step(s, e), es)
    ensures Legal(s, [e] + es) && After(s, [e] + es) == After(Step(s, e), es)
  {
    hide May, Step;
    assert ([e] + es)[0] == e && ([e] + es)[1..] == es;
  }

  /**
   What is exchanged is what the other side lacks: the answer to a SYNC_STEP1 shares nothing with what
   the asker has and completes it, on either side; and what is relayed is what the server has gained since
   the frame arrived, to the sockets of all connected users but its author.
   */
  lemma OnlyWhatIsMissing(s: State, e: Event)
    requires May(s, e)
    ensures e.Receive? && s.sockets[e.k].up[0].Want? ==>
              var have, down := s.sockets[e.k].up[0].have, s.sockets[e.k].down;
              exists g: set<Op> ::
                && Step(s, e).sockets[e.k].down == down + [Give(g)] && g !! have && g <= s.server <= have + g
    ensures e.Receive? && (s.sockets[e.k].up[0].Want? || s.sockets[e.k].up[0].Push?) ==>
              var h := Step(s, e).sockets[e.k].handler; h.Relaying? && h.before == s.server
    ensures e.Hear? && s.sockets[e.k].down[0].Ask? && s.sockets[e.k].client in s.clients ==>
              var have, up, c := s.sockets[e.k].down[0].have, s.sockets[e.k].up, s.clients[s.sockets[e.k].client];
              if !c.made then Step(s, e).sockets[e.k].up == up
              else exists p: set<Op> ::
                     Step(s, e).sockets[e.k].up == up + [Push(p)] && p !! have && p <= c.ops <= have + p
    ensures e.Relay? ==>
              var h, w, author := s.sockets[e.k].handler, Step(s, e).sockets[e.k].handler, s.sockets[e.k].client;
              if s.server <= h.before then w == Idle
              else w.Sending? && w.update !! h.before && w.update <= s.server <= h.before + w.update
                   && w.targets == set d | d in s.members && d != author :: s.members[d]
  {
    if e.Receive? && s.sockets[e.k].up[0].Want? {
      var g := s.server - s.sockets[e.k].up[0].have;
      assert Step(s, e).sockets[e.k].down == s.sockets[e.k].down + [Give(g)];
    } else if e.Hear? && s.sockets[e.k].down[0].Ask? && s.sockets[e.k].client in s.clients {
      var p := s.clients[s.sockets[e.k].client].ops - s.sockets[e.k].down[0].have;
      assert Step(s, e).sockets[e.k].up ==
             s.sockets[e.k].up + if s.clients[s.sockets[e.k].client].made then [Push(p)] else [];
    } else if e.Relay? {
      OthersAre(s.members, s.sockets[e.k].client);
      var before := s.sockets[e.k].handler.before;
      assert s.server - before == {} <==> s.server <= before by {
        assert forall op | op in s.server && op !in before :: op in s.server - before;
      }
    }
  }

  lemma OthersAre(members: map<Id, Id>, c: Id)
    ensures Others(members, c) == set d | d in members && d != c :: members[d]
  {
    forall k | k in (members - {c}).Values ensures exists d :: d in members && d != c && members[d] == k {
      var d :| d in members - {c} && (members - {c})[d] == k;
    }
    forall d | d in members && d != c ensures members[d] in (members - {c}).Values {
      assert d in members - {c} && (members - {c})[d] == members[d];
    }
  }

  /**
   Nothing is lost on the way: in every reachable state, over every socket in use, each operation
   the browser holds is on the server, on its way there, asked for, or about to be offered when the
   join is answered; and each operation the server holds is, if the browser has opened the document,
   in its replica, on its way there, still to be relayed by a handler, about to be asked for, or known
   to have died with one.
   */
  lemma NothingLost(s: State, es: seq<Event>, c: Id, k: Id)
    requires s == START && Legal(s, es)
    requires Current(After(s, es), c, k) && k in After(s, es).sockets && After(s, es).sockets[k].live
    ensures var w := After(s, es);
            var x := w.sockets[k];
            && (forall op | op in w.clients[c].ops :: Joining(x) || Subscribe in x.up || Offered(w, k, op))
            && (w.clients[c].made ==>
                  forall op | op in w.server :: Joining(x) || Wants(x.up) || Reaches(w, c, k, op))
  {
    hide Good, Legal, After;
    StartGood(s);
    RunOk(s, es);
    LinkOf(After(s, es), c, k);
  }
}
