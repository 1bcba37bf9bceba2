/** Left to itself the relay comes to rest: handling what is pending ends, and leaves replicas equal. */
module RelaySettles {
  import opened Basics
  import opened MapSums
  import opened Relay
  import opened RelayProofs

  /** Handling what is pending: frames are taken, answered and relayed, or sessions end. */
  predicate IsHandling(e: Event) {
    e.Receive? || e.Greet? || e.Relay? || e.Send? || e.Finish? || e.Die? || e.End? || e.Hear?
  }

  /** Nothing new comes up: nobody edits, opens a document or connects. */
  predicate IsQuiet(e: Event) { IsHandling(e) || e.Disconnect? || e.LoseUp? }

  // ------------------------------------------------------------------
  // A measure: how much handling the queues and handlers can still cause among n sockets
  // ------------------------------------------------------------------

  function UpWeight(f: Up, n: nat): nat {
    match f case Hello => 4 * n + 13 case Subscribe => 2 * n + 5 case Want(_) => 2 * n + 5 case Push(_) => 2 * n + 3
  }

  function DownWeight(f: Down, n: nat): nat {
    match f case Welcome => 4 * n + 11 case Ask(_) => 2 * n + 4 case Give(_) => 1
  }

  function HandlerWeight(h: Handler, n: nat): nat {
    match h
    case Idle => 0
    case Welcoming => 4 * n + 12
    case Relaying(_, _) => 2 * n + 2
    case Sending(_, _, targets) => 2 * |targets| + 1
  }

  function UpLoad(up: seq<Up>, n: nat): nat { if up == [] then 0 else UpWeight(up[0], n) + UpLoad(up[1..], n) }

  function DownLoad(down: seq<Down>, n: nat): nat {
    if down == [] then 0 else DownWeight(down[0], n) + DownLoad(down[1..], n)
  }

  function SocketLoad(x: Socket, n: nat): nat {
    UpLoad(x.up, n) + DownLoad(x.down, n) + HandlerWeight(x.handler, n) + if x.live then 1 else 0
  }

  function Loads(sockets: map<Id, Socket>, n: nat): map<Id, nat> {
    map k | k in sockets :: SocketLoad(sockets[k], n)
  }

  ghost function Load(s: State): nat { Sum(Loads(s.sockets, |s.sockets|)) }

  lemma {:induction false} UpLoadAppend(up: seq<Up>, f: Up, n: nat)
    ensures UpLoad(up + [f], n) == UpLoad(up, n) + UpWeight(f, n)
  {
    if up == [] {
    } else {
      assert (up + [f])[1..] == up[1..] + [f];
      UpLoadAppend(up[1..], f, n);
    }
  }

  lemma {:induction false} DownLoadAppend(down: seq<Down>, f: Down, n: nat)
    ensures DownLoad(down + [f], n) == DownLoad(down, n) + DownWeight(f, n)
  {
    if down == [] {
    } else {
      assert (down + [f])[1..] == down[1..] + [f];
      DownLoadAppend(down[1..], f, n);
    }
  }

  lemma {:induction false} UpLoadPrefix(up: seq<Up>, i: nat, n: nat)
    requires i <= |up|
    ensures UpLoad(up[..i], n) <= UpLoad(up, n)
  {
    if i == 0 {
    } else {
      assert up[..i][1..] == up[1..][..i - 1];
      UpLoadPrefix(up[1..], i - 1, n);
    }
  }

  /** Every connected user is bound to a socket of its own whose session the server runs. */
  predicate Homed(s: State) {
    forall c | c in s.members ::
      && s.members[c] in s.sockets && s.sockets[s.members[c]].client == c
      && s.sockets[s.members[c]].live && s.sockets[s.members[c]].joined
  }

  lemma StepHomed(s: State, e: Event)
    requires Homed(s) && May(s, e)
    ensures Homed(Step(s, e))
  {
    hide ReceiveStep, HearStep, SendStep, DieStep, MakeStep, EditStep;
    match e
    case Receive(k) => ReceiveHomed(s, k);
    case Hear(k) => HearHomed(s, k);
    case Send(k, target) => SendHomed(s, k, target);
    case Die(k) => DieHomed(s, k);
    case Make(c) => BrowserHomed(s, c, 0);
    case Edit(c, op) => BrowserHomed(s, c, op);
    case _ =>
  }

  lemma ReceiveHomed(s: State, k: Id)
    requires Homed(s) && May(s, Receive(k))
    ensures Homed(ReceiveStep(s, k))
  {
  }

  lemma HearHomed(s: State, k: Id)
    requires Homed(s) && May(s, Hear(k))
    ensures Homed(HearStep(s, k))
  {
  }

  lemma SendHomed(s: State, k: Id, target: Id)
    requires Homed(s) && May(s, Send(k, target))
    ensures Homed(SendStep(s, k, target))
  {
  }

  lemma DieHomed(s: State, k: Id)
    requires Homed(s) && May(s, Die(k))
    ensures Homed(DieStep(s, k))
  {
  }

  lemma BrowserHomed(s: State, c: Id, op: Op)
    requires Homed(s) && c in s.clients
    ensures Homed(MakeStep(s, c)) && Homed(EditStep(s, c, op))
  {
  }

  lemma {:induction false} SubsetSize(a: set<Id>, b: set<Id>)
    requires a <= b
    ensures |a| <= |b|
  {
    if a == {} {
    } else {
      var x :| x in a;
      SubsetSize(a - {x}, b - {x});
    }
  }

  /** One socket's load goes down, or stays, and with it the whole. */
  lemma OneLighter(s: State, w: State, k: Id)
    requires k in s.sockets && w.sockets.Keys == s.sockets.Keys
    requires forall i | i in s.sockets && i != k ::
               SocketLoad(w.sockets[i], |s.sockets|) == SocketLoad(s.sockets[i], |s.sockets|)
    ensures Load(w) == Load(s) - SocketLoad(s.sockets[k], |s.sockets|) + SocketLoad(w.sockets[k], |s.sockets|)
  {
    var n := |s.sockets|;
    SameSize(s.sockets, w.sockets);
    assert Loads(w.sockets, n) == Loads(s.sockets, n)[k := SocketLoad(w.sockets[k], n)];
    SumPut(Loads(s.sockets, n), k, SocketLoad(w.sockets[k], n));
  }

  lemma SameSize(a: map<Id, Socket>, b: map<Id, Socket>)
    requires a.Keys == b.Keys
    ensures |a| == |b|
  {
    assert |a| == |a.Keys| && |b| == |b.Keys|;
  }

  lemma ReceiveLighter(s: State, k: Id)
    requires May(s, Receive(k))
    ensures Load(ReceiveStep(s, k)) < Load(s)
  {
    hide Load;
    var x, n := s.sockets[k], |s.sockets|;
    DownLoadAppend(x.down, Ask(s.server), n);
    if x.up[0].Want? { DownLoadAppend(x.down, Give(s.server - x.up[0].have), n); }
    OneLighter(s, ReceiveStep(s, k), k);
  }

  /** A broadcast reaches no more sockets than there are. */
  lemma OthersFew(s: State, c: Id)
    requires Homed(s)
    ensures |Others(s.members, c)| <= |s.sockets|
  {
    SubsetSize(Others(s.members, c), s.sockets.Keys);
    assert |s.sockets| == |s.sockets.Keys|;
  }

  lemma RelayLighter(s: State, k: Id)
    requires May(s, Relay(k)) && Homed(s)
    ensures Load(RelayStep(s, k)) < Load(s)
  {
    hide Load, Others, Homed;
    OthersFew(s, s.sockets[k].client);
    OneLighter(s, RelayStep(s, k), k);
  }

  lemma SendLighter(s: State, k: Id, target: Id)
    requires May(s, Send(k, target))
    ensures Load(SendStep(s, k, target)) < Load(s)
  {
    hide Load, SocketLoad, SendStep, May;
    var m := Sent(s, k, target);
    SentLighter(s, k, target);
    SendSplit(s, k, target);
    if target in m.sockets { ArrivedHeavier(m, target, Give(s.sockets[k].handler.update)); }
  }

  function Sent(s: State, k: Id, target: Id): State
    requires May(s, Send(k, target))
  {
    var x := s.sockets[k];
    Put(s, k, x.(handler := x.handler.(targets := x.handler.targets - {target})))
  }

  lemma SendSplit(s: State, k: Id, target: Id)
    requires May(s, Send(k, target))
    ensures k in s.sockets && s.sockets[k].handler.Sending?
    ensures var m := Sent(s, k, target);
            SendStep(s, k, target) ==
            if target in m.sockets
            then Put(m, target, Enqueue(m.sockets[target], Give(s.sockets[k].handler.update))) else m
  {
  }

  lemma SentLighter(s: State, k: Id, target: Id)
    requires May(s, Send(k, target))
    ensures Load(Sent(s, k, target)) + 2 <= Load(s)
  {
    hide Load;
    OneLighter(s, Sent(s, k, target), k);
  }

  lemma ArrivedHeavier(s: State, k: Id, f: Down)
    requires k in s.sockets && f.Give?
    ensures Load(Put(s, k, Enqueue(s.sockets[k], f))) <= Load(s) + 1
  {
    hide Load;
    DownLoadAppend(s.sockets[k].down, f, |s.sockets|);
    OneLighter(s, Put(s, k, Enqueue(s.sockets[k], f)), k);
  }

  lemma HearLighter(s: State, k: Id)
    requires May(s, Hear(k))
    ensures Load(HearStep(s, k)) < Load(s)
  {
    hide Load, SocketLoad;
    HeardLighter(s, k);
    OneLighter(s, HearStep(s, k), k);
  }

  lemma HeardLighter(s: State, k: Id)
    requires May(s, Hear(k)) && s.sockets[k].client in s.clients
    ensures var n := |s.sockets|; SocketLoad(HearStep(s, k).sockets[k], n) < SocketLoad(s.sockets[k], n)
  {
    var x, n, ops := s.sockets[k], |s.sockets|, s.clients[s.sockets[k].client].ops;
    match x.down[0]
    case Welcome =>
      UpLoadAppend(x.up, Subscribe, n); UpLoadAppend(x.up + [Subscribe], Want(ops), n);
      assert x.up + [Subscribe] + [Want(ops)] == x.up + [Subscribe, Want(ops)];
    case Ask(have) => UpLoadAppend(x.up, Push(ops - have), n);
    case Give(_) =>
  }

  lemma GreetLighter(s: State, k: Id)
    requires May(s, Greet(k))
    ensures Load(Step(s, Greet(k))) < Load(s)
  {
    hide Load;
    DownLoadAppend(s.sockets[k].down, Welcome, |s.sockets|);
    OneLighter(s, Step(s, Greet(k)), k);
  }

  lemma HandlerLighter(s: State, e: Event)
    requires May(s, e) && (e.Finish? || e.Die? || e.End?)
    ensures Load(Step(s, e)) < Load(s)
  {
    hide Load;
    OneLighter(s, Step(s, e), e.k);
  }

  lemma SameLoad(s: State, w: State)
    requires w.sockets == s.sockets
    ensures Load(w) == Load(s)
  {
  }

  lemma StepLighter(s: State, e: Event)
    requires May(s, e) && Homed(s) && IsQuiet(e)
    ensures Load(Step(s, e)) + (if IsHandling(e) then 1 else 0) <= Load(s)
  {
    hide Load;
    match e
    case Receive(k) => ReceiveLighter(s, k);
    case Greet(k) => GreetLighter(s, k);
    case Relay(k) => RelayLighter(s, k);
    case Send(k, target) => SendLighter(s, k, target);
    case Hear(k) => HearLighter(s, k);
    case LoseUp(k, i) => UpLoadPrefix(s.sockets[k].up, i, |s.sockets|); OneLighter(s, Step(s, e), k);
    case Disconnect(_) => SameLoad(s, Step(s, e));
    case _ => HandlerLighter(s, e);
  }

  function Handlings(es: seq<Event>): nat {
    if es == [] then 0 else (if IsHandling(es[0]) then 1 else 0) + Handlings(es[1..])
  }

  // ------------------------------------------------------------------
  // Results
  // ------------------------------------------------------------------

  /** In every run a broadcast is addressed only to sockets that have joined and whose session is running. */
  lemma ConnectedAreLive(s: State, es: seq<Event>, c: Id)
    requires s == START && Legal(s, es) && c in After(s, es).members
    ensures var w := After(s, es);
            var k := w.members[c];
            k in w.sockets && w.sockets[k].client == c && w.sockets[k].live && w.sockets[k].joined
  {
    hide Legal, After;
    RunHomed(s, es);
  }

  /** While nobody edits, opens a document or connects, only so much is handled: the relay cannot chatter on. */
  lemma {:induction false} HandlingEnds(s: State, es: seq<Event>)
    requires Homed(s) && Legal(s, es) && forall e | e in es :: IsQuiet(e)
    ensures Handlings(es) + Load(After(s, es)) <= Load(s)
    decreases |es|
  {
    hide Load, Homed, Step, May;
    if es == [] {
    } else {
      assert es[0] in es;
      StepLighter(s, es[0]); StepHomed(s, es[0]);
      HandlingEnds(Step(s, es[0]), es[1..]);
    }
  }

  /** A step of handling that neither kills a handler nor ends the session of a browser's open socket. */
  predicate IsGentle(s: State, e: Event) {
    IsHandling(e) && !e.Die? && (e.End? && e.k in s.sockets ==> !Current(s, s.sockets[e.k].client, e.k))
  }

  ghost predicate Gently(s: State, es: seq<Event>)
    requires Legal(s, es)
    decreases |es|
  {
    es != [] ==> IsGentle(s, es[0]) && Gently(Step(s, es[0]), es[1..])
  }

  /** Socket k is open in browser c, and the server runs its session. */
  predicate Serves(s: State, c: Id, k: Id) {
    Current(s, c, k) && k in s.sockets && s.sockets[k].live && s.sockets[k].client == c
  }

  /** Connections, opened documents and everything anybody holds are still there. */
  ghost predicate Remain(s: State, w: State) {
    && Grows(s, w)
    && (forall c | c in s.clients :: w.clients[c].conn == s.clients[c].conn && w.clients[c].made == s.clients[c].made)
    && (forall c, k | Serves(s, c, k) :: Serves(w, c, k))
  }

  lemma GentleRemain(s: State, e: Event)
    requires Good(s) && May(s, e) && IsGentle(s, e)
    ensures Remain(s, Step(s, e))
  {
    hide ReceiveStep, HearStep, SendStep, Good;
    match e
    case Receive(k) => ReceiveEffect(s, k);
    case Hear(k) => Homes(s); HearEffect(s, k); HearConns(s, k);
    case Send(k, target) => forall i | i in s.sockets { SendEffect(s, k, target, i); } SendEffect(s, k, target, k);
    case _ =>
  }

  lemma HearConns(s: State, k: Id)
    requires k in s.sockets && s.sockets[k].down != [] && s.sockets[k].client in s.clients
    ensures forall c | c in s.clients :: HearStep(s, k).clients[c].conn == s.clients[c].conn
  {
  }

  /** Whatever is pending, something can be handled. */
  lemma SomethingToDo(s: State) returns (e: Event)
    requires Good(s) && !AtRest(s)
    ensures May(s, e) && IsGentle(s, e)
  {
    var k :| k in s.sockets && s.sockets[k].live
             && !(s.sockets[k].up == [] && s.sockets[k].down == [] && s.sockets[k].handler == Idle);
    var x := s.sockets[k];
    match x.handler
    case Welcoming => e := Greet(k);
    case Relaying(_, _) => e := Relay(k);
    case Sending(_, _, targets) =>
      if targets == {} { e := Finish(k); } else { var target :| target in targets; e := Send(k, target); }
    case Idle =>
      if !Current(s, x.client, k) { e := End(k); }
      else if x.up != [] { e := Receive(k); }
      else { e := Hear(k); }
  }

  /** So from any state that is reached, handling alone comes to rest, without a death or a connection lost. */
  lemma {:induction false} Settles(s: State) returns (es: seq<Event>)
    requires Good(s) && Homed(s)
    ensures Legal(s, es) && Gently(s, es) && NobodyDies(es)
    ensures AtRest(After(s, es)) && Remain(s, After(s, es)) && Good(After(s, es))
    decreases Load(s)
  {
    hide Good, Homed, Load, Step, May, Remain, AtRest, IsGentle, IsHandling;
    if AtRest(s) {
      es := [];
      RemainHere(s);
    } else {
      var e := SomethingToDo(s);
      var w := Step(s, e);
      GentleMeans(s, e);
      StepOk(s, e); StepHomed(s, e); StepLighter(s, e); GentleRemain(s, e);
      var rest := Settles(w);
      es := [e] + rest;
      assert es[0] == e && es[1..] == rest;
      RemainOn(s, w, After(w, rest));
    }
  }

  lemma GentleMeans(s: State, e: Event)
    requires IsGentle(s, e)
    ensures IsHandling(e) && IsQuiet(e) && !e.Die?
  {
  }

  lemma RemainHere(s: State)
    ensures Remain(s, s)
  {
  }

  lemma RemainOn(s: State, m: State, w: State)
    requires Remain(s, m) && Remain(m, w)
    ensures Remain(s, w)
  {
  }

  /**
   After any run in which no handler dies there is a way on, by handling what is pending alone,
   to a state at rest in which every browser with an open connection and an opened document holds
   exactly what the server holds, and that is everything the server or any such browser held before.
   */
  lemma SettlesInAgreement(s: State, es: seq<Event>) returns (fs: seq<Event>)
    requires s == START && Legal(s, es) && NobodyDies(es)
    ensures Legal(After(s, es), fs) && Gently(After(s, es), fs) && AtRest(After(After(s, es), fs))
    ensures var m, w := After(s, es), After(After(s, es), fs);
            && m.server <= w.server
            && forall c, k | Serves(m, c, k) && m.clients[c].made ::
                 Serves(w, c, k) && w.clients[c].ops == w.server && m.clients[c].ops <= w.server
  {
    hide Good, Legal, After, Step, May, AtRest, Gently, Remain, NobodyDies;
    StartGood(s);
    RunOk(s, es);
    RunHomed(s, es);
    fs := Settles(After(s, es));
    RunConcat(s, es, fs);
    BothAlive(es, fs);
    var m, w := After(s, es), After(After(s, es), fs);
    RemainServes(m, w);
    forall c, k | Serves(m, c, k) && m.clients[c].made
      ensures w.clients[c].ops == w.server
    {
      assert Serves(w, c, k);
      ConvergesExactly(s, es + fs, c, k);
    }
  }

  lemma RemainServes(s: State, w: State)
    requires Remain(s, w)
    ensures s.server <= w.server
    ensures forall c, k | Serves(s, c, k) :: Serves(w, c, k)
    ensures forall c | c in s.clients ::
              c in w.clients && w.clients[c].made == s.clients[c].made && s.clients[c].ops <= w.clients[c].ops
  {
  }

  lemma BothAlive(es: seq<Event>, fs: seq<Event>)
    requires NobodyDies(es) && NobodyDies(fs)
    ensures NobodyDies(es + fs)
  {
  }

  lemma {:induction false} RunHomed(s: State, es: seq<Event>)
    requires Homed(s) && Legal(s, es)
    ensures Homed(After(s, es))
    decreases |es|
  {
    hide Homed, Step, May;
    if es == [] {
    } else {
      StepHomed(s, es[0]);
      RunHomed(Step(s, es[0]), es[1..]);
    }
  }

  lemma {:induction false} RunConcat(s: State, es: seq<Event>, fs: seq<Event>)
    requires Legal(s, es) && Legal(After(s, es), fs)
    ensures Legal(s, es + fs) && After(s, es + fs) == After(After(s, es), fs)
    decreases |es|
  {
    hide Step, May;
    if es == [] {
      assert es + fs == fs;
    } else {
      assert (es + fs)[0] == es[0] && (es + fs)[1..] == es[1..] + fs;
      RunConcat(Step(s, es[0]), es[1..], fs);
    }
  }

  /**
   What is typed offline is not lost: after any run without a handler's death, an edit of an opened
   document in a browser without a connection and the reconnect that follows can happen, and handling what
   is then pending brings the edit to the server and to every opened replica with a connection.
   */
  lemma OfflineEditArrives(s: State, es: seq<Event>, c: Id, op: Op, k: Id) returns (fs: seq<Event>)
    requires s == START && Legal(s, es) && NobodyDies(es)
    requires var m := After(s, es);
             c in m.clients && m.clients[c].made && m.clients[c].conn == None && k !in m.sockets
    ensures Legal(After(s, es), [Edit(c, op), Connect(c, k)])
    ensures var n := After(After(s, es), [Edit(c, op), Connect(c, k)]);
            && Legal(n, fs) && Gently(n, fs)
            && var w := After(n, fs);
            && AtRest(w) && op in w.server
            && forall d, i | Serves(n, d, i) && n.clients[d].made :: Serves(w, d, i) && op in w.clients[d].ops
  {
    hide Legal, After, AtRest, Gently, Step, May, NobodyDies;
    var m, more := After(s, es), [Edit(c, op), Connect(c, k)];
    TypedOffline(m, c, op, k);
    RunConcat(s, es, more);
    BothAlive(es, more) by { NoDeath(c, op, k); }
    fs := SettlesInAgreement(s, es + more);
    var n := After(m, more);
    assert Serves(n, c, k) && n.clients[c].made && op in n.clients[c].ops;
  }

  lemma NoDeath(c: Id, op: Op, k: Id)
    ensures NobodyDies([Edit(c, op), Connect(c, k)])
  {
  }

  lemma TypedOffline(s: State, c: Id, op: Op, k: Id)
    requires c in s.clients && s.clients[c].made && s.clients[c].conn == None && k !in s.sockets
    ensures var es := [Edit(c, op), Connect(c, k)];
            && Legal(s, es)
            && var w := After(s, es);
            Serves(w, c, k) && w.clients[c].made && op in w.clients[c].ops
  {
    var e1, e2 := Edit(c, op), Connect(c, k);
    var m := Step(s, e1);
    assert m.clients[c].conn == None && k !in m.sockets;
    OneStep(m, e2, []);
    OneStep(s, e1, [e2]);
    assert [e2] + [] == [e2] && [e1] + [e2] == [e1, e2];
  }
}
