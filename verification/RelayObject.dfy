/** The browser's replicas as an object: many documents over one socket, each as in the relay. */
module RelayObject {
  import opened Basics
  import opened Relay

  /** What was sent about one document. */
  function About(sent: seq<(Id, Up)>, d: Id): seq<Up> {
    if sent == [] then []
    else About(sent[..|sent| - 1], d) + (if sent[|sent| - 1].0 == d then [sent[|sent| - 1].1] else [])
  }

  lemma AboutAppend(sent: seq<(Id, Up)>, d: Id, f: Up)
    ensures forall i :: About(sent + [(d, f)], i) == if i == d then About(sent, i) + [f] else About(sent, i)
  {
    assert (sent + [(d, f)])[..|sent|] == sent;
  }

  /** What a replica holds; a document that was never opened holds nothing. */
  function OpsIn(documents: map<Id, set<Op>>, d: Id): set<Op> { if d in documents then documents[d] else {} }

  /** In the relay's state s, browser c is on socket k, joined before or not, and holds document d like this. */
  predicate Shows(s: State, c: Id, k: Id, known: bool, documents: map<Id, set<Op>>, d: Id) {
    && Current(s, c, k) && k in s.sockets && s.sockets[k].client == c && s.clients[c].known == known
    && s.clients[c].made == (d in documents) && s.clients[c].ops == OpsIn(documents, d)
  }

  predicate Next(s: State, k: Id, f: Down) { k in s.sockets && s.sockets[k].down != [] && s.sockets[k].down[0] == f }

  /** From s to w the relay's browser came to hold document d like this, and sent what was sent about it. */
  ghost predicate Does(
      s: State, w: State, c: Id, k: Id, documents: map<Id, set<Op>>, d: Id, before: seq<Up>, after: seq<Up>)
  {
    && k in s.sockets && Shows(w, c, k, c in w.clients && w.clients[c].known, documents, d)
    && exists more: seq<Up> :: w.sockets[k].up == s.sockets[k].up + more && after == before + more
  }

  /** The answer to a frame about a document. */
  function Answer(f: Down, documents: map<Id, set<Op>>, d: Id): seq<Up> {
    if d !in documents then []
    else match f
      case Welcome => [Subscribe, Want(documents[d])]
      case Ask(have) => [Push(documents[d] - have)]
      case Give(_) => []
  }

  function Heard(f: Down, documents: map<Id, set<Op>>, d: Id): map<Id, set<Op>> {
    if d in documents && f.Give? then documents[d := documents[d] + f.ops] else documents
  }

  lemma HearDoes(s: State, c: Id, k: Id, known: bool, documents: map<Id, set<Op>>, d: Id, f: Down, before: seq<Up>)
    requires Shows(s, c, k, known, documents, d) && Next(s, k, f)
    ensures Does(s, HearStep(s, k), c, k, Heard(f, documents, d), d, before, before + Answer(f, documents, d))
    ensures f == Welcome ==> HearStep(s, k).clients[c].known
  {
    assert HearStep(s, k).sockets[k].up == s.sockets[k].up + Answer(f, documents, d);
  }

  lemma MakeDoes(s: State, c: Id, k: Id, documents: map<Id, set<Op>>, d: Id, before: seq<Up>)
    requires Shows(s, c, k, true, documents, d) && d !in documents
    ensures May(s, Make(c))
    ensures Does(s, MakeStep(s, c), c, k, documents[d := {}], d, before, before + [Subscribe, Want({})])
  {
    assert MakeStep(s, c).sockets[k].up == s.sockets[k].up + [Subscribe, Want({})];
  }

  lemma EditDoes(s: State, c: Id, k: Id, documents: map<Id, set<Op>>, d: Id, op: Op, before: seq<Up>)
    requires Shows(s, c, k, true, documents, d) && d in documents
    ensures May(s, Edit(c, op))
    ensures Does(s, EditStep(s, c, op), c, k, documents[d := documents[d] + {op}], d, before, before + [Push({op})])
  {
    assert EditStep(s, c, op).sockets[k].up == s.sockets[k].up + [Push({op})];
  }

  /** What the acknowledgement of a join does: the resync, then opening the first document if it has to. */
  function JoinSteps(s: State, c: Id, k: Id, makes: bool): State
    requires Next(s, k, Welcome) && s.sockets[k].client in s.clients && c in s.clients
  {
    if makes then MakeStep(HearStep(s, k), c) else HearStep(s, k)
  }

  lemma JoinDoes(
      s: State, c: Id, k: Id, known: bool, was: map<Id, set<Op>>, documents: map<Id, set<Op>>, d: Id,
      before: seq<Up>, after: seq<Up>)
    requires Shows(s, c, k, known, was, d) && Next(s, k, Welcome)
    requires d in was ==> d in documents && documents[d] == was[d]
    requires d in documents && d !in was ==> documents[d] == {}
    requires d in was ==> after == before + [Subscribe, Want(was[d])]
    requires d !in was ==> after == before + if d in documents then [Subscribe, Want({})] else []
    ensures Does(s, JoinSteps(s, c, k, d in documents && d !in was), c, k, documents, d, before, after)
  {
    HearDoes(s, c, k, known, was, d, Welcome, before);
    if d in documents && d !in was { MakeDoes(HearStep(s, k), c, k, was, d, before); }
  }

  class Browser {
    var documents: map<Id, set<Op>>
    var open: bool
    var known: bool
    var active: Option<Id>
    var sent: seq<(Id, Up)>

    constructor ()
      ensures documents == map[] && !open && !known && active == None && sent == []
    {
      documents, open, known, active, sent := map[], false, false, None, [];
    }

    /** `send` and `sendBinary`: dropped when the socket is not open. */
    method SendFrame(d: Id, f: Up)
      modifies this`sent
      ensures forall i :: About(sent, i) == About(old(sent), i) + (if open && i == d then [f] else [])
    {
      AboutAppend(sent, d, f);
      if open { sent := sent + [(d, f)]; }
    }

    /** subscribe_document and SYNC_STEP1 for one replica. */
    method StartSync(d: Id, ops: set<Op>)
      modifies this`sent
      ensures forall i :: About(sent, i) ==
                          About(old(sent), i) + (if open && i == d then [Subscribe, Want(ops)] else [])
    {
      SendFrame(d, Subscribe);
      SendFrame(d, Want(ops));
    }

    /**
     `ensureDocument`: nothing before the first acknowledged join; after it a new replica starts
     its sync at once, which is the relay's `Make`, and an existing one is left alone.
     */
    method EnsureDocument(d: Id)
      modifies this`documents, this`sent
      ensures documents == if known && d !in old(documents) then old(documents)[d := {}] else old(documents)
      ensures forall i :: About(sent, i) ==
                About(old(sent), i)
                + (if open && known && i == d && d !in old(documents) then [Subscribe, Want({})] else [])
      ensures open ==> forall s: State, c: Id, k: Id | Shows(s, c, k, known, old(documents), d) ::
                && (May(s, Make(c)) <==> documents != old(documents))
                && (May(s, Make(c)) ==>
                      Does(s, MakeStep(s, c), c, k, documents, d, About(old(sent), d), About(sent, d)))
    {
      if !known || d in documents { return; }
      ghost var was, before := documents, About(sent, d);
      documents := documents[d := {}];
      StartSync(d, {});
      forall s: State, c: Id, k: Id | open && Shows(s, c, k, known, was, d)
        ensures May(s, Make(c)) && Does(s, MakeStep(s, c), c, k, documents, d, before, About(sent, d))
      {
        MakeDoes(s, c, k, was, d, before);
      }
      assert documents[d] == {} && d !in was;
    }

    method SelectDocument(d: Id)
      modifies this`active, this`documents, this`sent
      ensures active == Some(d)
      ensures documents == if known && d !in old(documents) then old(documents)[d := {}] else old(documents)
      ensures forall i :: About(sent, i) ==
                About(old(sent), i)
                + (if open && known && i == d && d !in old(documents) then [Subscribe, Want({})] else [])
    {
      active := Some(d);
      EnsureDocument(d);
    }

    /** Every replica is offered and asked for again. */
    method Resync()
      modifies this`sent
      ensures forall d :: About(sent, d) ==
                About(old(sent), d) + (if open && d in documents then [Subscribe, Want(documents[d])] else [])
    {
      var todo := documents.Keys;
      while todo != {}
        invariant todo <= documents.Keys
        invariant forall d :: About(sent, d) ==
                    About(old(sent), d)
                    + (if open && d in documents && d !in todo then [Subscribe, Want(documents[d])] else [])
        decreases |todo|
      {
        var d :| d in todo;
        StartSync(d, documents[d]);
        todo := todo - {d};
      }
    }

    /**
     `handleJoined`, given the room's documents: every replica is synced again, and if the document
     on show is not among them any more, the first one is opened. On each document that is what the
     relay does on the acknowledgement, followed by `Make` for the one that is opened.
     */
    method HandleJoined(listed: seq<Id>)
      modifies this`known, this`active, this`documents, this`sent
      ensures known
      ensures active ==
              if old(active).Some? && old(active).value in listed then old(active)
              else if listed == [] then None else Some(listed[0])
      ensures documents ==
              if active.Some? && active != old(active) && active.value !in old(documents)
              then old(documents)[active.value := {}] else old(documents)
      ensures open ==> forall d, s: State, c: Id, k: Id |
                Shows(s, c, k, old(known), old(documents), d) && Next(s, k, Welcome) ::
                Does(s, JoinSteps(s, c, k, d in documents && d !in old(documents)),
                     c, k, documents, d, About(old(sent), d), About(sent, d))
    {
      hide Does, JoinSteps;
      ghost var knew, was, before := known, documents, sent;
      known := true;
      Resync();
      if active == None || active.value !in listed {
        if listed != [] { SelectDocument(listed[0]); } else { active := None; }
      }
      forall d, s: State, c: Id, k: Id | open && Shows(s, c, k, knew, was, d) && Next(s, k, Welcome)
        ensures Does(s, JoinSteps(s, c, k, d in documents && d !in was),
                     c, k, documents, d, About(before, d), About(sent, d))
      {
        JoinDoes(s, c, k, knew, was, documents, d, About(before, d), About(sent, d));
      }
    }

    /** A local edit: applied, and sent if the socket is open. */
    method Typed(d: Id, op: Op)
      requires d in documents && known
      modifies this`documents, this`sent
      ensures documents == old(documents)[d := old(documents)[d] + {op}]
      ensures forall i :: About(sent, i) == About(old(sent), i) + (if open && i == d then [Push({op})] else [])
      ensures open ==> forall s: State, c: Id, k: Id | Shows(s, c, k, known, old(documents), d) ::
                Does(s, EditStep(s, c, op), c, k, documents, d, About(old(sent), d), About(sent, d))
    {
      ghost var before, was := About(sent, d), documents;
      documents := documents[d := documents[d] + {op}];
      SendFrame(d, Push({op}));
      forall s: State, c: Id, k: Id | open && Shows(s, c, k, known, was, d)
        ensures Does(s, EditStep(s, c, op), c, k, documents, d, before, About(sent, d))
      {
        EditDoes(s, c, k, was, d, op, before);
      }
    }

    /**
     `handleBinary`: an update is applied without an echo, a SYNC_STEP1 is answered with what
     the server lacks, and a frame for a document this browser does not hold is ignored.
     */
    method HandleFrame(d: Id, f: Down)
      requires f != Welcome
      modifies this`documents, this`sent
      ensures documents ==
              if d in old(documents) && f.Give? then old(documents)[d := old(documents)[d] + f.ops] else old(documents)
      ensures forall i :: About(sent, i) == About(old(sent), i) +
                (if open && i == d && d in documents && f.Ask? then [Push(documents[d] - f.have)] else [])
      ensures open ==> forall s: State, c: Id, k: Id |
                Shows(s, c, k, known, old(documents), d) && Next(s, k, f) ::
                Does(s, HearStep(s, k), c, k, documents, d, About(old(sent), d), About(sent, d))
    {
      ghost var before, was := About(sent, d), documents;
      if d in documents {
        match f
        case Give(ops) => documents := documents[d := documents[d] + ops];
        case Ask(have) => SendFrame(d, Push(documents[d] - have));
      }
      forall s: State, c: Id, k: Id | open && Shows(s, c, k, known, was, d) && Next(s, k, f)
        ensures Does(s, HearStep(s, k), c, k, documents, d, before, About(sent, d))
      {
        HearDoes(s, c, k, known, was, d, f, before);
      }
    }
  }
}
