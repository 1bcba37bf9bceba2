/** A sweep or a cleanup that is not disturbed: any run made of its own steps only, to its end. */
module UploadAlone {
  import opened Basics
  import opened MapSums
  import opened Vault
  import opened UploadMachine
  import opened BoardSafety
  import opened UploadSafety
  import opened UploadStanding
  import opened UploadResults

  /** Only task t goes on, and every deletion works. */
  ghost predicate Alone(es: seq<Event>, t: Id) { forall e | e in es :: e.Resume? && e.t == t && e.ch.flag }

  // ------------------------------------------------------------------
  // The sweep
  // ------------------------------------------------------------------

  /** Idle for too long by the sweep's clock reading, and not being written. */
  predicate StaleNow(c: Config, b: Board, start: nat, u: Id) {
    IsStale(RecordAt(b, u).writing, RecordAt(b, u).lastActivity, start, c.staleMs)
  }

  /** The uploads a sweep has still to look at. */
  ghost predicate Ahead(b: Board, l: Loop, u: Id) {
    u in l.todo || exists r :: r in l.rooms && u in RoomAt(b, r).uploads
  }

  /** Those of them that it will take. */
  ghost predicate Takes(c: Config, b: Board, l: Loop, u: Id) { Ahead(b, l, u) && StaleNow(c, b, l.start, u) }

  /** Every reservation goes that the sweep takes or is giving back, and no other. */
  ghost predicate SweptLedger(c: Config, s: State, task: Task, w: State)
    requires task.IsSweep()
  {
    forall u :: Find(w.vault.ledger, u) ==
                if Takes(c, s.board, task.loop, u) || (task.SweepReleasing? && task.u == u) then None
                else Find(s.vault.ledger, u)
  }

  /** So do the parts; stored files stay. */
  ghost predicate SweptDisk(c: Config, s: State, task: Task, w: State)
    requires task.IsSweep()
  {
    forall p: Path :: Find(w.vault.disk, p) ==
                      if p.Part? && p == PartOf(s.board, p.upload)
                         && (Takes(c, s.board, task.loop, p.upload) || (!task.Sweeping? && task.u == p.upload))
                      then None
                      else Find(s.vault.disk, p)
  }

  /** Upload u is listed by room r still exactly if it was and the sweep does not take it. */
  ghost predicate Leaves(c: Config, b: Board, l: Loop, w: Board, r: Id, u: Id) {
    u in RoomAt(w, r).uploads <==> u in RoomAt(b, r).uploads && !Takes(c, b, l, u)
  }

  /** What is taken leaves its room, and nothing else changes there. */
  ghost predicate SweptRooms(c: Config, s: State, task: Task, w: State)
    requires task.IsSweep()
  {
    && w.board.rooms.Keys == s.board.rooms.Keys
    && (forall r, u | r in s.board.rooms :: Leaves(c, s.board, task.loop, w.board, r, u))
    && (forall r | r in s.board.rooms ::
          w.board.rooms[r].files == s.board.rooms[r].files && w.board.rooms[r].users == s.board.rooms[r].users)
  }

  ghost predicate Swept(c: Config, s: State, task: Task, w: State)
    requires task.IsSweep()
  {
    SweptLedger(c, s, task, w) && SweptDisk(c, s, task, w) && SweptRooms(c, s, task, w)
  }

  /** Uploads are listed by their own room only, and everything named is on record. */
  ghost predicate Homed(b: Board, task: Task)
    requires task.IsSweep()
  {
    && (forall r, u | r in b.rooms && u in b.rooms[r].uploads :: u in b.records && b.records[u].room == r)
    && (forall u | u in task.loop.todo :: u in b.records && b.records[u].room in b.rooms)
    && (!task.Sweeping? ==> task.u in b.records && b.records[task.u].room in b.rooms)
  }

  lemma HomedOf(c: Config, s: State, t: Id)
    requires Safe(c, s) && t in s.tasks && s.tasks[t].IsSweep()
    ensures Homed(s.board, s.tasks[t])
  {
    hide Sound, PartsOk, RoomOk, CodeOk, FigureOk, CleanOk;
    assert TaskOk(s.board, s.vault, t, s.tasks[t]);
    assert forall u | u in s.tasks[t].loop.todo :: s.tasks[t].Names(u);
    assert !s.tasks[t].Sweeping? ==> s.tasks[t].Names(s.tasks[t].u);
    forall r | r in s.board.rooms
      ensures forall u | u in s.board.rooms[r].uploads :: u in s.board.records && s.board.records[u].room == r
    {
      Listed(c, s.board, r);
    }
  }

  // Each step, from what the rest of the sweep will have done

  /** A step that changes nothing but what the sweep has in hand. */
  lemma SameSwept(c: Config, s: State, task: Task, next: Task, w: State)
    requires task.Sweeping? && next.Sweeping? && Swept(c, s, next, w)
    requires forall u :: Takes(c, s.board, next.loop, u) == Takes(c, s.board, task.loop, u)
    ensures Swept(c, s, task, w)
  {
    hide Takes;
    forall r, u | r in s.board.rooms ensures Leaves(c, s.board, task.loop, w.board, r, u) {
      assert Leaves(c, s.board, next.loop, w.board, r, u);
    }
  }

  lemma SkipSwept(c: Config, s: State, t: Id, ch: Choice, w: State)
    requires t in s.tasks && s.tasks[t].Sweeping? && s.tasks[t].loop.todo != {} && ch.u in s.tasks[t].loop.todo
    requires SweepSkips(c, s.board, s.tasks[t].loop, ch.u)
    requires var l := s.tasks[t].loop; Swept(c, s, Sweeping(l.(todo := l.todo - {ch.u})), w)
    ensures Swept(c, s, s.tasks[t], w)
  {
    hide Swept;
    var l := s.tasks[t].loop;
    forall u ensures Takes(c, s.board, l.(todo := l.todo - {ch.u}), u) == Takes(c, s.board, l, u) {}
    SameSwept(c, s, s.tasks[t], Sweeping(l.(todo := l.todo - {ch.u})), w);
  }

  lemma ListSwept(c: Config, s: State, t: Id, ch: Choice, w: State)
    requires t in s.tasks && s.tasks[t].Sweeping? && s.tasks[t].loop.todo == {} && ch.u in s.tasks[t].loop.rooms
    requires var l := s.tasks[t].loop;
             Swept(c, s, Sweeping(Loop(l.start, l.rooms - {ch.u}, ch.u, RoomAt(s.board, ch.u).uploads)), w)
    ensures Swept(c, s, s.tasks[t], w)
  {
    hide Swept;
    var l := s.tasks[t].loop;
    var next := Loop(l.start, l.rooms - {ch.u}, ch.u, RoomAt(s.board, ch.u).uploads);
    forall u ensures Ahead(s.board, next, u) == Ahead(s.board, l, u) {
      if r :| r in l.rooms && u in RoomAt(s.board, r).uploads { assert r == ch.u || r in next.rooms; }
    }
    SameSwept(c, s, s.tasks[t], Sweeping(next), w);
  }

  /** After popping u the sweep will take what it would have taken, but u. */
  lemma PopTakes(c: Config, b: Board, t: Id, l: Loop, u: Id, x: Id)
    requires Homed(b, Sweeping(l)) && u in l.todo && StaleNow(c, b, l.start, u)
    ensures Takes(c, b, l, x) <==> x == u || Takes(c, PopUpload(b, u, t), l.(todo := l.todo - {u}), x)
  {
    var w, rest := PopUpload(b, u, t), l.(todo := l.todo - {u});
    assert StaleNow(c, w, l.start, x) == StaleNow(c, b, l.start, x);
    if x != u {
      assert forall r :: x in RoomAt(w, r).uploads <==> x in RoomAt(b, r).uploads;
    }
  }

  /** What is swept after a step that took upload u in hand, gave it back or deleted its part. */
  lemma PopSwept(c: Config, s: State, t: Id, ch: Choice, w: State)
    requires t in s.tasks && s.tasks[t].Sweeping? && ch.u in s.tasks[t].loop.todo && Homed(s.board, s.tasks[t])
    requires !SweepSkips(c, s.board, s.tasks[t].loop, ch.u)
    requires var m := SweepStep(c, s, t, s.tasks[t], ch); Swept(c, m, m.tasks[t], w)
    ensures Swept(c, s, s.tasks[t], w)
  {
    hide SweptLedger, SweptDisk, SweptRooms, Homed, SweepSkips;
    PopSweptLedger(c, s, t, ch, w); PopSweptDisk(c, s, t, ch, w); PopSweptRooms(c, s, t, ch, w);
  }

  lemma PopTaken(c: Config, s: State, t: Id, ch: Choice)
    requires t in s.tasks && s.tasks[t].Sweeping? && ch.u in s.tasks[t].loop.todo && Homed(s.board, s.tasks[t])
    requires !SweepSkips(c, s.board, s.tasks[t].loop, ch.u)
    ensures var m := SweepStep(c, s, t, s.tasks[t], ch);
            && m.tasks[t] == SweepReleasing(s.tasks[t].loop.(todo := s.tasks[t].loop.todo - {ch.u}), ch.u)
            && forall x :: Takes(c, s.board, s.tasks[t].loop, x) <==>
                           x == ch.u || Takes(c, m.board, m.tasks[t].loop, x)
  {
    hide Takes;
    forall x ensures Takes(c, s.board, s.tasks[t].loop, x) <==>
                     x == ch.u || Takes(c, PopUpload(s.board, ch.u, t),
                                        s.tasks[t].loop.(todo := s.tasks[t].loop.todo - {ch.u}), x)
    {
      PopTakes(c, s.board, t, s.tasks[t].loop, ch.u, x);
    }
  }

  lemma PopSweptLedger(c: Config, s: State, t: Id, ch: Choice, w: State)
    requires t in s.tasks && s.tasks[t].Sweeping? && ch.u in s.tasks[t].loop.todo && Homed(s.board, s.tasks[t])
    requires !SweepSkips(c, s.board, s.tasks[t].loop, ch.u)
    requires var m := SweepStep(c, s, t, s.tasks[t], ch); SweptLedger(c, m, m.tasks[t], w)
    ensures SweptLedger(c, s, s.tasks[t], w)
  {
    hide Takes, Homed;
    PopTaken(c, s, t, ch);
  }

  lemma PopSweptDisk(c: Config, s: State, t: Id, ch: Choice, w: State)
    requires t in s.tasks && s.tasks[t].Sweeping? && ch.u in s.tasks[t].loop.todo && Homed(s.board, s.tasks[t])
    requires !SweepSkips(c, s.board, s.tasks[t].loop, ch.u)
    requires var m := SweepStep(c, s, t, s.tasks[t], ch); SweptDisk(c, m, m.tasks[t], w)
    ensures SweptDisk(c, s, s.tasks[t], w)
  {
    hide Takes;
    var m := SweepStep(c, s, t, s.tasks[t], ch);
    PopTaken(c, s, t, ch);
    forall p: Path ensures Find(w.vault.disk, p) ==
                           if p.Part? && p == PartOf(s.board, p.upload) && Takes(c, s.board, s.tasks[t].loop, p.upload)
                           then None
                           else Find(s.vault.disk, p)
    {
      if p.Part? { assert PartOf(m.board, p.upload) == PartOf(s.board, p.upload); }
    }
  }

  lemma PopSweptRooms(c: Config, s: State, t: Id, ch: Choice, w: State)
    requires t in s.tasks && s.tasks[t].Sweeping? && ch.u in s.tasks[t].loop.todo && Homed(s.board, s.tasks[t])
    requires !SweepSkips(c, s.board, s.tasks[t].loop, ch.u)
    requires var m := SweepStep(c, s, t, s.tasks[t], ch); SweptRooms(c, m, m.tasks[t], w)
    ensures SweptRooms(c, s, s.tasks[t], w)
  {
    hide Takes, Leaves, Homed, SweepSkips;
    PopRooms(c, s, t, ch);
    forall r, x | r in s.board.rooms ensures Leaves(c, s.board, s.tasks[t].loop, w.board, r, x) {
      PopLeaves(c, s, t, ch, w, r, x);
    }
  }

  lemma PopRooms(c: Config, s: State, t: Id, ch: Choice)
    requires t in s.tasks && s.tasks[t].Sweeping? && ch.u in s.tasks[t].loop.todo && Homed(s.board, s.tasks[t])
    requires !SweepSkips(c, s.board, s.tasks[t].loop, ch.u)
    ensures var m := SweepStep(c, s, t, s.tasks[t], ch);
            && m.board.rooms.Keys == s.board.rooms.Keys
            && forall r | r in s.board.rooms ::
                 m.board.rooms[r].files == s.board.rooms[r].files && m.board.rooms[r].users == s.board.rooms[r].users
  {
    hide SweepSkips;
  }

  lemma PopLeaves(c: Config, s: State, t: Id, ch: Choice, w: State, r: Id, x: Id)
    requires t in s.tasks && s.tasks[t].Sweeping? && ch.u in s.tasks[t].loop.todo && Homed(s.board, s.tasks[t])
    requires !SweepSkips(c, s.board, s.tasks[t].loop, ch.u)
    requires r in s.board.rooms
    requires var m := SweepStep(c, s, t, s.tasks[t], ch); Leaves(c, m.board, m.tasks[t].loop, w.board, r, x)
    ensures Leaves(c, s.board, s.tasks[t].loop, w.board, r, x)
  {
    hide Takes;
    PopTaken(c, s, t, ch);
    var m := SweepStep(c, s, t, s.tasks[t], ch);
    assert x in RoomAt(m.board, r).uploads <==> x in RoomAt(s.board, r).uploads && x != ch.u;
  }

  /** Giving back and deleting change nothing that the sweep looks at. */
  lemma SameTakes(c: Config, b: Board, u: Id, rec: Record, l: Loop, x: Id)
    requires rec.writing == RecordAt(b, u).writing && rec.lastActivity == RecordAt(b, u).lastActivity
    ensures Takes(c, SetRecord(b, u, rec), l, x) == Takes(c, b, l, x)
  {
  }

  lemma GiveBackSwept(c: Config, s: State, t: Id, ch: Choice, w: State)
    requires t in s.tasks && !s.tasks[t].Sweeping? && s.tasks[t].IsSweep() && ch.flag && Homed(s.board, s.tasks[t])
    requires var m := SweepStep(c, s, t, s.tasks[t], ch); Swept(c, m, m.tasks[t], w)
    ensures Swept(c, s, s.tasks[t], w)
  {
    hide Takes;
    var u, l, m := s.tasks[t].u, s.tasks[t].loop, SweepStep(c, s, t, s.tasks[t], ch);
    forall x ensures Takes(c, m.board, l, x) == Takes(c, s.board, l, x) {
      SameTakes(c, s.board, u, m.board.records[u], l, x);
    }
    forall x ensures PartOf(m.board, x) == PartOf(s.board, x) {}
    forall r, x | r in s.board.rooms ensures Leaves(c, s.board, l, w.board, r, x) {
      assert Leaves(c, m.board, l, w.board, r, x);
    }
    forall p: Path ensures Find(w.vault.disk, p) ==
                           if p.Part? && p == PartOf(s.board, p.upload)
                              && (Takes(c, s.board, l, p.upload) || u == p.upload)
                           then None else Find(s.vault.disk, p)
    {
      if p.Part? { assert PartOf(m.board, p.upload) == PartOf(s.board, p.upload); }
    }
  }

  lemma DoneSwept(c: Config, s: State, t: Id)
    requires t in s.tasks && s.tasks[t].Sweeping? && s.tasks[t].loop.todo == {} && s.tasks[t].loop.rooms == {}
    ensures Swept(c, s, s.tasks[t], Stop(s, t, s.board, s.vault))
  {
  }

  /** Whatever order it looks at things in, an undisturbed sweep does exactly this. */
  lemma {:induction false} SweepAlone(c: Config, s: State, t: Id, es: seq<Event>)
    requires Safe(c, s) && t in s.tasks && s.tasks[t].IsSweep()
    requires Legal(c, s, es) && Alone(es, t) && t !in After(c, s, es).tasks
    ensures Swept(c, s, s.tasks[t], After(c, s, es))
    decreases |es|
  {
    hide Safe, Swept, Step, MayStart, Kept;
    if es == [] {
    } else {
      var m := Step(c, s, es[0]);
      assert es[0] in es;
      StepSafe(c, s, es[0]); KeptIsSafe(c, s, m);
      OwnStep(c, s, t, es[0].ch, es[0]);
      if t in m.tasks {
        SweepAlone(c, m, t, es[1..]);
        StepSwept(c, s, t, es[0].ch, After(c, s, es));
      } else {
        NothingMore(c, m, t, es[1..]);
        LastSwept(c, s, t, es[0].ch);
      }
    }
  }

  lemma OwnStep(c: Config, s: State, t: Id, ch: Choice, e: Event)
    requires t in s.tasks && s.tasks[t].IsSweep() && e == Resume(t, ch) && MayStart(c, s, e)
    ensures MayResume(s, s.tasks[t], ch) && Step(c, s, e) == SweepStep(c, s, t, s.tasks[t], ch)
    ensures t in Step(c, s, e).tasks ==> Step(c, s, e).tasks[t].IsSweep()
  {
  }

  lemma NothingMore(c: Config, s: State, t: Id, es: seq<Event>)
    requires Legal(c, s, es) && (forall e | e in es :: e.Resume? && e.t == t) && t !in s.tasks
    ensures es == []
  {
  }

  lemma StepSwept(c: Config, s: State, t: Id, ch: Choice, w: State)
    requires Safe(c, s) && t in s.tasks && s.tasks[t].IsSweep() && MayResume(s, s.tasks[t], ch) && ch.flag
    requires var m := SweepStep(c, s, t, s.tasks[t], ch);
             t in m.tasks && m.tasks[t].IsSweep() && Swept(c, m, m.tasks[t], w)
    ensures Swept(c, s, s.tasks[t], w)
  {
    hide Safe, Swept, Homed, SweepSkips;
    HomedOf(c, s, t);
    var l := s.tasks[t].loop;
    if !s.tasks[t].Sweeping? { GiveBackSwept(c, s, t, ch, w); }
    else if l.todo == {} { SweptFrom(c, s, t, ch, w); ListSwept(c, s, t, ch, w); }
    else if SweepSkips(c, s.board, l, ch.u) { SweptFrom(c, s, t, ch, w); SkipSwept(c, s, t, ch, w); }
    else { PopSwept(c, s, t, ch, w); }
  }

  /** Where a step leaves board and vault alone, what is swept after it is swept before it. */
  lemma SweptFrom(c: Config, s: State, t: Id, ch: Choice, w: State)
    requires t in s.tasks && s.tasks[t].Sweeping?
    requires s.tasks[t].loop.todo == {} || SweepSkips(c, s.board, s.tasks[t].loop, ch.u)
    requires var m := SweepStep(c, s, t, s.tasks[t], ch);
             t in m.tasks && m.tasks[t].IsSweep() && Swept(c, m, m.tasks[t], w)
    ensures var m := SweepStep(c, s, t, s.tasks[t], ch);
            m.tasks[t].Sweeping? && Swept(c, s, m.tasks[t], w)
  {
    hide Takes, SweepSkips;
    var m := SweepStep(c, s, t, s.tasks[t], ch);
    assert m.board == s.board && m.vault == s.vault;
  }

  lemma LastSwept(c: Config, s: State, t: Id, ch: Choice)
    requires t in s.tasks && s.tasks[t].IsSweep() && ch.flag && t !in SweepStep(c, s, t, s.tasks[t], ch).tasks
    ensures Swept(c, s, s.tasks[t], SweepStep(c, s, t, s.tasks[t], ch))
  {
    hide Swept;
    DoneSwept(c, s, t);
  }

  /** Listed by an open room and stale when the sweep begins. */
  ghost predicate StaleUpload(c: Config, s: State, u: Id) {
    && (exists r :: r in s.board.codes.Values && u in RoomAt(s.board, r).uploads)
    && StaleNow(c, s.board, s.now, u)
  }

  /**
   From any reachable state, a sweep that nothing disturbs leaves in the mapped rooms only
   uploads that are being written or fresh, and takes exactly the reservations of the others:
   the ledger's sum falls by just those. Stored files stay.
   */
  lemma UndisturbedSweep(c: Config, s: State, es: seq<Event>, t: Id, fs: seq<Event>)
    requires s == START && Legal(c, s, es) && MayStart(c, After(c, s, es), SweepStart(t))
    requires var m := Step(c, After(c, s, es), SweepStart(t));
             Legal(c, m, fs) && Alone(fs, t) && t !in After(c, m, fs).tasks
    ensures var m, w := After(c, s, es), After(c, Step(c, After(c, s, es), SweepStart(t)), fs);
            var taken := set u | u in m.vault.ledger && StaleUpload(c, m, u);
            && w.vault.ledger == m.vault.ledger - taken
            && Sum(w.vault.ledger) + Sum(Only(m.vault.ledger, taken)) == Sum(m.vault.ledger)
            && (forall r, u | r in m.board.codes.Values && u in RoomAt(w.board, r).uploads ::
                  !StaleNow(c, m.board, m.now, u))
            && (forall r, f :: Find(w.vault.disk, Stored(r, f)) == Find(m.vault.disk, Stored(r, f)))
  {
    hide Safe, Standing, Legal, After, Swept, Alone, StaleNow, Kept;
    Arrives(c, s, es);
    var m := After(c, s, es);
    var n := Step(c, m, SweepStart(t));
    StepSafe(c, m, SweepStart(t)); KeptIsSafe(c, m, n);
    SafeMeans(c, m);
    SweepAlone(c, n, t, fs);
    SweptMeans(c, m, t, After(c, n, fs));
    SumDropAll(m.vault.ledger, set u | u in m.vault.ledger && StaleUpload(c, m, u));
  }

  lemma SameMap(a: map<Id, nat>, b: map<Id, nat>)
    requires forall u :: Find(a, u) == Find(b, u)
    ensures a == b
  {
    forall u ensures u in a <==> u in b { assert Find(a, u) == Find(b, u); }
    forall u | u in a ensures a[u] == b[u] { assert Find(a, u) == Find(b, u); }
  }

  lemma SweptMeans(c: Config, s: State, t: Id, w: State)
    requires t !in s.tasks && BoardOk(c, s.board)
    requires var n := Step(c, s, SweepStart(t)); Swept(c, n, n.tasks[t], w)
    ensures w.vault.ledger == s.vault.ledger - (set u | u in s.vault.ledger && StaleUpload(c, s, u))
    ensures forall r, u | r in s.board.codes.Values && u in RoomAt(w.board, r).uploads ::
              !StaleNow(c, s.board, s.now, u)
    ensures forall r, f :: Find(w.vault.disk, Stored(r, f)) == Find(s.vault.disk, Stored(r, f))
  {
    hide StaleNow;
    var n := Step(c, s, SweepStart(t));
    var l := n.tasks[t].loop;
    forall u ensures Takes(c, n.board, l, u) <==> StaleUpload(c, s, u) {}
    var left := s.vault.ledger - (set u | u in s.vault.ledger && StaleUpload(c, s, u));
    forall u ensures Find(w.vault.ledger, u) == Find(left, u) {
      assert Takes(c, n.board, l, u) <==> StaleUpload(c, s, u);
    }
    SameMap(w.vault.ledger, left);
    forall r, u | r in s.board.codes.Values && u in RoomAt(w.board, r).uploads ensures !StaleNow(c, s.board, s.now, u) {
      assert exists code :: code in s.board.codes && s.board.codes[code] == r && CodeOk(s.board, code);
      assert Leaves(c, n.board, l, w.board, r, u);
    }
  }

  // ------------------------------------------------------------------
  // The cleanup
  // ------------------------------------------------------------------

  /** The uploads whose reservations a cleanup has still to give back. */
  function ToAbort(b: Board, task: Task): set<Id>
    requires task.IsClean()
  {
    match task
    case CleanStart(r) => RoomAt(b, r).uploads
    case CleanNext(_, todo) => todo
    case CleanReleasing(_, todo, u) => todo + {u}
    case CleanDiscarding(_, todo, _) => todo
    case CleanRemoving(_, _) => {}
  }

  /** Only task t goes on. */
  ghost predicate Lonely(es: seq<Event>, t: Id) { forall e | e in es :: e.Resume? && e.t == t }

  /** An undisturbed cleanup that closes its room gives back exactly the reservations of its uploads. */
  lemma {:induction false} CleanAlone(c: Config, s: State, t: Id, es: seq<Event>)
    requires Safe(c, s) && t in s.tasks && s.tasks[t].IsClean() && Legal(c, s, es) && Lonely(es, t)
    requires t !in After(c, s, es).tasks && RoomAt(After(c, s, es).board, s.tasks[t].r).phase == Closed
    ensures After(c, s, es).vault.ledger == s.vault.ledger - ToAbort(s.board, s.tasks[t])
    decreases |es|
  {
    hide Safe, ToAbort, Step, MayStart, Kept;
    if es == [] {
    } else {
      var m := Step(c, s, es[0]);
      assert es[0] in es;
      StepSafe(c, s, es[0]); KeptIsSafe(c, s, m);
      CleanMoves(c, s, t, es[0].ch);
      if t in m.tasks {
        CleanAlone(c, m, t, es[1..]);
      } else {
        NothingMore(c, m, t, es[1..]);
      }
    }
  }

  /** The cleanup has still to come to upload u of its room, is at it, or has marked it and deleted its part. */
  ghost predicate Due(s: State, t: Id, r: Id, u: Id) {
    && u in s.board.records && s.board.records[u].room == r
    && (var gone := s.board.records[u].aborted && Part(r, u) !in s.vault.disk;
        if t in s.tasks && s.tasks[t].IsClean() then
          match s.tasks[t]
          case CleanStart(_) => u in RoomAt(s.board, r).uploads
          case CleanNext(_, todo) => u in todo || gone
          case CleanReleasing(_, todo, i) => u in todo || (u == i && s.board.records[u].aborted) || gone
          case CleanDiscarding(_, todo, i) => u in todo || (u == i && s.board.records[u].aborted) || gone
          case CleanRemoving(_, _) => gone
        else gone)
  }

  /** And it marks every one of them as aborted and deletes its part, whether or not the directory goes. */
  lemma {:induction false} CleanErases(c: Config, s: State, t: Id, es: seq<Event>, u: Id)
    requires Safe(c, s) && t in s.tasks && s.tasks[t].IsClean() && Legal(c, s, es) && Lonely(es, t)
    requires t !in After(c, s, es).tasks && RoomAt(After(c, s, es).board, s.tasks[t].r).phase == Closed
    requires Due(s, t, s.tasks[t].r, u)
    ensures var w := After(c, s, es);
            u in w.board.records && w.board.records[u].aborted && Part(s.tasks[t].r, u) !in w.vault.disk
    decreases |es|
  {
    hide Safe, Step, MayStart, Kept, Due;
    if es == [] {
    } else {
      var m := Step(c, s, es[0]);
      assert es[0] in es;
      StepSafe(c, s, es[0]); KeptIsSafe(c, s, m);
      CleanMoves(c, s, t, es[0].ch);
      if t in m.tasks {
        DueMoves(c, s, t, es[0].ch, u);
        CleanErases(c, m, t, es[1..], u);
      } else {
        NothingMore(c, m, t, es[1..]);
        DueMoves(c, s, t, es[0].ch, u);
        DueDone(m, t, s.tasks[t].r, u);
      }
    }
  }

  lemma DueDone(s: State, t: Id, r: Id, u: Id)
    requires t !in s.tasks && Due(s, t, r, u)
    ensures u in s.board.records && s.board.records[u].aborted && Part(r, u) !in s.vault.disk
  {
  }

  lemma DueMoves(c: Config, s: State, t: Id, ch: Choice, u: Id)
    requires Safe(c, s) && t in s.tasks && s.tasks[t].IsClean() && MayStart(c, s, Resume(t, ch))
    requires Due(s, t, s.tasks[t].r, u)
    requires var m, r := Step(c, s, Resume(t, ch)), s.tasks[t].r; t in m.tasks || RoomAt(m.board, r).phase == Closed
    ensures Due(Step(c, s, Resume(t, ch)), t, s.tasks[t].r, u)
  {
    hide Safe, CleanOk;
    CleansOk(c, s, t);
    GoesOn(c, s, t, ch);
    CleanStepDue(s, t, ch, u);
  }

  lemma CleanStepDue(s: State, t: Id, ch: Choice, u: Id)
    requires t in s.tasks && s.tasks[t].IsClean() && CleanOk(s.board, t, s.tasks[t]) && MayResume(s, s.tasks[t], ch)
    requires Due(s, t, s.tasks[t].r, u)
    requires var m := CleanStep(s, t, s.tasks[t], ch);
             t in m.tasks || RoomAt(m.board, s.tasks[t].r).phase == Closed
    ensures Due(CleanStep(s, t, s.tasks[t], ch), t, s.tasks[t].r, u)
  {
    assert forall i | s.tasks[t].Names(i) :: i in s.board.records && s.board.records[i].room == s.tasks[t].r;
  }

  lemma CleanMoves(c: Config, s: State, t: Id, ch: Choice)
    requires Safe(c, s) && t in s.tasks && s.tasks[t].IsClean() && MayStart(c, s, Resume(t, ch))
    ensures var m, r := Step(c, s, Resume(t, ch)), s.tasks[t].r;
            && (t in m.tasks ==> m.tasks[t].IsClean() && m.tasks[t].r == r)
            && (t in m.tasks ==>
                  m.vault.ledger - ToAbort(m.board, m.tasks[t]) == s.vault.ledger - ToAbort(s.board, s.tasks[t]))
            && (t !in m.tasks && RoomAt(m.board, r).phase == Closed ==>
                  m.vault.ledger == s.vault.ledger - ToAbort(s.board, s.tasks[t]))
  {
    hide Safe, CleanOk;
    CleansOk(c, s, t);
    GoesOn(c, s, t, ch);
    CleanStepMoves(s, t, ch);
  }

  lemma CleanStepMoves(s: State, t: Id, ch: Choice)
    requires t in s.tasks && s.tasks[t].IsClean() && CleanOk(s.board, t, s.tasks[t]) && MayResume(s, s.tasks[t], ch)
    ensures var m, r := CleanStep(s, t, s.tasks[t], ch), s.tasks[t].r;
            && (t in m.tasks ==> m.tasks[t].IsClean() && m.tasks[t].r == r)
            && (t in m.tasks ==>
                  m.vault.ledger - ToAbort(m.board, m.tasks[t]) == s.vault.ledger - ToAbort(s.board, s.tasks[t]))
            && (t !in m.tasks && RoomAt(m.board, r).phase == Closed ==>
                  m.vault.ledger == s.vault.ledger - ToAbort(s.board, s.tasks[t]))
  {
  }
}
