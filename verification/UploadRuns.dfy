/**
 Runs of the upload server from its start: putting runs together, and the building blocks of
 the runs that show where a promise ends.
 */
module UploadRuns {
  import opened Basics
  import opened MapSums
  import opened Vault
  import opened UploadMachine
  import opened BoardSafety
  import opened UploadSafety
  import opened UploadStanding
  import opened UploadFigures
  import opened UploadAgreement
  import opened UploadBudget

  // ------------------------------------------------------------------
  // Putting runs together
  // ------------------------------------------------------------------

  /** An orderly run in which every measurement is accurate. */
  ghost predicate Fine(c: Config, s: State, es: seq<Event>) {
    Legal(c, s, es) && Orderly(c, s, es) && Walks(c, s, es, 0, 0)
  }

  ghost predicate FineStart(c: Config, s: State, e: Event) {
    MayStart(c, s, e) && Disciplined(c, s, e) && (ReadsUsage(s, e) ==> Accurate(s, e, 0, 0))
  }

  lemma FineNil(c: Config, s: State)
    ensures Fine(c, s, []) && After(c, s, []) == s
  {
  }

  lemma FineCons(c: Config, s: State, e: Event, es: seq<Event>)
    requires FineStart(c, s, e) && Fine(c, Step(c, s, e), es)
    ensures Fine(c, s, [e] + es) && After(c, s, [e] + es) == After(c, Step(c, s, e), es)
  {
    hide MayStart, Step, Disciplined, Accurate, ReadsUsage;
    assert ([e] + es)[0] == e && ([e] + es)[1..] == es;
  }

  lemma FineHead(c: Config, s: State, es: seq<Event>)
    requires Fine(c, s, es) && es != []
    ensures FineStart(c, s, es[0]) && Fine(c, Step(c, s, es[0]), es[1..])
    ensures After(c, s, es) == After(c, Step(c, s, es[0]), es[1..])
  {
    hide MayStart, Step, Disciplined, Accurate, ReadsUsage;
  }

  lemma {:induction false} FineConcat(c: Config, s: State, a: seq<Event>, b: seq<Event>)
    requires Fine(c, s, a) && Fine(c, After(c, s, a), b)
    ensures Fine(c, s, a + b) && After(c, s, a + b) == After(c, After(c, s, a), b)
    decreases |a|
  {
    hide Legal, Orderly, Walks, MayStart, Disciplined, Accurate, ReadsUsage, Step;
    if a == [] {
      FineNil(c, s);
      assert a + b == b;
    } else {
      FineHead(c, s, a);
      FineConcat(c, Step(c, s, a[0]), a[1..], b);
      FineCons(c, s, a[0], a[1..] + b);
      assert [a[0]] + (a[1..] + b) == a + b;
    }
  }

  lemma FineOne(c: Config, s: State, e: Event)
    requires FineStart(c, s, e)
    ensures Fine(c, s, [e]) && After(c, s, [e]) == Step(c, s, e)
  {
    hide MayStart, Step, Disciplined, Accurate, ReadsUsage;
    FineNil(c, Step(c, s, e));
    FineCons(c, s, e, []);
    assert [e] + [] == [e];
  }

  lemma FineMore(c: Config, s: State, es: seq<Event>, e: Event)
    requires Fine(c, s, es) && FineStart(c, After(c, s, es), e)
    ensures Fine(c, s, es + [e]) && After(c, s, es + [e]) == Step(c, After(c, s, es), e)
  {
    hide Legal, Orderly, Walks, MayStart, Disciplined, Accurate, ReadsUsage, Step;
    FineOne(c, After(c, s, es), e);
    FineConcat(c, s, es, [e]);
  }

  ghost predicate NoTicks(es: seq<Event>) { forall e | e in es :: !e.Tick? }

  /** At time zero every measurement is recent. */
  lemma {:induction false} LastsAtZero(c: Config, s: State, es: seq<Event>, win: nat)
    requires Legal(c, s, es) && NoTicks(es) && s.now == 0 && win >= 1
    ensures Lasts(c, s, es, win)
    decreases |es|
  {
    hide Step, MayStart;
    if es == [] {
    } else {
      assert es[0] in es;
      StepMoves(c, s, es[0]);
      LastsAtZero(c, Step(c, s, es[0]), es[1..], win);
    }
  }

  /** No window holds more than everything that landed. */
  lemma {:induction false} LogBelow(c: Config, s: State, es: seq<Event>)
    requires Legal(c, s, es)
    ensures s.vault.landed <= After(c, s, es).vault.landed
    ensures forall i | 0 <= i <= |es| :: LogOf(c, s, es)[i].1 <= After(c, s, es).vault.landed
    decreases |es|
  {
    hide Step, MayStart, Moves;
    if es == [] {
    } else {
      var w := Step(c, s, es[0]);
      StepMoves(c, s, es[0]); LandedGrows(c, s.vault, w.vault, s.now, Figure(es[0]));
      LogBelow(c, w, es[1..]);
      var rest := LogOf(c, w, es[1..]);
      forall i | 0 <= i <= |es| ensures LogOf(c, s, es)[i].1 <= After(c, s, es).vault.landed {
        assert i > 0 ==> LogOf(c, s, es)[i] == rest[i - 1];
      }
    }
  }

  lemma LandedGrows(c: Config, v: Vault, w: Vault, now: nat, figure: nat)
    requires Moves(c, v, w, now, figure)
    ensures v.landed <= w.landed
  {
  }

  lemma PacedByTotal(c: Config, s: State, es: seq<Event>, win: nat, most: nat)
    requires Legal(c, s, es) && After(c, s, es).vault.landed <= most
    ensures Paced(LogOf(c, s, es), win, most)
  {
    LogBelow(c, s, es);
  }

  // ------------------------------------------------------------------
  // Building blocks: one room, one user, nothing suspended
  // ------------------------------------------------------------------

  const ROOM: Id := 0
  const USER: Id := 7

  /** The room is open with its directory, its user is there, and nothing is suspended. */
  ghost predicate Calm(s: State) {
    && s.tasks == map[] && s.vault.hold.Unlocked?
    && ROOM in s.board.rooms && s.board.rooms[ROOM].phase == Open && s.board.rooms[ROOM].dir
    && USER in s.board.rooms[ROOM].users
    && s.board.rooms[ROOM].code in s.board.codes && s.board.codes[s.board.rooms[ROOM].code] == ROOM
  }

  /** A choice that makes every step of an admission go well. */
  function Granting(u: Id, figure: nat): Choice { Choice(u, u, figure, true, {}) }

  function AdmitEvents(u: Id, size: nat, figure: nat): seq<Event> {
    var e := Resume(1, Granting(u, figure));
    [InitStart(1, ROOM, USER, size), e, e, e, e]
  }

  /** The vault when an admission is about to be decided. */
  ghost function Probed(c: Config, s: State, figure: nat): Vault {
    ReadUsage(c, ReadVolume(c, Acquire(s.vault, 1)), s.now, figure)
  }

  ghost function Admitted(c: Config, s: State, u: Id, size: nat, figure: nat): State {
    s.(board := Register(s.board, u, NewRecord(s.board, ROOM, u, s.now, 1)),
       vault := Decide(c, Probed(c, s, figure), u, size))
  }

  ghost predicate Unknown(s: State, u: Id) {
    u !in s.board.records && u !in s.vault.terms && forall w | w in s.board.records :: s.board.records[w].file != u
  }

  /** The init waits, takes the lock, reads free space and usage. */
  ghost function Waiting(s: State, size: nat): State { s.(tasks := map[1 := InitWaiting(ROOM, size)]) }
  ghost function Holding(s: State, size: nat, v: Vault): State {
    s.(vault := v, tasks := map[1 := InitHolding(ROOM, size)])
  }

  lemma AdmitStart(c: Config, s: State, u: Id, size: nat, figure: nat)
    requires Calm(s)
    ensures var e := InitStart(1, ROOM, USER, size); FineStart(c, s, e) && Step(c, s, e) == Waiting(s, size)
  {
  }

  lemma AdmitAcquire(c: Config, s: State, u: Id, size: nat, figure: nat)
    requires Calm(s)
    ensures var e, m := Resume(1, Granting(u, figure)), Waiting(s, size);
            FineStart(c, m, e) && Step(c, m, e) == Holding(s, size, Acquire(s.vault, 1))
  {
  }

  lemma AdmitVolume(c: Config, s: State, u: Id, size: nat, figure: nat)
    requires Calm(s) && Unknown(s, u)
    ensures var e, m := Resume(1, Granting(u, figure)), Holding(s, size, Acquire(s.vault, 1));
            FineStart(c, m, e) && Step(c, m, e) == Holding(s, size, ReadVolume(c, Acquire(s.vault, 1)))
  {
  }

  lemma AdmitUsage(c: Config, s: State, u: Id, size: nat, figure: nat)
    requires Calm(s) && Unknown(s, u) && Used(s.vault) == figure
    ensures var e, m := Resume(1, Granting(u, figure)), Holding(s, size, ReadVolume(c, Acquire(s.vault, 1)));
            FineStart(c, m, e) && Step(c, m, e) == Holding(s, size, Probed(c, s, figure))
  {
    hide Measured;
  }

  lemma AdmitDecide(c: Config, s: State, u: Id, size: nat, figure: nat)
    requires Calm(s) && Unknown(s, u) && Grants(c, Probed(c, s, figure), size)
    ensures var e, m := Resume(1, Granting(u, figure)), Holding(s, size, Probed(c, s, figure));
            FineStart(c, m, e) && Step(c, m, e) == Admitted(c, s, u, size, figure)
  {
    hide Measured, Grants;
  }

  lemma AdmitRun(c: Config, s: State, u: Id, size: nat, figure: nat)
    requires Calm(s) && Unknown(s, u) && Used(s.vault) == figure && Grants(c, Probed(c, s, figure), size)
    ensures Fine(c, s, AdmitEvents(u, size, figure)) && NoTicks(AdmitEvents(u, size, figure))
    ensures After(c, s, AdmitEvents(u, size, figure)) == Admitted(c, s, u, size, figure)
  {
    hide Legal, Orderly, Walks, MayStart, Disciplined, Accurate, ReadsUsage, Step,
         Calm, Unknown, Grants, Admitted, Waiting, Holding, Probed;
    var first, e := InitStart(1, ROOM, USER, size), Resume(1, Granting(u, figure));
    AdmitStart(c, s, u, size, figure); AdmitAcquire(c, s, u, size, figure); AdmitVolume(c, s, u, size, figure);
    AdmitUsage(c, s, u, size, figure); AdmitDecide(c, s, u, size, figure);
    assert [first] + [e] == [first, e] && [first, e] + [e] == [first, e, e];
    assert [first, e, e] + [e] == [first, e, e, e] && [first, e, e, e] + [e] == AdmitEvents(u, size, figure);
    FineOne(c, s, first);
    FineMore(c, s, [first], e);
    FineMore(c, s, [first, e], e);
    FineMore(c, s, [first, e, e], e);
    FineMore(c, s, [first, e, e, e], e);
  }

  // Writing all of an upload

  /** Task 1 at `task`, with upload u's record as given. */
  ghost function Doing(s: State, u: Id, rec: Record, v: Vault, task: Task): State {
    s.(board := SetRecord(s.board, u, rec), vault := v, tasks := map[1 := task])
  }

  /** Upload u is registered in the room and has nothing yet; it declares n bytes. */
  ghost predicate Empty(s: State, u: Id, n: nat) {
    && Calm(s) && Resolve(s.board, u) == Some(ROOM) && u in s.board.records && s.board.records[u].room == ROOM
    && s.board.records[u].committed == 0 && 0 < n && u in s.vault.terms && s.vault.terms[u] == Terms(n, 0)
    && Part(ROOM, u) !in s.vault.disk && u in s.vault.ledger
  }

  function Writing(n: nat): Choice { Choice(0, 0, n, true, {}) }

  /** The upload's record as its request begins, and once n bytes are committed. */
  function Begun(s: State, u: Id): Record
    requires u in s.board.records
  {
    s.board.records[u].(writing := true, client := 1)
  }

  function Committed(s: State, u: Id, n: nat): Record
    requires u in s.board.records
  {
    Begun(s, u).(committed := n, lastActivity := s.now)
  }

  function SendEvents(u: Id, n: nat): seq<Event> {
    var e := Resume(1, Writing(n));
    [PutStart(1, u, 0), e, e, e]
  }

  ghost function Sent(s: State, u: Id, n: nat): State
    requires u in s.board.records
  {
    Doing(s, u, Committed(s, u, n), Append(s.vault, Part(ROOM, u), u, n), Shrinking(u, 0))
  }

  lemma SendBegins(c: Config, s: State, u: Id, n: nat)
    requires Empty(s, u, n)
    ensures var e := PutStart(1, u, 0);
            FineStart(c, s, e) && Step(c, s, e) == Doing(s, u, Begun(s, u), s.vault, Streaming(u))
  {
  }

  lemma SendAccepts(c: Config, s: State, u: Id, n: nat)
    requires Empty(s, u, n)
    ensures var e, m := Resume(1, Writing(n)), Doing(s, u, Begun(s, u), s.vault, Streaming(u));
            FineStart(c, m, e) && Step(c, m, e) == Doing(s, u, Begun(s, u), s.vault, Appending(u, n))
  {
  }

  lemma SendLands(c: Config, s: State, u: Id, n: nat)
    requires Empty(s, u, n)
    ensures var e, m := Resume(1, Writing(n)), Doing(s, u, Begun(s, u), s.vault, Appending(u, n));
            && FineStart(c, m, e)
            && Step(c, m, e) == Doing(s, u, Begun(s, u), Append(s.vault, Part(ROOM, u), u, n), Appended(u, n))
  {
  }

  lemma SendCommits(c: Config, s: State, u: Id, n: nat)
    requires Empty(s, u, n)
    ensures var e := Resume(1, Writing(n));
            var m := Doing(s, u, Begun(s, u), Append(s.vault, Part(ROOM, u), u, n), Appended(u, n));
            FineStart(c, m, e) && Step(c, m, e) == Sent(s, u, n)
  {
  }

  lemma SendRun(c: Config, s: State, u: Id, n: nat)
    requires Empty(s, u, n)
    ensures Fine(c, s, SendEvents(u, n)) && NoTicks(SendEvents(u, n)) && After(c, s, SendEvents(u, n)) == Sent(s, u, n)
  {
    hide Legal, Orderly, Walks, MayStart, Disciplined, Accurate, ReadsUsage, Step, Empty, Doing, Sent;
    var first, e := PutStart(1, u, 0), Resume(1, Writing(n));
    SendBegins(c, s, u, n); SendAccepts(c, s, u, n); SendLands(c, s, u, n); SendCommits(c, s, u, n);
    assert [first] + [e] == [first, e] && [first, e] + [e] == [first, e, e];
    assert [first, e, e] + [e] == SendEvents(u, n);
    FineOne(c, s, first);
    FineMore(c, s, [first], e);
    FineMore(c, s, [first, e], e);
    FineMore(c, s, [first, e, e], e);
  }

  // And ending the request

  const Ending := Choice(0, 0, 0, false, {})

  ghost function Rested(s: State, u: Id, n: nat): State
    requires u in s.board.records
  {
    s.(board := SetRecord(s.board, u, Committed(s, u, n).(writing := false)),
       vault := Shrink(Append(s.vault, Part(ROOM, u), u, n), u, 0))
  }

  function StoreEvents(u: Id, n: nat): seq<Event> { SendEvents(u, n) + [Resume(1, Ending), Resume(1, Ending)] }

  lemma StoreShrinks(c: Config, s: State, u: Id, n: nat)
    requires Empty(s, u, n)
    ensures var v := Shrink(Append(s.vault, Part(ROOM, u), u, n), u, 0);
            && FineStart(c, Sent(s, u, n), Resume(1, Ending))
            && Step(c, Sent(s, u, n), Resume(1, Ending)) == Doing(s, u, Committed(s, u, n), v, Streaming(u))
  {
  }

  lemma StoreStops(c: Config, s: State, u: Id, n: nat)
    requires Empty(s, u, n)
    ensures var v := Shrink(Append(s.vault, Part(ROOM, u), u, n), u, 0);
            var m := Doing(s, u, Committed(s, u, n), v, Streaming(u));
            FineStart(c, m, Resume(1, Ending)) && Step(c, m, Resume(1, Ending)) == Rested(s, u, n)
  {
  }

  lemma StoreRun(c: Config, s: State, u: Id, n: nat)
    requires Empty(s, u, n)
    ensures Fine(c, s, StoreEvents(u, n)) && NoTicks(StoreEvents(u, n))
    ensures After(c, s, StoreEvents(u, n)) == Rested(s, u, n)
  {
    hide Legal, Orderly, Walks, MayStart, Disciplined, Accurate, ReadsUsage, Step, Empty, Doing, Sent, Rested;
    var es, e := SendEvents(u, n), Resume(1, Ending);
    SendRun(c, s, u, n); StoreShrinks(c, s, u, n); StoreStops(c, s, u, n);
    FineMore(c, s, es, e);
    FineMore(c, s, es + [e], e);
    assert es + [e] + [e] == StoreEvents(u, n);
  }
}
