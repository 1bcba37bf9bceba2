/**
 Where the promises about uploads end: the exact condition under which a budget is kept, and
 runs in which it is not, in which an admitted transfer is aborted, in which a reservation is
 left behind, and in which two requests overlap.
 */
module UploadEdges {
  import opened Basics
  import opened MapSums
  import opened Vault
  import opened UploadMachine
  import opened BoardSafety
  import opened UploadSafety
  import opened UploadStanding
  import opened UploadFigures
  import opened UploadAgreement
  import opened UploadBudget
  import opened UploadRuns
  import opened UploadWriting
  import opened UploadResults

  // ------------------------------------------------------------------
  // A room in which k uploads of one byte were stored at time zero
  // ------------------------------------------------------------------

  /** Every reservation is down to nothing, and everything declared has landed. */
  ghost predicate AllLanded(v: Vault) {
    forall u | u in v.ledger :: v.ledger[u] == 0 && u in v.terms && v.terms[u].declared == v.terms[u].landed
  }

  /** Only numbers below k were used for uploads. */
  ghost predicate Below(s: State, k: nat) {
    && (forall u | u in s.board.records :: u < k && s.board.records[u].file < k)
    && (forall u | u in s.vault.terms :: u < k)
    && (forall r: Id, u: Id | Part(r, u) in s.vault.disk :: u < k)
  }

  ghost predicate Ground(s: State, k: nat) {
    && Calm(s) && s.now == 0 && Below(s, k) && AllLanded(s.vault)
    && Used(s.vault) == k && s.vault.landed == k
    && s.vault.cache == if k == 0 then None else Some(Cache(0, 0, 0))
  }

  /** Room for k uploads beside a spent budget, and a cache that lives. */
  predicate Roomy(c: Config, k: nat) {
    c.headroom < c.budget && c.budget + k <= c.capacity && 1 <= c.ttlMs && 1 <= c.maxRooms
  }

  lemma {:induction false} SumZero(m: map<Id, nat>)
    requires forall u | u in m :: m[u] == 0
    ensures Sum(m) == 0
    decreases m.Keys
  {
    if m == map[] {
    } else {
      var u := Pick(m);
      SumZero(m - {u});
    }
  }

  lemma LandedSums(v: Vault)
    requires AllLanded(v)
    ensures Reserved(v) == 0 && Outstanding(v) == 0 && Covers(v)
  {
    SumZero(v.ledger);
    SumZero(Owing(v));
  }

  /** With the stale figure, everything up to budget less headroom is admitted. */
  lemma GroundProbed(c: Config, s: State, k: nat)
    requires Ground(s, k) && Roomy(c, k)
    ensures Probed(c, s, k) == s.vault.(cache := Some(Cache(0, 0, 0)), hold := Ready(1, c.budget, 0, 0))
    ensures forall size: nat :: size <= c.budget - c.headroom ==> Grants(c, Probed(c, s, k), size)
  {
    LandedSums(s.vault);
  }

  // Storing one more byte

  lemma GroundUnknown(s: State, k: nat)
    requires Ground(s, k)
    ensures Unknown(s, k) && Used(s.vault) == k
  {
    assert forall w | w in s.board.records :: s.board.records[w].file < k;
  }

  ghost function Next(c: Config, s: State, k: nat, size: nat): State { Admitted(c, s, k, size, k) }

  /** After the admission of upload k. */
  lemma NextEmpty(c: Config, s: State, k: nat, size: nat)
    requires Ground(s, k) && Roomy(c, k) && size <= c.budget - c.headroom && 0 < size
    ensures Empty(Next(c, s, k, size), k, size) && Next(c, s, k, size).board.records[k].lastActivity == 0
  {
    GroundProbed(c, s, k); GroundUnknown(s, k);
    assert Grants(c, Probed(c, s, k), size);
  }

  function CycleEvents(k: nat): seq<Event> { AdmitEvents(k, 1, k) + StoreEvents(k, 1) }

  lemma CycleRun(c: Config, s: State, k: nat)
    requires Ground(s, k) && Roomy(c, k)
    ensures Fine(c, s, CycleEvents(k)) && NoTicks(CycleEvents(k))
    ensures After(c, s, CycleEvents(k)) == Rested(Next(c, s, k, 1), k, 1)
    ensures Ground(After(c, s, CycleEvents(k)), k + 1)
  {
    hide Ground, Fine, Legal, After, Grants, Empty, Unknown, Probed, Admitted, Rested, Roomy;
    GroundCalm(s, k); GroundUnknown(s, k); GroundProbed(c, s, k); RoomyOne(c, k);
    AdmitRun(c, s, k, 1, k);
    NextEmpty(c, s, k, 1);
    StoreRun(c, Next(c, s, k, 1), k, 1);
    FineConcat(c, s, AdmitEvents(k, 1, k), StoreEvents(k, 1));
    CycleGround(c, s, k);
  }

  lemma GroundCalm(s: State, k: nat)
    requires Ground(s, k)
    ensures Calm(s)
  {
  }

  lemma RoomyOne(c: Config, k: nat)
    requires Roomy(c, k)
    ensures 1 <= c.budget - c.headroom
  {
  }

  lemma CycleGround(c: Config, s: State, k: nat)
    requires Ground(s, k) && Roomy(c, k)
    ensures Empty(Next(c, s, k, 1), k, 1) && Ground(Rested(Next(c, s, k, 1), k, 1), k + 1)
  {
    GroundProbed(c, s, k); NextEmpty(c, s, k, 1);
    var m := Next(c, s, k, 1);
    SumPut(m.vault.disk, Part(ROOM, k), 1);
  }

  // From the start

  const CODE := "1000"

  function Opening(): seq<Event> {
    [CreateRoom(1, ROOM, CODE), Resume(1, Ending.(flag := true)), Populate(ROOM, {USER}, {})]
  }

  function RunTo(k: nat): seq<Event> { if k == 0 then Opening() else RunTo(k - 1) + CycleEvents(k - 1) }

  lemma OpeningRun(c: Config, s: State)
    requires s == START && 1 <= c.maxRooms
    ensures Fine(c, s, Opening()) && NoTicks(Opening()) && Ground(After(c, s, Opening()), 0)
    ensures RoomAt(After(c, s, Opening()).board, ROOM).uploads == {}
  {
    hide Legal, Orderly, Walks, MayStart, Step, Disciplined, Accurate, ReadsUsage, Ground, Founded;
    var e1, e2, e3 := CreateRoom(1, ROOM, CODE), Resume(1, Ending.(flag := true)), Populate(ROOM, {USER}, {});
    Founds(c, s); Opens(c, Step(c, s, e1));
    assert [e1] + [e2] == [e1, e2] && [e1, e2] + [e3] == Opening();
    FineOne(c, s, e1);
    FineMore(c, s, [e1], e2);
    FineMore(c, s, [e1, e2], e3);
  }

  /** The room is there, and its directories are being made. */
  ghost predicate Founded(s: State) {
    && s.tasks == map[1 := MakingDirs(ROOM)] && s.vault == EMPTY_VAULT && s.now == 0
    && s.board == Bind(START.board, ROOM, CODE)
  }

  lemma Founds(c: Config, s: State)
    requires s == START && 1 <= c.maxRooms
    ensures FineStart(c, s, CreateRoom(1, ROOM, CODE)) && Founded(Step(c, s, CreateRoom(1, ROOM, CODE)))
  {
  }

  lemma Opens(c: Config, s: State)
    requires Founded(s)
    ensures var e, fill := Resume(1, Ending.(flag := true)), Populate(ROOM, {USER}, {});
            && FineStart(c, s, e) && FineStart(c, Step(c, s, e), fill)
            && var w := Step(c, Step(c, s, e), fill);
            Ground(w, 0) && RoomAt(w.board, ROOM).uploads == {}
  {
    var w := Step(c, s, Resume(1, Ending.(flag := true)));
    assert w.tasks == map[];
  }

  lemma {:induction false} GroundRun(c: Config, s: State, k: nat)
    requires s == START && Roomy(c, k)
    ensures Fine(c, s, RunTo(k)) && NoTicks(RunTo(k)) && Ground(After(c, s, RunTo(k)), k)
    decreases k
  {
    hide Ground, Legal, Orderly, Walks, After;
    if k == 0 {
      OpeningRun(c, s);
    } else {
      GroundRun(c, s, k - 1);
      CycleRun(c, After(c, s, RunTo(k - 1)), k - 1);
      FineConcat(c, s, RunTo(k - 1), CycleEvents(k - 1));
    }
  }

  // ------------------------------------------------------------------
  // The budget
  // ------------------------------------------------------------------

  /** An orderly run with accurate measurements, paced by `most` over the windows that matter. */
  ghost predicate Tame(c: Config, es: seq<Event>, win: nat, most: nat) {
    Fine(c, START, es) && Lasts(c, START, es, win) && Paced(LogOf(c, START, es), win, most)
  }

  ghost predicate KeepsBudget(c: Config, v: Vault) { Used(v) + Outstanding(v) <= c.budget }

  /** k stale bytes, then an upload of all that budget and headroom leave. */
  function Overdrawn(c: Config, k: nat): seq<Event>
    requires c.headroom <= c.budget
  {
    RunTo(k) + AdmitEvents(k, c.budget - c.headroom, k)
  }

  /** For every k: a run from the start that has used and promised the budget, less the headroom, and k more. */
  lemma BudgetOverdrawn(c: Config, s: State, k: nat)
    requires s == START && Roomy(c, k)
    ensures var es := Overdrawn(c, k);
            && Fine(c, s, es) && NoTicks(es) && After(c, s, es).vault.landed == k
            && Used(After(c, s, es).vault) + Outstanding(After(c, s, es).vault) == c.budget - c.headroom + k
            && Fine(c, s, RunTo(k)) && Ground(After(c, s, RunTo(k)), k)
            && After(c, s, es) == Next(c, After(c, s, RunTo(k)), k, c.budget - c.headroom)
  {
    hide Ground, Legal, Orderly, Walks, After, Calm, Unknown, Grants, Probed, Admitted;
    GroundRun(c, s, k);
    var m, size := After(c, s, RunTo(k)), c.budget - c.headroom;
    GroundCalm(m, k); GroundUnknown(m, k); GroundProbed(c, m, k);
    AdmitRun(c, m, k, size, k);
    FineConcat(c, s, RunTo(k), AdmitEvents(k, size, k));
    NextVolume(c, m, k, size);
  }

  lemma NextVolume(c: Config, s: State, k: nat, size: nat)
    requires Ground(s, k) && Roomy(c, k) && size <= c.budget - c.headroom
    ensures var v := Next(c, s, k, size).vault; Used(v) + Outstanding(v) == k + size && v.landed == k && v.debt >= k
  {
    GroundProbed(c, s, k); GroundUnknown(s, k); LandedSums(s.vault);
    var w := Probed(c, s, k);
    assert Owing(w) == Owing(s.vault);
    GrantOwing(c, w, k, size);
  }

  /**
   The budget and its cached figure, exactly: with room on the volume, every orderly run that
   lands at most `most` bytes between a measurement and an admission made on it keeps the
   budget if and only if the headroom is at least `most`.
   */
  lemma BudgetKeptIff(c: Config, win: nat, most: nat)
    requires Roomy(c, c.headroom + 1) && 1 <= win
    ensures (forall es | Tame(c, es, win, most) :: KeepsBudget(c, After(c, START, es).vault)) <==> most <= c.headroom
  {
    hide Orderly, Walks, Lasts, Paced, Legal, After;
    if most <= c.headroom {
      forall es | Tame(c, es, win, most) ensures KeepsBudget(c, After(c, START, es).vault) {
        TameKeeps(c, es, win, most);
      }
    } else {
      var k := c.headroom + 1;
      OverdrawnIsTame(c, win, most);
      BudgetOverdrawn(c, START, k);
      assert !KeepsBudget(c, After(c, START, Overdrawn(c, k)).vault);
    }
  }

  lemma TameKeeps(c: Config, es: seq<Event>, win: nat, most: nat)
    requires Tame(c, es, win, most) && most <= c.headroom < c.budget
    ensures KeepsBudget(c, After(c, START, es).vault)
  {
    HeadroomAbsorbsTheWindow(c, START, es, win, most, 0, 0);
  }

  lemma OverdrawnIsTame(c: Config, win: nat, most: nat)
    requires Roomy(c, c.headroom + 1) && 1 <= win && c.headroom < most
    ensures Tame(c, Overdrawn(c, c.headroom + 1), win, most)
  {
    hide Lasts, Paced, Orderly, Walks, Legal, After, Overdrawn;
    var es := Overdrawn(c, c.headroom + 1);
    BudgetOverdrawn(c, START, c.headroom + 1);
    LastsAtZero(c, START, es, win);
    PacedByTotal(c, START, es, win, most);
  }

  // ------------------------------------------------------------------
  // The re-check
  // ------------------------------------------------------------------

  function Checking(figure: nat): Choice { Choice(0, 0, figure, true, {}) }

  function RecheckEvents(c: Config, figure: nat): seq<Event> {
    [Resume(1, Checking(figure)), Tick(c.ttlMs), Resume(1, Checking(figure))]
  }

  /** The admitted upload is written in full, and re-checked when the cached figure has expired. */
  function Rechecks(c: Config, k: nat): seq<Event>
    requires c.headroom <= c.budget
  {
    Overdrawn(c, k) + SendEvents(k, c.budget - c.headroom) + RecheckEvents(c, c.budget - c.headroom + k)
  }

  lemma RecheckRun(c: Config, s: State, u: Id, n: nat)
    requires Empty(s, u, n) && s.now == 0 && c.budget != 0
    requires s.vault.cache == Some(Cache(0, 0, 0))
    requires Used(Sent(s, u, n).vault) == Used(s.vault) + n && Used(s.vault) + n <= c.capacity
    ensures var m, es := Sent(s, u, n), RecheckEvents(c, Used(s.vault) + n);
            && Fine(c, m, es)
            && var w := After(c, m, es);
            && w.tasks == map[1 := Rechecked(u, Reading(c, c.capacity - Used(s.vault) - n, Used(s.vault) + n))]
            && w.board == m.board
  {
    hide Legal, Orderly, Walks, Disciplined, Fine, FineStart, After, Step, Calm, Resolve;
    var m, used := Sent(s, u, n), Used(s.vault) + n;
    var e, tick := Resume(1, Checking(used)), Tick(c.ttlMs);
    RecheckShrinks(c, s, u, n, used); RecheckRead(c, s, u, n, used);
    FineThree(c, m, e, tick, e);
  }

  ghost function Shrunk(s: State, u: Id, n: nat, now: nat): State
    requires u in s.board.records
  {
    var v := Shrink(Append(s.vault, Part(ROOM, u), u, n), u, 0);
    Doing(s, u, Committed(s, u, n), v, Rechecking(u)).(now := now)
  }

  lemma FineThree(c: Config, s: State, e1: Event, e2: Event, e3: Event)
    requires FineStart(c, s, e1) && FineStart(c, Step(c, s, e1), e2) && FineStart(c, Step(c, Step(c, s, e1), e2), e3)
    ensures Fine(c, s, [e1, e2, e3]) && After(c, s, [e1, e2, e3]) == Step(c, Step(c, Step(c, s, e1), e2), e3)
  {
    hide Legal, Orderly, Walks, MayStart, Disciplined, Accurate, ReadsUsage, Step;
    assert [e1] + [e2] == [e1, e2] && [e1, e2] + [e3] == [e1, e2, e3];
    FineOne(c, s, e1);
    FineMore(c, s, [e1], e2);
    FineMore(c, s, [e1, e2], e3);
  }

  lemma RecheckShrinks(c: Config, s: State, u: Id, n: nat, used: nat)
    requires Empty(s, u, n) && s.now == 0
    ensures var m, e := Sent(s, u, n), Resume(1, Checking(used));
            && FineStart(c, m, e) && Step(c, m, e) == Shrunk(s, u, n, 0)
            && FineStart(c, Shrunk(s, u, n, 0), Tick(c.ttlMs))
            && Step(c, Shrunk(s, u, n, 0), Tick(c.ttlMs)) == Shrunk(s, u, n, c.ttlMs)
  {
  }

  lemma RecheckRead(c: Config, s: State, u: Id, n: nat, used: nat)
    requires Empty(s, u, n) && c.budget != 0 && s.vault.cache == Some(Cache(0, 0, 0))
    requires Used(Sent(s, u, n).vault) == used && c.capacity >= used
    ensures var m, e := Shrunk(s, u, n, c.ttlMs), Resume(1, Checking(used));
            && FineStart(c, m, e)
            && Step(c, m, e).tasks == map[1 := Rechecked(u, Reading(c, c.capacity - used, used))]
            && Step(c, m, e).board == Sent(s, u, n).board
  {
  }

  /**
   For every k up to the volume's reach: a run from the start, orderly and with accurate
   measurements, in which an admitted transfer finds less than the headroom at its re-check,
   by the k bytes that landed since the figure behind its admission, and is aborted.
   */
  lemma AdmittedThenAborted(c: Config, s: State, k: nat)
    requires s == START && Roomy(c, k) && 1 <= k && 1 <= c.headroom
    ensures var es := Rechecks(c, k);
            && Fine(c, s, es)
            && var w := After(c, s, es);
            && 1 in w.tasks && w.tasks[1] == Rechecked(k, Max(0, c.headroom - k))
            && MayStart(c, w, Resume(1, Ending))
            && var x := Step(c, w, Resume(1, Ending));
            1 in x.tasks && x.tasks[1] == Releasing(k, Breached) && RecordAt(x.board, k).aborted
  {
    hide Ground, Legal, Orderly, Walks, After, MayStart, Empty, Step;
    var size := c.budget - c.headroom;
    BudgetOverdrawn(c, s, k);
    var g, m := After(c, s, RunTo(k)), After(c, s, Overdrawn(c, k));
    NextEmpty(c, g, k, size); NextFigures(c, g, k, size);
    SendRun(c, m, k, size);
    RecheckRun(c, m, k, size);
    FineConcat(c, s, Overdrawn(c, k), SendEvents(k, size));
    FineConcat(c, s, Overdrawn(c, k) + SendEvents(k, size), RecheckEvents(c, size + k));
    var w := After(c, s, Rechecks(c, k));
    AbortsNext(c, w, k, Max(0, c.headroom - k));
  }

  lemma NextFigures(c: Config, s: State, k: nat, size: nat)
    requires Ground(s, k) && Roomy(c, k) && size <= c.budget - c.headroom
    ensures var m := Next(c, s, k, size);
            && m.now == 0 && m.vault.cache == Some(Cache(0, 0, 0)) && Used(m.vault) == k
            && (k in m.board.records ==> Used(Sent(m, k, size).vault) == k + size)
  {
    GroundProbed(c, s, k); GroundUnknown(s, k);
    var m := Next(c, s, k, size);
    SumPut(m.vault.disk, Part(ROOM, k), size);
    assert Part(ROOM, k) !in m.vault.disk;
  }

  lemma AbortsNext(c: Config, s: State, u: Id, reading: int)
    requires s.tasks == map[1 := Rechecked(u, reading)] && reading < c.headroom
    requires u in s.board.records
    ensures MayStart(c, s, Resume(1, Ending))
    ensures var x := Step(c, s, Resume(1, Ending));
            1 in x.tasks && x.tasks[1] == Releasing(u, Breached) && RecordAt(x.board, u).aborted
  {
  }

  /** No request has broken off for want of space. */
  ghost predicate Unbroken(w: State) {
    forall t | t in w.tasks && (w.tasks[t].Releasing? || w.tasks[t].Discarding?) :: w.tasks[t].why != Breached
  }

  /** Every re-check on the way finds the headroom. */
  ghost predicate ChecksPass(c: Config, w: State) {
    forall t | t in w.tasks && w.tasks[t].Rechecked? :: w.tasks[t].reading >= c.headroom
  }

  /** A re-check that finds the headroom breaks nothing off. */
  lemma StepUnbroken(c: Config, s: State, e: Event)
    requires Unbroken(s) && ChecksPass(c, s) && MayStart(c, s, e)
    ensures Unbroken(Step(c, s, e))
  {
    hide MayStart, MayResume, PutStep, EndStep, SweepStep, CleanStep, HoldStep, WithUsage;
    if e.Resume? {
      assert e.t in s.tasks by { ResumesTask(c, s, e); }
      OwnUnbroken(c, s, e.t, e.ch);
    }
  }

  lemma ResumesTask(c: Config, s: State, e: Event)
    requires MayStart(c, s, e) && e.Resume?
    ensures e.t in s.tasks
  {
  }

  lemma OwnUnbroken(c: Config, s: State, t: Id, ch: Choice)
    requires Unbroken(s) && ChecksPass(c, s) && t in s.tasks
    ensures Unbroken(Proceed(c, s, t, ch))
  {
    hide Append, WithUsage, Measured, AbortNow, RecordFile, Decide, Grants, ReadUsage;
  }

  lemma {:induction false} RunUnbroken(c: Config, s: State, es: seq<Event>)
    requires Safe(c, s) && Standing(s) && Exactly(c, s) && Unbroken(s) && Legal(c, s, es) && Orderly(c, s, es)
    requires c.budget == 0 && c.headroom <= c.capacity
    ensures Unbroken(After(c, s, es)) && ChecksPass(c, After(c, s, es))
    decreases |es|
  {
    hide Safe, Standing, Exactly, Step, MayStart, Disciplined, Kept, Unbroken, ChecksPass;
    ExactPasses(c, s);
    if es == [] {
    } else {
      StepSafe(c, s, es[0]); KeptIsSafe(c, s, Step(c, s, es[0]));
      StepStands(c, s, es[0]);
      StepExact(c, s, es[0]);
      StepUnbroken(c, s, es[0]);
      RunUnbroken(c, Step(c, s, es[0]), es[1..]);
    }
  }

  /** Without a budget the readings are exact, and the headroom is free. */
  lemma ExactPasses(c: Config, s: State)
    requires Exactly(c, s) && c.budget == 0 && c.headroom <= c.capacity
    ensures ChecksPass(c, s)
  {
    hide Exact, TaskExact, FlagsOk;
  }

  /**
   A transfer that was admitted is never refused part of the way, in any orderly run with accurate
   measurements, if and only if there is no storage budget.
   */
  lemma NeverRefusedIff(c: Config)
    requires 1 <= c.headroom <= c.capacity && (c.budget != 0 ==> Roomy(c, 1))
    ensures (forall es | Fine(c, START, es) :: Unbroken(After(c, START, es))) <==> c.budget == 0
    ensures (forall es | Fine(c, START, es) :: ChecksPass(c, After(c, START, es))) <==> c.budget == 0
  {
    hide Orderly, Walks, Legal, After, Step, MayStart, Safe, Standing, Exactly, Unbroken, ChecksPass;
    if c.budget == 0 {
      forall es | Fine(c, START, es) ensures Unbroken(After(c, START, es)) && ChecksPass(c, After(c, START, es)) {
        StartUnbroken(c, START);
        RunUnbroken(c, START, es);
      }
    } else {
      AdmittedThenAborted(c, START, 1);
      var es, e := Rechecks(c, 1), Resume(1, Ending);
      FineMore(c, START, es, e);
      RefusedOff(c, After(c, START, es), Step(c, After(c, START, es), e), 1);
      assert !ChecksPass(c, After(c, START, es)) && !Unbroken(After(c, START, es + [e]));
    }
  }

  lemma StartUnbroken(c: Config, s: State)
    requires s == START
    ensures Safe(c, s) && Standing(s) && Exactly(c, s) && Unbroken(s)
  {
    StartSafe(c, s);
  }

  lemma RefusedOff(c: Config, s: State, w: State, u: Id)
    requires 1 in s.tasks && s.tasks[1].Rechecked? && s.tasks[1].reading < c.headroom
    requires 1 in w.tasks && w.tasks[1] == Releasing(u, Breached)
    ensures !ChecksPass(c, s) && !Unbroken(w)
  {
  }

  // ------------------------------------------------------------------
  // A reservation left behind
  // ------------------------------------------------------------------

  /** An init waits with its reading while its room closes and the cleanup lists nothing to abort. */
  function StrandingEvents(size: nat): seq<Event> {
    var e, clean := Resume(1, Granting(0, 0)), Resume(2, Granting(0, 0));
    Opening() + [InitStart(1, ROOM, USER, size), e, e, e] + [CloseRoom(2, ROOM), clean, e, clean, clean]
  }

  /** The init holds its reading and the cleanup of its room has nothing to abort. */
  ghost predicate Overtaken(c: Config, s: State, size: nat) {
    && s.tasks == map[1 := InitHolding(ROOM, size), 2 := CleanNext(ROOM, {})]
    && ROOM in s.board.rooms && s.board.rooms[ROOM].phase == Cleaning && Unknown(s, 0)
    && s.vault.hold.Ready? && Grants(c, s.vault, size)
  }

  lemma HoldRun(c: Config, s: State, u: Id, size: nat, figure: nat)
    requires Calm(s) && Unknown(s, u) && Used(s.vault) == figure
    ensures var e := Resume(1, Granting(u, figure));
            var es := [InitStart(1, ROOM, USER, size), e, e, e];
            Fine(c, s, es) && After(c, s, es) == Holding(s, size, Probed(c, s, figure))
  {
    hide Legal, Orderly, Walks, MayStart, Disciplined, Accurate, ReadsUsage, Step,
         Calm, Unknown, Grants, Waiting, Holding, Probed;
    var first, e := InitStart(1, ROOM, USER, size), Resume(1, Granting(u, figure));
    AdmitStart(c, s, u, size, figure); AdmitAcquire(c, s, u, size, figure);
    AdmitVolume(c, s, u, size, figure); AdmitUsage(c, s, u, size, figure);
    assert [first] + [e] == [first, e] && [first, e] + [e] == [first, e, e];
    assert [first, e, e] + [e] == [first, e, e, e];
    FineOne(c, s, first);
    FineMore(c, s, [first], e);
    FineMore(c, s, [first, e], e);
    FineMore(c, s, [first, e, e], e);
  }

  lemma RoomCloses(c: Config, s: State, size: nat)
    requires Ground(s, 0) && s.board.rooms[ROOM].uploads == {}
    ensures var m, close := Holding(s, size, Probed(c, s, 0)), CloseRoom(2, ROOM);
            && FineStart(c, m, close)
            && var w := Step(c, m, close);
            && w.tasks == map[1 := InitHolding(ROOM, size), 2 := CleanStart(ROOM)] && w.vault == m.vault
            && w.board.records == m.board.records && w.board.rooms.Keys == m.board.rooms.Keys
            && w.board.rooms[ROOM].phase == Closing && w.board.rooms[ROOM].uploads == {} && w.now == m.now
  {
    hide Probed;
  }

  lemma CleanupLists(c: Config, s: State, size: nat)
    requires s.tasks == map[1 := InitHolding(ROOM, size), 2 := CleanStart(ROOM)] && Unknown(s, 0)
    requires ROOM in s.board.rooms && s.board.rooms[ROOM].phase == Closing && s.board.rooms[ROOM].uploads == {}
    requires s.vault.hold.Ready? && Grants(c, s.vault, size)
    ensures var clean := Resume(2, Granting(0, 0)); FineStart(c, s, clean) && Overtaken(c, Step(c, s, clean), size)
  {
    hide Grants;
  }

  lemma ClosesUnder(c: Config, s: State, size: nat)
    requires Ground(s, 0) && Roomy(c, 0) && size <= c.budget - c.headroom && s.board.rooms[ROOM].uploads == {}
    ensures var m, close, clean := Holding(s, size, Probed(c, s, 0)), CloseRoom(2, ROOM), Resume(2, Granting(0, 0));
            && FineStart(c, m, close) && FineStart(c, Step(c, m, close), clean)
            && Overtaken(c, Step(c, Step(c, m, close), clean), size)
  {
    hide Grants, Probed, FineStart, Step, Overtaken;
    GroundProbed(c, s, 0); GroundUnknown(s, 0);
    RoomCloses(c, s, size);
    CleanupLists(c, Step(c, Holding(s, size, Probed(c, s, 0)), CloseRoom(2, ROOM)), size);
  }

  /** The grant came after the listing: its upload is on nobody's list. */
  ghost predicate Missed(s: State, size: nat) {
    && s.tasks == map[2 := CleanNext(ROOM, {})] && ROOM in s.board.rooms && s.board.rooms[ROOM].phase == Cleaning
    && 0 in s.board.records && s.board.records[0].stage == Leaked && 0 in s.vault.ledger && s.vault.ledger[0] == size
  }

  lemma StrandsGranted(c: Config, s: State, size: nat)
    requires Overtaken(c, s, size)
    ensures var e := Resume(1, Granting(0, 0)); FineStart(c, s, e) && Missed(Step(c, s, e), size)
  {
    hide Grants, Decide, Measured, FineStart, Proceed;
    GrantStarts(c, s, size);
    GrantRegisters(c, s, 1, Granting(0, 0));
    assert s.tasks - {1} == map[2 := CleanNext(ROOM, {})];
  }

  lemma GrantStarts(c: Config, s: State, size: nat)
    requires Overtaken(c, s, size)
    ensures FineStart(c, s, Resume(1, Granting(0, 0)))
  {
    hide Grants, Decide, Measured;
  }

  lemma StrandsRemoving(c: Config, s: State, size: nat)
    requires Missed(s, size)
    ensures var clean := Resume(2, Granting(0, 0));
            && FineStart(c, s, clean)
            && var w := Step(c, s, clean);
            && w.tasks == map[2 := CleanRemoving(ROOM, 0)] && Missed(w.(tasks := map[2 := CleanNext(ROOM, {})]), size)
  {
  }

  lemma StrandsClosed(c: Config, s: State, size: nat)
    requires Missed(s.(tasks := map[2 := CleanNext(ROOM, {})]), size) && s.tasks == map[2 := CleanRemoving(ROOM, 0)]
    ensures var clean := Resume(2, Granting(0, 0));
            && FineStart(c, s, clean)
            && var w := Step(c, s, clean);
            && w.tasks == map[] && Stranded(w.board, 0) && 0 in w.vault.ledger && w.vault.ledger[0] == size
            && RoomAt(w.board, ROOM).phase == Closed
  {
  }

  lemma StrandsCleaned(c: Config, s: State, size: nat)
    requires Missed(s, size)
    ensures var clean := Resume(2, Granting(0, 0));
            && FineStart(c, s, clean) && FineStart(c, Step(c, s, clean), clean)
            && var w := Step(c, Step(c, s, clean), clean);
            && w.tasks == map[] && Stranded(w.board, 0) && 0 in w.vault.ledger && w.vault.ledger[0] == size
            && RoomAt(w.board, ROOM).phase == Closed
  {
    hide FineStart, Step, Stranded, Missed;
    StrandsRemoving(c, s, size);
    StrandsClosed(c, Step(c, s, Resume(2, Granting(0, 0))), size);
  }

  /**
   For every size that is granted at all: a run from the start that ends with nothing
   suspended, its only room closed, and the whole size still reserved.
   */
  lemma InitLeavesReservation(c: Config, s: State, size: nat)
    requires s == START && Roomy(c, 0) && size <= c.budget - c.headroom
    ensures var es := StrandingEvents(size);
            && Fine(c, s, es)
            && var w := After(c, s, es);
            && w.tasks == map[] && RoomAt(w.board, ROOM).phase == Closed
            && Stranded(w.board, 0) && 0 in w.vault.ledger && w.vault.ledger[0] == size
  {
    hide Legal, Orderly, Walks, MayStart, Disciplined, Accurate, ReadsUsage, Step, After,
         Holding, Probed, Overtaken, Missed;
    OpeningRun(c, s);
    var g := After(c, s, Opening());
    GroundCalm(g, 0); GroundUnknown(g, 0);
    var e, close, clean := Resume(1, Granting(0, 0)), CloseRoom(2, ROOM), Resume(2, Granting(0, 0));
    var held := [InitStart(1, ROOM, USER, size), e, e, e];
    HoldRun(c, g, 0, size, 0);
    FineConcat(c, s, Opening(), held);
    var m := After(c, s, Opening() + held);
    ClosesUnder(c, g, size);
    var o := Step(c, Step(c, m, close), clean);
    StrandsGranted(c, o, size); StrandsCleaned(c, Step(c, o, e), size);
    assert [close] + [clean] == [close, clean];
    FineOne(c, m, close);
    FineMore(c, m, [close], clean);
    FineThree(c, o, e, clean, clean);
    FineConcat(c, m, [close, clean], [e, clean, clean]);
    assert [close, clean] + [e, clean, clean] == [close, clean, e, clean, clean];
    FineConcat(c, s, Opening() + held, [close, clean, e, clean, clean]);
  }

  // ------------------------------------------------------------------
  // Two requests on one upload
  // ------------------------------------------------------------------

  function OverlapEvents(n: nat): seq<Event> {
    RunTo(0) + AdmitEvents(0, n, 0) + [PutStart(1, 0, 0), PutStart(2, 0, 0)]
  }

  /** For every n that is granted at all: a run from the start that reaches two overlapping requests. */
  lemma OverlapIsReached(c: Config, s: State, n: nat)
    requires s == START && Roomy(c, 0) && 0 < n <= c.budget - c.headroom
    ensures Legal(c, s, OverlapEvents(n)) && Overlap(After(c, s, OverlapEvents(n)), 1, 2, 0, n)
    ensures var w := After(c, s, OverlapEvents(n));
            Resolve(w.board, 0) == Some(ROOM) && 3 !in w.tasks && RecordAt(w.board, 0).lastActivity == 0
  {
    hide Resolve, Orderly, Walks, Ground, Calm, Empty, Probed, Admitted, Unknown, Grants, Overlap, Legal, After,
         MayStart, Step;
    GroundRun(c, s, 0);
    var g := After(c, s, RunTo(0));
    GroundCalm(g, 0); GroundUnknown(g, 0); GroundProbed(c, g, 0);
    AdmitRun(c, g, 0, n, 0);
    FineConcat(c, s, RunTo(0), AdmitEvents(0, n, 0));
    var m := After(c, s, RunTo(0) + AdmitEvents(0, n, 0));
    NextEmpty(c, g, 0, n);
    EmptyOverlaps(c, m, 0, n);
    var es, e1, e2 := RunTo(0) + AdmitEvents(0, n, 0), PutStart(1, 0, 0), PutStart(2, 0, 0);
    LegalMore(c, s, es, e1);
    LegalMore(c, s, es + [e1], e2);
    assert es + [e1] + [e2] == OverlapEvents(n);
  }

  lemma EmptyOverlaps(c: Config, s: State, u: Id, n: nat)
    requires Empty(s, u, n)
    ensures var e1, e2 := PutStart(1, u, 0), PutStart(2, u, 0);
            && MayStart(c, s, e1) && MayStart(c, Step(c, s, e1), e2)
            && Overlap(Step(c, Step(c, s, e1), e2), 1, 2, u, n)
            && var w := Step(c, Step(c, s, e1), e2);
            && Resolve(w.board, u) == Some(ROOM) && 3 !in w.tasks
            && RecordAt(w.board, u).lastActivity == s.board.records[u].lastActivity
  {
    TwoRequestsOverlap(c, s, 1, 2, u, n);
  }

  // ------------------------------------------------------------------
  // An upload reaped while it is being received
  // ------------------------------------------------------------------

  /** The first request ends and lowers the flag, the second one is slow, and a sweep looks at the upload. */
  function ReapEvents(c: Config, t1: Id, t3: Id, r: Id, u: Id, wait: nat): seq<Event> {
    [Resume(t1, Ending), Tick(wait), SweepStart(t3), Resume(t3, Granting(r, 0)), Resume(t3, Granting(u, 0))]
  }

  /** A sweep that has room r before it, with a stale upload u that task t2 is receiving. */
  ghost predicate Doomed(c: Config, s: State, t2: Id, t3: Id, r: Id, u: Id) {
    && t2 in s.tasks && s.tasks[t2] == Streaming(u)
    && t3 in s.tasks && s.tasks[t3].Sweeping? && s.tasks[t3].loop.todo == {} && r in s.tasks[t3].loop.rooms
    && u in RoomAt(s.board, r).uploads && u in s.board.records && s.board.records[u].room == r
    && RoomAt(s.board, r).phase == Open
    && IsStale(s.board.records[u].writing, s.board.records[u].lastActivity, s.tasks[t3].loop.start, c.staleMs)
  }

  /** Task t3 has taken upload u out of room r, which is still open, and task t2 goes on receiving it. */
  ghost predicate Received(s: State, t2: Id, t3: Id, r: Id, u: Id) {
    && t2 in s.tasks && s.tasks[t2] == Streaming(u) && u !in RoomAt(s.board, r).uploads
    && RoomAt(s.board, r).phase == Open
    && t3 in s.tasks && s.tasks[t3].SweepReleasing? && s.tasks[t3].u == u
  }

  lemma FlagLowered(c: Config, s: State, t1: Id, t2: Id, t3: Id, u: Id, n: nat, r: Id, wait: nat)
    requires Overlap(s, t1, t2, u, n) && Resolve(s.board, u) == Some(r) && t3 !in s.tasks
    requires RoomAt(s.board, r).phase == Open
    requires s.board.records[u].room == r && s.board.records[u].lastActivity + c.staleMs <= s.now + wait
    ensures var e1, e2, e3 := Resume(t1, Ending), Tick(wait), SweepStart(t3);
            && MayStart(c, s, e1) && MayStart(c, Step(c, s, e1), e2) && MayStart(c, Step(c, Step(c, s, e1), e2), e3)
            && Doomed(c, Step(c, Step(c, Step(c, s, e1), e2), e3), t2, t3, r, u)
  {
  }

  lemma StillReaped(c: Config, s: State, t2: Id, t3: Id, r: Id, u: Id)
    requires Doomed(c, s, t2, t3, r, u)
    ensures var e1, e2 := Resume(t3, Granting(r, 0)), Resume(t3, Granting(u, 0));
            && MayStart(c, s, e1) && MayStart(c, Step(c, s, e1), e2)
            && var m, w := Step(c, s, e1), Step(c, Step(c, s, e1), e2);
            && Delists(m.board, w.board, u)
            && Received(w, t2, t3, r, u)
  {
  }

  /**
   The flag does not protect an upload that two requests receive: from any such overlap, once the
   first request has ended and the second has been silent for the stale time, a sweep takes the
   upload out although the second request goes on.
   */
  lemma ReapedWhileReceived(c: Config, s: State, t1: Id, t2: Id, t3: Id, u: Id, n: nat, r: Id, wait: nat)
    requires Overlap(s, t1, t2, u, n) && Resolve(s.board, u) == Some(r) && t3 !in s.tasks
    requires RoomAt(s.board, r).phase == Open
    requires s.board.records[u].room == r && s.board.records[u].lastActivity + c.staleMs <= s.now + wait
    ensures var es := ReapEvents(c, t1, t3, r, u, wait);
            && Legal(c, s, es)
            && var w := After(c, s, es);
            && Received(w, t2, t3, r, u)
  {
    hide Legal, After, MayStart, Step, Overlap, Doomed;
    var e1, e2, e3 := Resume(t1, Ending), Tick(wait), SweepStart(t3);
    var e4, e5 := Resume(t3, Granting(r, 0)), Resume(t3, Granting(u, 0));
    FlagLowered(c, s, t1, t2, t3, u, n, r, wait);
    StillReaped(c, Step(c, Step(c, Step(c, s, e1), e2), e3), t2, t3, r, u);
    NothingRun(c, s);
    assert [] + [e1] == [e1] && [e1] + [e2] == [e1, e2] && [e1, e2] + [e3] == [e1, e2, e3];
    assert [e1, e2, e3] + [e4] == [e1, e2, e3, e4] && [e1, e2, e3, e4] + [e5] == [e1, e2, e3, e4, e5];
    LegalMore(c, s, [], e1);
    LegalMore(c, s, [e1], e2);
    LegalMore(c, s, [e1, e2], e3);
    LegalMore(c, s, [e1, e2, e3], e4);
    LegalMore(c, s, [e1, e2, e3, e4], e5);
  }

  /** For every size that is granted at all: a run from the start in which an upload is reaped while it is received. */
  lemma ReapedFromStart(c: Config, s: State, n: nat)
    requires s == START && Roomy(c, 0) && 0 < n <= c.budget - c.headroom
    ensures var es := OverlapEvents(n) + ReapEvents(c, 1, 3, ROOM, 0, c.staleMs);
            && Legal(c, s, es)
            && var w := After(c, s, es);
            && Written(w, 0) && Received(w, 2, 3, ROOM, 0)
  {
    hide Legal, After, Overlap, Resolve;
    OverlapIsReached(c, s, n);
    var m := After(c, s, OverlapEvents(n));
    Arrives(c, s, OverlapEvents(n));
    Resolved(c, m, 0);
    ReapedWhileReceived(c, m, 1, 2, 3, 0, n, ROOM, c.staleMs);
    RunConcat(c, s, OverlapEvents(n), ReapEvents(c, 1, 3, ROOM, 0, c.staleMs));
    assert Writes(After(c, m, ReapEvents(c, 1, 3, ROOM, 0, c.staleMs)), 2, 0);
  }
}
