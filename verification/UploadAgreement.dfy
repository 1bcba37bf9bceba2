/**
 Runs in which the requests on one upload do not overlap each other or its teardown.
 Declared, landed, committed, reserved and stored bytes then agree, upload by upload.
 Requests on different uploads, sweeps, cleanups and inits interleave freely.
 */
module UploadAgreement {
  import opened Basics
  import opened Vault
  import opened UploadMachine
  import opened BoardSafety
  import opened UploadSafety
  import opened UploadStanding
  import opened UploadFigures
  import opened UploadWriting

  /** No request is under way on this upload. */
  ghost predicate Quiet(s: State, u: Id) {
    forall t | t in s.tasks :: !(s.tasks[t].IsClient() && s.tasks[t].u == u)
  }

  /** No request is completing this upload. */
  ghost predicate Uncompleted(s: State, u: Id) {
    forall t | t in s.tasks && s.tasks[t].IsEnd() && s.tasks[t].IsClient() :: s.tasks[t].u != u
  }

  /**
   Requests and cleanups begin only on uploads with no request under way, and no sweep takes an
   upload in the middle of its completion. That none takes an upload being received is proved.
   */
  ghost predicate Disciplined(c: Config, s: State, e: Event) {
    match e
    case PutStart(_, u, _) => Quiet(s, u)
    case CompleteStart(_, u) => Quiet(s, u)
    case AbortStart(_, u) => Quiet(s, u)
    case Resume(t, ch) =>
      t in s.tasks ==>
        && (s.tasks[t].CleanNext? && s.tasks[t].todo != {} ==> Quiet(s, ch.u))
        && (s.tasks[t].Sweeping? && s.tasks[t].loop.todo != {} && !SweepSkips(c, s.board, s.tasks[t].loop, ch.u) ==>
              Uncompleted(s, ch.u))
    case _ => true
  }

  ghost predicate Orderly(c: Config, s: State, es: seq<Event>)
    requires Legal(c, s, es)
    decreases |es|
  {
    es != [] ==> Disciplined(c, s, es[0]) && Orderly(c, Step(c, s, es[0]), es[1..])
  }

  // ------------------------------------------------------------------
  // The invariant
  // ------------------------------------------------------------------

  /** What a request on an upload knows about it. */
  predicate ClientExact(x: View, task: Task) {
    match task
    case Appending(_, n) => 0 < n && x.rec.committed + n <= x.terms.declared
    case Appended(_, size) => size == x.terms.landed
    case Shrinking(_, remaining) => remaining == x.terms.declared - x.terms.landed
    case Sized(_, actual) => actual == x.terms.landed
    case Committing(_) => x.terms.landed == x.terms.declared
    case Renamed(_) => x.terms.landed == x.terms.declared && 0 < x.terms.landed
    case _ => true
  }

  /** A live upload's counters agree, but for the one that its request is about to bring up to date. */
  predicate LiveExact(x: View) {
    && x.terms.landed <= x.terms.declared
    && ((x.client.Some? && x.client.value.Appended?) || x.rec.committed == x.terms.landed)
    && ((x.client.Some? && x.client.value.Shrinking?)
        || (x.reserved.Some? && x.reserved.value == x.terms.declared - x.rec.committed))
    && (x.part == if x.terms.landed == 0 || (x.client.Some? && x.client.value.Renamed?) then None
                  else Some(x.terms.landed))
  }

  predicate Exact(x: View) {
    && (x.client.Some? ==> x.rec.stage == Live && ClientExact(x, x.client.value))
    && (x.rec.stage == Live ==> LiveExact(x))
    && (x.rec.stage == Leaked ==>
          x.rec.committed == 0 && x.terms.landed == 0 && x.part == None && x.reserved == Some(x.terms.declared))
    && (x.rec.stage == Done ==> x.part == None)
  }

  /** A request is the one its upload knows, and a completed upload has no part left. */
  ghost predicate TaskExact(s: State, t: Id)
    requires t in s.tasks
  {
    var task := s.tasks[t];
    && (task.IsClient() ==> task.u in s.board.records && s.board.records[task.u].client == t)
    && (task.Releasing? && task.why == Completed ==> PartOf(s.board, task.u) !in s.vault.disk)
  }

  /** Every part lies in the directory of its upload's room. */
  ghost predicate AtHome(b: Board, v: Vault) {
    forall r, u | Part(r, u) in v.disk :: u in b.records && b.records[u].room == r
  }

  /** What every reading of the available space is worth at least, as long as nothing is understated. */
  function Floor(c: Config): nat {
    Min(c.headroom, if c.budget == 0 then c.capacity else Min(c.capacity, c.budget))
  }

  /** The cached usage and the re-check readings, up to debt and excess. */
  ghost predicate Figures(c: Config, s: State) {
    && (c.budget == 0 ==> s.vault.debt == 0 && s.vault.excess == 0)
    && (c.budget != 0 && s.vault.cache.Some? ==>
          s.vault.cache.value.bytes <= Max(0, c.budget - c.headroom) + s.vault.debt + s.vault.excess)
    && (forall t | t in s.tasks && s.tasks[t].Rechecked? ::
          Floor(c) <= s.tasks[t].reading + s.vault.debt + s.vault.excess)
  }

  /** No byte was ever written without cover, and everything that is counted agrees. */
  ghost predicate Exactly(c: Config, s: State) {
    && s.vault.stray == 0 && AtHome(s.board, s.vault) && Figures(c, s) && FlagsOk(s)
    && (forall u | u in s.board.records :: Exact(See(s, u)))
    && (forall t | t in s.tasks :: TaskExact(s, t))
  }

  // ------------------------------------------------------------------
  // The upload a step is about
  // ------------------------------------------------------------------

  /** A request's own upload, seen by the request. */
  ghost predicate Clear(s: State, t: Id, u: Id) {
    && t in s.tasks && u in s.board.records && s.tasks[t].IsClient() && s.tasks[t].u == u
    && s.board.records[u].client == t && Stands(See(s, u)) && Exact(See(s, u))
  }

  lemma LandExact(c: Config, s: State, t: Id, u: Id, ch: Choice)
    requires Clear(s, t, u) && s.tasks[t].Appending?
    ensures Exact(See(PutStep(c, s, t, s.tasks[t], ch), u))
  {
  }

  lemma LandCovered(c: Config, s: State, t: Id, u: Id, ch: Choice)
    requires Clear(s, t, u) && s.tasks[t].Appending?
    ensures PutStep(c, s, t, s.tasks[t], ch).vault.stray == s.vault.stray
  {
  }

  lemma CountExact(c: Config, s: State, t: Id, u: Id, ch: Choice)
    requires Clear(s, t, u) && (s.tasks[t].Appended? || s.tasks[t].Shrinking?)
    ensures Exact(See(PutStep(c, s, t, s.tasks[t], ch), u))
  {
  }

  lemma StreamExact(c: Config, s: State, t: Id, u: Id, ch: Choice)
    requires Clear(s, t, u) && s.tasks[t].Streaming?
    ensures Exact(See(PutStep(c, s, t, s.tasks[t], ch), u))
  {
  }

  lemma RecheckingExact(c: Config, s: State, t: Id, u: Id, ch: Choice)
    requires Clear(s, t, u) && s.tasks[t].Rechecking?
    ensures Exact(See(PutStep(c, s, t, s.tasks[t], ch), u))
  {
    hide Measured;
  }

  lemma RecheckedExact(c: Config, s: State, t: Id, u: Id, ch: Choice)
    requires Clear(s, t, u) && s.tasks[t].Rechecked?
    ensures Exact(See(PutStep(c, s, t, s.tasks[t], ch), u))
  {
  }

  lemma PutExact(c: Config, s: State, t: Id, ch: Choice)
    requires t in s.tasks && s.tasks[t].IsPut() && Clear(s, t, s.tasks[t].u)
    ensures Exact(See(PutStep(c, s, t, s.tasks[t], ch), s.tasks[t].u))
    ensures PutStep(c, s, t, s.tasks[t], ch).vault.stray == s.vault.stray
  {
    hide Exact, See;
    var u := s.tasks[t].u;
    if s.tasks[t].Appending? { LandExact(c, s, t, u, ch); LandCovered(c, s, t, u, ch); }
    else if s.tasks[t].Appended? || s.tasks[t].Shrinking? { CountExact(c, s, t, u, ch); }
    else if s.tasks[t].Rechecking? { RecheckingExact(c, s, t, u, ch); }
    else if s.tasks[t].Rechecked? { RecheckedExact(c, s, t, u, ch); }
    else { StreamExact(c, s, t, u, ch); }
  }

  lemma CommitExact(s: State, t: Id, ch: Choice)
    requires t in s.tasks && s.tasks[t].IsEnd() && s.tasks[t].IsClient() && Clear(s, t, s.tasks[t].u)
    ensures Exact(See(EndStep(s, t, s.tasks[t], ch), s.tasks[t].u))
  {
    hide Exact, See, EndStep;
    if s.tasks[t].Renamed? { RenamedExact(s, t, ch, s.tasks[t].u); }
    else if s.tasks[t].Committing? { CommittedExact(s, t, ch, s.tasks[t].u); }
    else { SizedExact(s, t, ch, s.tasks[t].u); }
  }

  lemma SizedExact(s: State, t: Id, ch: Choice, u: Id)
    requires Clear(s, t, u) && (s.tasks[t].Sizing? || s.tasks[t].Sized?)
    ensures Exact(See(EndStep(s, t, s.tasks[t], ch), u))
  {
  }

  lemma CommittedExact(s: State, t: Id, ch: Choice, u: Id)
    requires Clear(s, t, u) && s.tasks[t].Committing?
    ensures Exact(See(EndStep(s, t, s.tasks[t], ch), u))
  {
  }

  lemma RenamedExact(s: State, t: Id, ch: Choice, u: Id)
    requires Clear(s, t, u) && s.tasks[t].Renamed?
    ensures Exact(See(EndStep(s, t, s.tasks[t], ch), u))
  {
  }

  lemma EndExact(s: State, t: Id, ch: Choice)
    requires t in s.tasks && (s.tasks[t].Releasing? || s.tasks[t].Discarding?) && s.tasks[t].u in s.board.records
    requires TaskExact(s, t) && TornOut(s, t) && Exact(See(s, s.tasks[t].u))
    ensures Exact(See(EndStep(s, t, s.tasks[t], ch), s.tasks[t].u))
  {
    hide Exact, See;
    if s.tasks[t].Releasing? { ReleasedExact(s, t, ch, s.tasks[t].u); } else { DiscardedExact(s, t, ch, s.tasks[t].u); }
  }

  lemma ReleasedExact(s: State, t: Id, ch: Choice, u: Id)
    requires t in s.tasks && s.tasks[t].Releasing? && u == s.tasks[t].u && u in s.board.records
    requires TaskExact(s, t) && TornOut(s, t) && Exact(See(s, u))
    ensures Exact(See(EndStep(s, t, s.tasks[t], ch), u))
  {
    hide Exact, See;
    if s.tasks[t].why == Completed { LastReleaseExact(s, t, u); } else { GivenBackExact(s, t, u, s.tasks[t].why); }
  }

  lemma LastReleaseExact(s: State, t: Id, u: Id)
    requires t in s.tasks && s.tasks[t] == Releasing(u, Completed) && u in s.board.records
    requires TaskExact(s, t) && TornOut(s, t) && Exact(See(s, u))
    ensures var b := SetRecord(s.board, u, Finish(GiveBack(s.board.records[u], t)));
            Exact(See(Stop(s, t, b, Release(s.vault, u)), u))
  {
  }

  lemma GivenBackExact(s: State, t: Id, u: Id, why: Why)
    requires t in s.tasks && s.tasks[t] == Releasing(u, why) && u in s.board.records
    requires TornOut(s, t) && Exact(See(s, u))
    ensures var b := SetRecord(s.board, u, GiveBack(s.board.records[u], t));
            Exact(See(Go(s, t, b, Release(s.vault, u), Discarding(u, why)), u))
  {
  }

  lemma DiscardedExact(s: State, t: Id, ch: Choice, u: Id)
    requires t in s.tasks && s.tasks[t].Discarding? && u == s.tasks[t].u && u in s.board.records
    requires TornOut(s, t) && Exact(See(s, u))
    ensures Exact(See(EndStep(s, t, s.tasks[t], ch), u))
  {
  }

  /** The sweep and the cleanup, on one upload: taking it out, giving back, deleting the part. */
  lemma TearDownExact(c: Config, s: State, t: Id, ch: Choice, u: Id)
    requires t in s.tasks && u in s.board.records && Exact(See(s, u)) && TornOut(s, t)
    requires
      || s.tasks[t].SweepReleasing? || s.tasks[t].SweepDiscarding?
      || s.tasks[t].CleanReleasing? || s.tasks[t].CleanDiscarding?
    requires s.tasks[t].u == u
    ensures var w := if s.tasks[t].IsSweep() then SweepStep(c, s, t, s.tasks[t], ch)
                     else CleanStep(s, t, s.tasks[t], ch);
            Exact(See(w, u))
  {
    hide Exact, See, SweepStep, CleanStep, TornOut;
    if s.tasks[t].IsSweep() { SweepTornExact(c, s, t, ch, u); } else { CleanTornExact(s, t, ch, u); }
  }

  lemma SweepTornExact(c: Config, s: State, t: Id, ch: Choice, u: Id)
    requires t in s.tasks && u in s.board.records && Exact(See(s, u)) && TornOut(s, t)
    requires (s.tasks[t].SweepReleasing? || s.tasks[t].SweepDiscarding?) && s.tasks[t].u == u
    ensures Exact(See(SweepStep(c, s, t, s.tasks[t], ch), u))
  {
  }

  lemma CleanTornExact(s: State, t: Id, ch: Choice, u: Id)
    requires t in s.tasks && u in s.board.records && Exact(See(s, u)) && TornOut(s, t)
    requires (s.tasks[t].CleanReleasing? || s.tasks[t].CleanDiscarding?) && s.tasks[t].u == u
    ensures Exact(See(CleanStep(s, t, s.tasks[t], ch), u))
  {
  }

  lemma QuietSeen(s: State, u: Id)
    requires u in s.board.records && Quiet(s, u)
    ensures See(s, u).client == None
  {
  }

  lemma TakeOutExact(c: Config, s: State, t: Id, ch: Choice)
    requires t in s.tasks && ch.u in s.board.records && Quiet(s, ch.u) && Exact(See(s, ch.u))
    requires (s.tasks[t].Sweeping? && s.tasks[t].loop.todo != {} && !SweepSkips(c, s.board, s.tasks[t].loop, ch.u))
          || (s.tasks[t].CleanNext? && s.tasks[t].todo != {})
    ensures var w := if s.tasks[t].IsSweep() then SweepStep(c, s, t, s.tasks[t], ch)
                     else CleanStep(s, t, s.tasks[t], ch);
            Exact(See(w, ch.u))
  {
    QuietSeen(s, ch.u);
  }

  lemma RequestExact(c: Config, s: State, e: Event)
    requires e.PutStart? || e.CompleteStart? || e.AbortStart?
    requires e.t !in s.tasks && e.u in s.board.records && Quiet(s, e.u) && Stands(See(s, e.u)) && Exact(See(s, e.u))
    requires RoomAt(s.board, s.board.records[e.u].room).phase == Open
    requires e.u in RoomAt(s.board, s.board.records[e.u].room).uploads
    ensures Exact(See(Begin(s, e), e.u))
  {
    QuietSeen(s, e.u);
  }

  lemma RegisterExact(c: Config, s: State, t: Id, r: Id, size: nat, ch: Choice)
    requires s.vault.hold.Ready? && Grants(c, s.vault, size) && Part(r, ch.u) !in s.vault.disk
    ensures Exact(See(HoldStep(c, s, t, r, size, ch), ch.u))
  {
  }

  lemma CloseExact(s: State, e: Event, u: Id)
    requires e.CloseRoom? && e.t !in s.tasks && e.r in s.board.rooms && s.board.rooms[e.r].phase == Open
    requires u in s.board.records && Exact(See(s, u))
    ensures Exact(See(Begin(s, e), u))
  {
  }

  lemma CleanedExact(s: State, t: Id, ch: Choice, u: Id)
    requires t in s.tasks && CleanOk(s.board, t, s.tasks[t]) && u in s.board.records && MovesRoom(s.tasks[t], ch)
    requires s.board.records[u].room == s.tasks[t].r
    requires Stands(See(s, u)) && Exact(See(s, u)) && TornOut(s, t)
    ensures Exact(See(CleanStep(s, t, s.tasks[t], ch), u))
  {
    hide Exact, See, Stands, CleanOk;
    if s.tasks[t].CleanRemoving? { RemovedExact(s, t, ch, u); }
    else if s.tasks[t].CleanDiscarding? { AbandonedExact(s, t, ch, u); }
    else { EmptiedExact(s, t, ch, u); }
  }

  lemma EmptiedExact(s: State, t: Id, ch: Choice, u: Id)
    requires t in s.tasks && u in s.board.records && Exact(See(s, u))
    requires s.tasks[t].CleanStart? || (s.tasks[t].CleanNext? && s.tasks[t].todo == {})
    ensures Exact(See(CleanStep(s, t, s.tasks[t], ch), u))
  {
  }

  lemma AbandonedExact(s: State, t: Id, ch: Choice, u: Id)
    requires t in s.tasks && u in s.board.records && Exact(See(s, u)) && TornOut(s, t)
    requires s.tasks[t].CleanDiscarding? && !ch.flag && s.board.records[u].room == s.tasks[t].r
    requires CleanOk(s.board, t, s.tasks[t])
    ensures Exact(See(CleanStep(s, t, s.tasks[t], ch), u))
  {
    assert s.tasks[t].Names(s.tasks[t].u);
  }

  lemma RemovedExact(s: State, t: Id, ch: Choice, u: Id)
    requires t in s.tasks && CleanOk(s.board, t, s.tasks[t]) && u in s.board.records
    requires s.tasks[t].CleanRemoving? && s.board.records[u].room == s.tasks[t].r
    requires Stands(See(s, u)) && Exact(See(s, u))
    ensures Exact(See(CleanStep(s, t, s.tasks[t], ch), u))
  {
  }

  // ------------------------------------------------------------------
  // The other tasks, and the disk
  // ------------------------------------------------------------------

  /**
   What no step of task t does: touch another task, move a record, hand an upload to another
   request, or put a part on the disk other than the one its request is appending to.
   */
  ghost predicate Mild(s: State, w: State, t: Id) {
    && OneMoves(s, w, t)
    && (forall u | u in s.board.records ::
          && u in w.board.records && w.board.records[u].room == s.board.records[u].room
          && w.board.records[u].client == s.board.records[u].client)
    && (forall r, u | Part(r, u) in w.vault.disk && Part(r, u) !in s.vault.disk ::
          u in s.board.records && s.board.records[u].room == r
          && t in s.tasks && s.tasks[t].Appending? && s.tasks[t].u == u)
  }

  lemma PutMild(c: Config, s: State, t: Id, ch: Choice)
    requires t in s.tasks && s.tasks[t].IsPut() && s.tasks[t].u in s.board.records
    ensures Mild(s, PutStep(c, s, t, s.tasks[t], ch), t)
  {
  }

  lemma EndMild(s: State, t: Id, ch: Choice)
    requires t in s.tasks && s.tasks[t].IsEnd() && s.tasks[t].u in s.board.records
    ensures Mild(s, EndStep(s, t, s.tasks[t], ch), t)
  {
  }

  lemma SweepMild(c: Config, s: State, t: Id, ch: Choice)
    requires t in s.tasks && s.tasks[t].IsSweep() && MayResume(s, s.tasks[t], ch)
    requires forall u | s.tasks[t].Names(u) :: u in s.board.records
    ensures Mild(s, SweepStep(c, s, t, s.tasks[t], ch), t)
  {
    assert s.tasks[t].Names(if s.tasks[t].Sweeping? then ch.u else s.tasks[t].u) || s.tasks[t].loop.todo == {};
  }

  lemma CleanMild(s: State, t: Id, ch: Choice)
    requires t in s.tasks && s.tasks[t].IsClean() && MayResume(s, s.tasks[t], ch)
    requires forall u | s.tasks[t].Names(u) :: u in s.board.records
    ensures Mild(s, CleanStep(s, t, s.tasks[t], ch), t)
  {
    assert s.tasks[t].CleanNext? && s.tasks[t].todo != {} ==> s.tasks[t].Names(ch.u);
    assert s.tasks[t].CleanReleasing? || s.tasks[t].CleanDiscarding? ==> s.tasks[t].Names(s.tasks[t].u);
  }

  lemma OtherMild(c: Config, s: State, t: Id, ch: Choice)
    requires t in s.tasks && MayResume(s, s.tasks[t], ch)
    requires s.tasks[t].MakingDirs? || s.tasks[t].InitWaiting? || s.tasks[t].InitHolding? || s.tasks[t].Unlinking?
    ensures Mild(s, Proceed(c, s, t, ch), t)
  {
    hide Mild, HoldStep, MayResume;
    if s.tasks[t].InitHolding? { HoldMild(c, s, t, ch); } else { PlainMild(c, s, t, ch); }
  }

  lemma HoldMild(c: Config, s: State, t: Id, ch: Choice)
    requires t in s.tasks && s.tasks[t].InitHolding? && MayResume(s, s.tasks[t], ch)
    ensures Mild(s, HoldStep(c, s, t, s.tasks[t].r, s.tasks[t].size, ch), t)
  {
    hide Measured, Grants;
  }

  lemma PlainMild(c: Config, s: State, t: Id, ch: Choice)
    requires t in s.tasks && (s.tasks[t].MakingDirs? || s.tasks[t].InitWaiting? || s.tasks[t].Unlinking?)
    ensures Mild(s, Proceed(c, s, t, ch), t)
  {
  }

  lemma ProceedMild(c: Config, s: State, t: Id, ch: Choice)
    requires TasksOk(s) && t in s.tasks && MayResume(s, s.tasks[t], ch)
    ensures Mild(s, Proceed(c, s, t, ch), t)
  {
    hide Mild, MayResume;
    var task := s.tasks[t];
    assert TaskOk(s.board, s.vault, t, task);
    assert task.IsPut() || task.IsEnd() ==> task.Names(task.u);
    if task.IsPut() { PutMild(c, s, t, ch); }
    else if task.IsEnd() { EndMild(s, t, ch); }
    else if task.IsSweep() { SweepMild(c, s, t, ch); }
    else if task.IsClean() { CleanMild(s, t, ch); }
    else { OtherMild(c, s, t, ch); }
  }

  lemma NextRequestExact(c: Config, s: State, t: Id, ch: Choice)
    requires t in s.tasks && s.tasks[t].IsPut() && s.tasks[t].u in s.board.records && TaskExact(s, t)
    ensures var w := PutStep(c, s, t, s.tasks[t], ch); t in w.tasks ==> TaskExact(w, t)
  {
    hide Measured;
  }

  /** Sweeps, cleanups and inits know nothing that could be disturbed. */
  lemma TornDownExact(c: Config, s: State, t: Id, ch: Choice)
    requires t in s.tasks && !s.tasks[t].IsPut() && !s.tasks[t].IsEnd()
    ensures var w := Proceed(c, s, t, ch); t in w.tasks ==> TaskExact(w, t)
  {
    hide Measured, Grants, Decide;
  }

  lemma NextEndExact(s: State, t: Id, ch: Choice)
    requires t in s.tasks && s.tasks[t].IsEnd() && s.tasks[t].u in s.board.records && TaskExact(s, t)
    requires Exact(See(s, s.tasks[t].u))
    ensures var w := EndStep(s, t, s.tasks[t], ch); t in w.tasks ==> TaskExact(w, t)
  {
  }

  lemma NextExact(c: Config, s: State, t: Id, ch: Choice)
    requires Safe(c, s) && Exactly(c, s) && t in s.tasks && MayResume(s, s.tasks[t], ch)
    ensures var w := Proceed(c, s, t, ch); t in w.tasks ==> TaskExact(w, t)
  {
    hide Safe, Exact, See, Measured, AtHome, Figures, PutStep, EndStep, MayResume, TaskExact;
    assert TaskExact(s, t);
    if s.tasks[t].IsPut() { NamedOnRecord(c, s, t, s.tasks[t].u); NextRequestExact(c, s, t, ch); }
    else if s.tasks[t].IsEnd() { NamedOnRecord(c, s, t, s.tasks[t].u); NextEndExact(s, t, ch); }
    else { TornDownExact(c, s, t, ch); }
  }

  /** No other task's knowledge is disturbed. */
  lemma OtherTaskExact(s: State, w: State, t: Id, i: Id)
    requires Mild(s, w, t) && i in w.tasks && i != t && i in s.tasks && TaskExact(s, i) && TornOut(s, i)
    requires t in s.tasks ==> TaskExact(s, t)
    requires forall u | u in s.board.records :: Exact(See(s, u))
    requires forall u | s.tasks[i].Names(u) :: u in s.board.records
    ensures TaskExact(w, i)
  {
    OthersTasks(s, w, t, i);
    var task := s.tasks[i];
    assert task.Releasing? ==> task.Names(task.u) && TearsDown(task, task.u);
    assert t in s.tasks && s.tasks[t].Appending? ==> See(s, s.tasks[t].u).client == Some(s.tasks[t]);
  }

  lemma OtherTasksExact(c: Config, s: State, t: Id, ch: Choice)
    requires Safe(c, s) && Standing(s) && Exactly(c, s) && t in s.tasks && MayResume(s, s.tasks[t], ch)
    ensures forall i | i in Proceed(c, s, t, ch).tasks :: TaskExact(Proceed(c, s, t, ch), i)
  {
    hide Sound, PartsOk, BoardOk, Exact, See, Stands, TornOut, Attended, AtHome, TaskExact, Mild, Proceed, MayResume;
    var w := Proceed(c, s, t, ch);
    ProceedMild(c, s, t, ch);
    NextExact(c, s, t, ch);
    forall i | i in w.tasks ensures TaskExact(w, i) {
      if i != t {
        MildTask(s, w, t, i);
        assert TaskOk(s.board, s.vault, i, s.tasks[i]);
        OtherTaskExact(s, w, t, i);
      }
    }
  }

  lemma MildTask(s: State, w: State, t: Id, i: Id)
    requires Mild(s, w, t) && i != t
    ensures Find(w.tasks, i) == Find(s.tasks, i)
  {
    OthersTasks(s, w, t, i);
  }

  lemma MildHome(s: State, w: State, t: Id)
    requires AtHome(s.board, s.vault) && Mild(s, w, t)
    ensures AtHome(w.board, w.vault)
  {
  }

  // ------------------------------------------------------------------
  // The figures
  // ------------------------------------------------------------------

  lemma CacheStep(c: Config, v: Vault, w: Vault, now: nat, figure: nat)
    requires Sound(c, v) && v.stray == 0 && Moves(c, v, w, now, figure)
    requires c.budget != 0 && (v.cache.Some? ==>
               v.cache.value.bytes <= Max(0, c.budget - c.headroom) + v.debt + v.excess)
    ensures w.cache.Some? ==> w.cache.value.bytes <= Max(0, c.budget - c.headroom) + w.debt + w.excess
  {
  }

  /** A re-check never sees less than the floor, up to debt and excess. */
  lemma RecheckReads(c: Config, s: State, t: Id, ch: Choice)
    requires Sound(c, s.vault) && s.vault.stray == 0 && Figures(c, s)
    requires t in s.tasks && s.tasks[t].Rechecking?
    ensures var w := PutStep(c, s, t, s.tasks[t], ch);
            w.tasks[t].Rechecked? && Floor(c) <= w.tasks[t].reading + w.vault.debt + w.vault.excess
  {
    hide Covers, HoldSound;
    SoundMeans(c, s.vault);
  }

  /** Only a re-check in progress comes to a reading. */
  lemma NewReading(c: Config, s: State, e: Event)
    requires MayStart(c, s, e)
    ensures var w := Step(c, s, e);
            forall t | t in w.tasks && w.tasks[t].Rechecked? ::
              || (t in s.tasks && w.tasks[t] == s.tasks[t])
              || (e.Resume? && e.t == t && s.tasks[t].Rechecking?)
  {
    hide Measured, Grants, Decide, MayResume;
  }

  lemma FiguresStep(c: Config, s: State, e: Event)
    requires Safe(c, s) && s.vault.stray == 0 && Figures(c, s) && MayStart(c, s, e)
    ensures Figures(c, Step(c, s, e))
  {
    hide Sound, PartsOk, BoardOk, TasksOk, Measured, Proceed, Begin, MayResume, CacheMoves, HoldMoves, Floor;
    var v, w := s.vault, Step(c, s, e);
    StepMoves(c, s, e);
    NewReading(c, s, e);
    FiguresKept(c, v, w.vault, s.now, Figure(e));
    if c.budget != 0 { CacheStep(c, v, w.vault, s.now, Figure(e)); }
    if e.Resume? && s.tasks[e.t].Rechecking? { RecheckReads(c, s, e.t, e.ch); GoesOnPut(c, s, e.t, e.ch); }
  }

  lemma FiguresKept(c: Config, v: Vault, w: Vault, now: nat, figure: nat)
    requires Moves(c, v, w, now, figure)
    ensures v.debt <= w.debt && v.excess <= w.excess
    ensures c.budget == 0 ==> w.debt == v.debt && w.excess == v.excess
  {
  }

  lemma GoesOnPut(c: Config, s: State, t: Id, ch: Choice)
    requires t in s.tasks && s.tasks[t].IsPut()
    ensures Proceed(c, s, t, ch) == PutStep(c, s, t, s.tasks[t], ch)
  {
  }

  // ------------------------------------------------------------------
  // Every step
  // ------------------------------------------------------------------

  lemma ClearOf(c: Config, s: State, t: Id)
    requires Safe(c, s) && Standing(s) && Exactly(c, s) && t in s.tasks && (s.tasks[t].IsPut() || s.tasks[t].IsEnd())
    ensures s.tasks[t].u in s.board.records && Stands(See(s, s.tasks[t].u)) && Exact(See(s, s.tasks[t].u))
    ensures s.tasks[t].IsClient() ==> Clear(s, t, s.tasks[t].u)
  {
    hide Safe, Stands, See, Exact;
    NamedOnRecord(c, s, t, s.tasks[t].u);
    assert TaskExact(s, t);
  }

  /** The upload a step is about is in agreement again after it; no byte lands uncovered. */
  lemma SubjectExact(c: Config, s: State, t: Id, ch: Choice)
    requires Safe(c, s) && Standing(s) && Exactly(c, s)
    requires t in s.tasks && MayResume(s, s.tasks[t], ch) && Disciplined(c, s, Resume(t, ch))
    requires MovedRoom(s, Resume(t, ch)).None?
    ensures var w, u := Proceed(c, s, t, ch), Subject(s, Resume(t, ch)); u in w.board.records ==> Exact(See(w, u))
    ensures Proceed(c, s, t, ch).vault.stray == 0
  {
    hide Safe, Stands, Exact, See, Quiet, MayResume, AtHome, Standing;
    var task := s.tasks[t];
    TornOutOf(s, t);
    assert TaskExact(s, t);
    if task.IsPut() { ClearOf(c, s, t); PutExact(c, s, t, ch); }
    else if task.IsEnd() {
      ClearOf(c, s, t);
      if task.IsClient() { CommitExact(s, t, ch); } else { EndExact(s, t, ch); }
    }
    else if task.IsSweep() { SweepExact(c, s, t, ch); }
    else if task.IsClean() { CleanExact(c, s, t, ch); }
    else { OtherExact(c, s, t, ch); }
  }

  lemma TornOutOf(s: State, t: Id)
    requires Standing(s) && t in s.tasks
    ensures TornOut(s, t)
  {
  }

  lemma SweepExact(c: Config, s: State, t: Id, ch: Choice)
    requires Safe(c, s) && Standing(s) && Exactly(c, s)
    requires t in s.tasks && s.tasks[t].IsSweep() && MayResume(s, s.tasks[t], ch) && Disciplined(c, s, Resume(t, ch))
    ensures var w, u := Proceed(c, s, t, ch), Subject(s, Resume(t, ch)); u in w.board.records ==> Exact(See(w, u))
    ensures Proceed(c, s, t, ch).vault.stray == 0
  {
    hide Safe, Stands, Exact, Quiet, AtHome, Standing, See, Same;
    TornOutOf(s, t);
    if !s.tasks[t].Sweeping? {
      NamedOnRecord(c, s, t, s.tasks[t].u); TearDownExact(c, s, t, ch, s.tasks[t].u);
    } else if s.tasks[t].loop.todo != {} && !SweepSkips(c, s.board, s.tasks[t].loop, ch.u) {
      NamedOnRecord(c, s, t, ch.u); StaleQuiet(c, s, t, ch); TakeOutExact(c, s, t, ch);
    } else if ch.u in s.board.records {
      IdleSame(c, s, t, ch); SameExact(s, Proceed(c, s, t, ch), ch.u);
    }
  }

  /** An upload whose flag is down is not being received. */
  lemma StaleQuiet(c: Config, s: State, t: Id, ch: Choice)
    requires FlagsOk(s) && t in s.tasks && s.tasks[t].Sweeping? && s.tasks[t].loop.todo != {}
    requires !SweepSkips(c, s.board, s.tasks[t].loop, ch.u) && Disciplined(c, s, Resume(t, ch))
    ensures Quiet(s, ch.u)
  {
    forall i | i in s.tasks && s.tasks[i].IsClient() ensures s.tasks[i].u != ch.u {
      if Writes(s, i, ch.u) { assert FlagOk(s, ch.u); FlagUp(s, i, ch.u); }
    }
  }

  /** A request that begins on a quiet upload is its only writer. */
  lemma QuietWriter(c: Config, s: State, e: Event)
    requires Disciplined(c, s, e)
    ensures OneWriter(s, e)
  {
  }

  lemma SameExact(s: State, w: State, u: Id)
    requires u in s.board.records && Same(s, w, u) && Exact(See(s, u))
    ensures Exact(See(w, u))
  {
  }

  lemma IdleSame(c: Config, s: State, t: Id, ch: Choice)
    requires Safe(c, s) && Standing(s) && t in s.tasks && s.tasks[t].Sweeping? && MayResume(s, s.tasks[t], ch)
    requires s.tasks[t].loop.todo == {} || SweepSkips(c, s.board, s.tasks[t].loop, ch.u)
    ensures forall u | u in s.board.records :: Same(s, SweepStep(c, s, t, s.tasks[t], ch), u)
  {
    hide Safe, Same, Standing;
    var l := s.tasks[t].loop;
    IdleStands(c, s, t, s.board, s.vault,
      if l.todo != {} then Some(Sweeping(l.(todo := l.todo - {ch.u})))
      else if l.rooms != {} then Some(Sweeping(Loop(l.start, l.rooms - {ch.u}, ch.u, RoomAt(s.board, ch.u).uploads)))
      else None);
  }

  lemma CleanExact(c: Config, s: State, t: Id, ch: Choice)
    requires Safe(c, s) && Standing(s) && Exactly(c, s) && MovedRoom(s, Resume(t, ch)).None?
    requires t in s.tasks && s.tasks[t].IsClean() && MayResume(s, s.tasks[t], ch) && Disciplined(c, s, Resume(t, ch))
    ensures var w, u := Proceed(c, s, t, ch), Subject(s, Resume(t, ch)); u in w.board.records ==> Exact(See(w, u))
    ensures Proceed(c, s, t, ch).vault.stray == 0
  {
    hide Safe, Stands, Exact, See, Quiet, AtHome, Standing;
    TornOutOf(s, t);
    if s.tasks[t].CleanNext? {
      NamedOnRecord(c, s, t, ch.u); TakeOutExact(c, s, t, ch);
    } else {
      NamedOnRecord(c, s, t, s.tasks[t].u); TearDownExact(c, s, t, ch, s.tasks[t].u);
    }
  }

  lemma OtherExact(c: Config, s: State, t: Id, ch: Choice)
    requires Safe(c, s) && Standing(s) && Exactly(c, s) && t in s.tasks && MayResume(s, s.tasks[t], ch)
    requires s.tasks[t].MakingDirs? || s.tasks[t].InitWaiting? || s.tasks[t].InitHolding? || s.tasks[t].Unlinking?
    ensures var w, u := Proceed(c, s, t, ch), Subject(s, Resume(t, ch)); u in w.board.records ==> Exact(See(w, u))
    ensures Proceed(c, s, t, ch).vault.stray == 0
  {
    hide Safe, Stands, Exact, See, AtHome, Standing, Same, TaskExact, Measured;
    if s.tasks[t].InitHolding? {
      if s.vault.hold.Ready? && Grants(c, s.vault, s.tasks[t].size) {
        NewHasNoPart(c, s, s.tasks[t].r, ch.u);
        RegisterExact(c, s, t, s.tasks[t].r, s.tasks[t].size, ch);
      }
    } else if 0 in s.board.records {
      UntouchedStands(c, s, t, ch); SameExact(s, Proceed(c, s, t, ch), 0);
    }
  }

  lemma NewHasNoPart(c: Config, s: State, r: Id, u: Id)
    requires Exactly(c, s) && u !in s.board.records
    ensures Part(r, u) !in s.vault.disk
  {
  }

  ghost predicate UploadsExact(s: State) { forall u | u in s.board.records :: Exact(See(s, u)) }

  /** Uploads the step is not about are seen as before. */
  lemma ApartExact(c: Config, s: State, e: Event, w: State)
    requires Exactly(c, s) && Apart(s, e, w)
    requires w.board.records.Keys <= s.board.records.Keys + {Subject(s, e)}
    requires MovedRoom(s, e).None? && Subject(s, e) in w.board.records ==> Exact(See(w, Subject(s, e)))
    requires MovedRoom(s, e).Some? ==> w.board.records.Keys == s.board.records.Keys
    requires MovedRoom(s, e).Some? ==>
               forall u | u in s.board.records && s.board.records[u].room == MovedRoom(s, e).value :: Exact(See(w, u))
    ensures UploadsExact(w)
  {
    hide Exact, See, Same;
    forall u | u in w.board.records ensures Exact(See(w, u)) {
      if u in s.board.records && (MovedRoom(s, e).None? ==> u != Subject(s, e))
         && (MovedRoom(s, e).Some? ==> s.board.records[u].room != MovedRoom(s, e).value) {
        SameExact(s, w, u);
      }
    }
  }

  /** The step kept the records, and the uploads of room `r` agree after it. */
  ghost predicate RoomAgrees(s: State, w: State, r: Id) {
    && w.board.records.Keys == s.board.records.Keys && w.vault.stray == 0
    && forall u | u in s.board.records && s.board.records[u].room == r :: Exact(See(w, u))
  }

  lemma RoomExact(c: Config, s: State, t: Id, ch: Choice)
    requires Safe(c, s) && Standing(s) && Exactly(c, s) && t in s.tasks && MovedRoom(s, Resume(t, ch)).Some?
    ensures RoomAgrees(s, Proceed(c, s, t, ch), MovedRoom(s, Resume(t, ch)).value)
  {
    hide Safe, Exact, See, Stands, AtHome, CleanOk, TornOut, Figures;
    var w := Proceed(c, s, t, ch);
    CleansOk(c, s, t);
    TornOutOf(s, t);
    if s.tasks[t].CleanDiscarding? { NamedOnRecord(c, s, t, s.tasks[t].u); }
    forall u | u in s.board.records && s.board.records[u].room == s.tasks[t].r ensures Exact(See(w, u)) {
      CleanedExact(s, t, ch, u);
    }
  }

  /** Only a granted init adds a record. */
  lemma NewRecords(c: Config, s: State, t: Id, ch: Choice)
    requires Safe(c, s) && t in s.tasks && MayResume(s, s.tasks[t], ch)
    ensures Proceed(c, s, t, ch).board.records.Keys <= s.board.records.Keys + {Subject(s, Resume(t, ch))}
  {
    hide Safe, MayResume, PutStep, EndStep, SweepStep, CleanStep, Decide, Measured, Grants;
    var task := s.tasks[t];
    if task.IsPut() || task.IsEnd() { NamedOnRecord(c, s, t, task.u); }
    RequestRecords(c, s, t, ch);
    TearDownRecords(c, s, t, ch);
  }

  lemma RequestRecords(c: Config, s: State, t: Id, ch: Choice)
    requires t in s.tasks && (s.tasks[t].IsPut() || s.tasks[t].IsEnd() ==> s.tasks[t].u in s.board.records)
    ensures s.tasks[t].IsPut() ==> PutStep(c, s, t, s.tasks[t], ch).board.records.Keys == s.board.records.Keys
    ensures s.tasks[t].IsEnd() ==> EndStep(s, t, s.tasks[t], ch).board.records.Keys == s.board.records.Keys
  {
    hide Measured, WithUsage, Append;
  }

  lemma TearDownRecords(c: Config, s: State, t: Id, ch: Choice)
    requires t in s.tasks
    ensures var us := s.board.records.Keys + {Subject(s, Resume(t, ch))};
            && (s.tasks[t].IsSweep() ==> SweepStep(c, s, t, s.tasks[t], ch).board.records.Keys <= us)
            && (s.tasks[t].IsClean() ==> CleanStep(s, t, s.tasks[t], ch).board.records.Keys <= us)
  {
  }

  lemma ProceedExact(c: Config, s: State, t: Id, ch: Choice)
    requires Safe(c, s) && Standing(s) && Exactly(c, s)
    requires t in s.tasks && MayResume(s, s.tasks[t], ch) && Disciplined(c, s, Resume(t, ch))
    ensures Exactly(c, Proceed(c, s, t, ch))
  {
    hide Standing, Exact, See, MayResume, Apart, Proceed, AtHome, Mild, TaskExact, Disciplined,
         Sound, PartsOk, BoardOk, FlagsOk;
    var w := Proceed(c, s, t, ch);
    ProceedStands(c, s, t, ch);
    NewRecords(c, s, t, ch);
    if MovedRoom(s, Resume(t, ch)).Some? { RoomExact(c, s, t, ch); } else { SubjectExact(c, s, t, ch); }
    ApartExact(c, s, Resume(t, ch), w);
    OtherTasksExact(c, s, t, ch);
    ProceedMild(c, s, t, ch);
    MildHome(s, w, t);
    FiguresStep(c, s, Resume(t, ch));
    QuietWriter(c, s, Resume(t, ch)); ProceedFlags(c, s, t, ch);
  }

  /** The tasks and the disk around an event that starts a task. */
  lemma BeginTasks(c: Config, s: State, e: Event)
    requires Safe(c, s) && Exactly(c, s) && MayStart(c, s, e) && Disciplined(c, s, e) && !e.Resume? && !e.ReadStorage?
    requires e.PutStart? || e.CompleteStart? || e.AbortStart? ==> e.u in s.board.records
    ensures forall t | t in Begin(s, e).tasks :: TaskExact(Begin(s, e), t)
  {
    hide Safe, Exact, See, AtHome, TaskExact, Disciplined, MayStart;
    var w := Begin(s, e);
    forall t | t in w.tasks ensures TaskExact(w, t) {
      if t in s.tasks { OldTaskExact(c, s, e, t); } else { NewTaskExact(s, e, t); }
    }
  }

  lemma OldTaskExact(c: Config, s: State, e: Event, t: Id)
    requires t in s.tasks && TaskExact(s, t) && MayStart(c, s, e) && Disciplined(c, s, e) && !e.Resume?
    requires !e.ReadStorage?
    requires e.PutStart? || e.CompleteStart? || e.AbortStart? ==> e.u in s.board.records
    ensures t in Begin(s, e).tasks && TaskExact(Begin(s, e), t)
  {
  }

  lemma NewTaskExact(s: State, e: Event, t: Id)
    requires t !in s.tasks && !e.Resume? && !e.ReadStorage? && t in Begin(s, e).tasks
    requires e.PutStart? || e.CompleteStart? || e.AbortStart? ==> e.u in s.board.records
    ensures TaskExact(Begin(s, e), t)
  {
  }

  lemma BeginHome(c: Config, s: State, e: Event)
    requires AtHome(s.board, s.vault) && MayStart(c, s, e) && !e.Resume? && !e.ReadStorage?
    requires e.PutStart? || e.CompleteStart? || e.AbortStart? ==> e.u in s.board.records
    ensures var w := Begin(s, e);
            w.vault == s.vault && AtHome(w.board, w.vault) && w.board.records.Keys == s.board.records.Keys
  {
  }

  lemma BeginExact(c: Config, s: State, e: Event)
    requires Safe(c, s) && Standing(s) && Exactly(c, s) && MayStart(c, s, e) && Disciplined(c, s, e) && !e.Resume?
    requires !e.ReadStorage?
    ensures Exactly(c, Begin(s, e))
  {
    hide Safe, Standing, Stands, Exact, See, Same, AtHome, Apart, TaskExact, Quiet, FlagsOk;
    var w, u := Begin(s, e), Subject(s, e);
    BeginStands(c, s, e);
    if e.PutStart? || e.CompleteStart? || e.AbortStart? {
      Resolved(c, s, u); StandsOf(s, u); RequestExact(c, s, e);
    } else {
      forall i | i in s.board.records && (e.CloseRoom? ==> s.board.records[i].room == e.r) ensures Exact(See(w, i)) {
        if e.CloseRoom? { CloseExact(s, e, i); } else { SameExact(s, w, i); }
      }
    }
    BeginTasks(c, s, e); BeginHome(c, s, e); FiguresStep(c, s, e);
    QuietWriter(c, s, e); StepFlags(c, s, e);
    ApartExact(c, s, e, w);
  }

  lemma UsageExact(c: Config, s: State, figure: nat)
    requires Safe(c, s) && Standing(s) && Exactly(c, s) && MayStart(c, s, ReadStorage(figure))
    ensures Exactly(c, Step(c, s, ReadStorage(figure)))
  {
    hide Safe, Standing, Exact, See, Figures, FlagsOk;
    var w := Step(c, s, ReadStorage(figure));
    UsageStands(c, s, figure); StepFlags(c, s, ReadStorage(figure));
    FiguresStep(c, s, ReadStorage(figure));
    forall u | u in w.board.records ensures Exact(See(w, u)) { SameExact(s, w, u); }
    forall t | t in w.tasks ensures TaskExact(w, t) { assert TaskExact(s, t); }
  }

  lemma StepExact(c: Config, s: State, e: Event)
    requires Safe(c, s) && Standing(s) && Exactly(c, s) && MayStart(c, s, e) && Disciplined(c, s, e)
    ensures Exactly(c, Step(c, s, e))
  {
    hide Safe, Standing, Exactly, Disciplined, Proceed, Begin, MayResume;
    if e.Resume? { ProceedExact(c, s, e.t, e.ch); }
    else if e.ReadStorage? { UsageExact(c, s, e.figure); }
    else { BeginExact(c, s, e); }
  }

  lemma {:induction false} RunExact(c: Config, s: State, es: seq<Event>)
    requires Safe(c, s) && Standing(s) && Exactly(c, s) && Legal(c, s, es) && Orderly(c, s, es)
    ensures Safe(c, After(c, s, es)) && Standing(After(c, s, es)) && Exactly(c, After(c, s, es))
    decreases |es|
  {
    hide Safe, Standing, Exactly, Step, MayStart, Disciplined, Kept;
    if es == [] {
    } else {
      StepSafe(c, s, es[0]); KeptIsSafe(c, s, Step(c, s, es[0]));
      StepStands(c, s, es[0]);
      StepExact(c, s, es[0]);
      RunExact(c, Step(c, s, es[0]), es[1..]);
    }
  }

  lemma Reaches(c: Config, s: State, es: seq<Event>)
    requires s == START && Legal(c, s, es) && Orderly(c, s, es)
    ensures Safe(c, After(c, s, es)) && Standing(After(c, s, es)) && Exactly(c, After(c, s, es))
  {
    StartSafe(c, s);
    RunExact(c, s, es);
  }

  // ------------------------------------------------------------------
  // Results
  // ------------------------------------------------------------------

  /**
   In every orderly run no byte lands without cover, so the free space always covers the
   headroom and everything still promised, however old the readings behind the grants were.
   */
  lemma NoByteUncovered(c: Config, s: State, es: seq<Event>)
    requires s == START && Legal(c, s, es) && Orderly(c, s, es)
    ensures var v := After(c, s, es).vault;
            && Free(c, v) >= Min(c.headroom, c.capacity) + Outstanding(v)
            && (c.budget != 0 ==> Used(v) + Outstanding(v) <= Max(0, c.budget - c.headroom) + v.debt)
  {
    hide Orderly;
    Reaches(c, s, es);
    SoundMeans(c, After(c, s, es).vault);
  }

  /**
   What a mid-transfer re-check finds, under every configuration: no less than the floor, the
   headroom wherever volume and budget can hold it, except for what the figures behind the
   admissions did not account for and what a walk overstated. Without a budget both are zero.
   */
  lemma NeverBreached(c: Config, s: State, es: seq<Event>, t: Id)
    requires s == START && Legal(c, s, es) && Orderly(c, s, es)
    requires t in After(c, s, es).tasks && After(c, s, es).tasks[t].Rechecked?
    ensures var w := After(c, s, es);
            && Floor(c) <= w.tasks[t].reading + w.vault.debt + w.vault.excess
            && (c.budget == 0 ==> w.vault.debt == 0 && w.vault.excess == 0)
  {
    hide Orderly, Safe, Standing, Exact, TaskExact;
    Reaches(c, s, es);
  }

  /** Its record, its reservation and its part tell the same story. */
  ghost predicate Agrees(s: State, u: Id) {
    && u in s.board.records && u in s.vault.ledger
    && var committed, declared, part := s.board.records[u].committed, TermsOf(s.vault, u).declared, PartOf(s.board, u);
    && committed <= declared && s.vault.ledger[u] == declared - committed
    && (part in s.vault.disk <==> 0 < committed)
    && SizeAt(s.vault, part) == committed
  }

  /** An upload whose part could not be deleted. */
  predicate Orphaned(b: Board, u: Id) { u in b.records && b.records[u].stage == UploadMachine.Orphaned }

  /**
   Whenever no task is suspended: reserved are exactly the uploads open rooms list and the
   stranded ones, each agrees with its reservation and its part, and no other part is on the
   disk but those whose deletion failed.
   */
  lemma AgreementAtRest(c: Config, s: State, es: seq<Event>)
    requires s == START && Legal(c, s, es) && Orderly(c, s, es) && After(c, s, es).tasks == map[]
    ensures var w := After(c, s, es);
            && (forall u :: u in w.vault.ledger <==> Registered(w.board, u) || Stranded(w.board, u))
            && (forall u | u in w.vault.ledger :: Agrees(w, u))
            && (forall r, u | Part(r, u) in w.vault.disk ::
                  Part(r, u) == PartOf(w.board, u) && (u in w.vault.ledger || Orphaned(w.board, u)))
  {
    hide Orderly, Safe, Standing, Exactly, Agrees, Registered, Stranded, Orphaned;
    Reaches(c, s, es);
    ReservedAtRest(c, s, es);
    var w := After(c, s, es);
    forall u | u in w.vault.ledger ensures Agrees(w, u) { ReservedAgrees(c, w, u); }
    forall r, u | Part(r, u) in w.vault.disk
      ensures Part(r, u) == PartOf(w.board, u) && (u in w.vault.ledger || Orphaned(w.board, u))
    {
      PartReserved(c, w, r, u);
    }
  }

  lemma ReservedAgrees(c: Config, s: State, u: Id)
    requires Safe(c, s) && Standing(s) && Exactly(c, s) && s.tasks == map[] && u in s.vault.ledger
    ensures Agrees(s, u)
  {
    hide Safe, AtHome, Figures, TaskExact, TornOut, Attended;
    LedgerOnRecord(c, s);
    assert Stands(See(s, u)) && Exact(See(s, u));
    SeenAgrees(s, u);
  }

  lemma SeenAgrees(s: State, u: Id)
    requires u in s.board.records && u in s.vault.ledger && s.tasks == map[] && Stands(See(s, u)) && Exact(See(s, u))
    ensures Agrees(s, u)
  {
  }

  lemma PartReserved(c: Config, s: State, r: Id, u: Id)
    requires Safe(c, s) && Standing(s) && Exactly(c, s) && s.tasks == map[] && Part(r, u) in s.vault.disk
    ensures Part(r, u) == PartOf(s.board, u) && (u in s.vault.ledger || Orphaned(s.board, u))
  {
    hide Sound, PartsOk, TasksOk;
    assert u in s.board.records && s.board.records[u].room == r;
    assert Stands(See(s, u)) && Exact(See(s, u));
  }
}
