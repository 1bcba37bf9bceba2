/** What the invariants say about lookups, rooms, cleanups and sweeps, over whole runs. */
module UploadResults {
  import opened Basics
  import opened Vault
  import opened UploadMachine
  import opened BoardSafety
  import opened UploadSafety
  import opened UploadStanding
  import opened UploadWriting
  import opened UploadAgreement

  lemma Arrives(c: Config, s: State, es: seq<Event>)
    requires s == START && Legal(c, s, es)
    ensures Safe(c, After(c, s, es)) && Standing(After(c, s, es))
  {
    StartSafe(c, s);
    RunStands(c, s, es);
  }

  // ------------------------------------------------------------------
  // The room map
  // ------------------------------------------------------------------

  /** A room is joinable exactly when the map binds its code to it, and the map stays within its cap. */
  lemma MapAgreement(c: Config, s: State, es: seq<Event>)
    requires s == START && Legal(c, s, es)
    ensures var b := After(c, s, es).board;
            && |b.codes| <= c.maxRooms
            && (forall r | r in b.rooms ::
                  b.rooms[r].phase == Open <==> b.rooms[r].code in b.codes && b.codes[b.rooms[r].code] == r)
            && (forall code | code in b.codes :: b.codes[code] in b.rooms && b.rooms[b.codes[code]].code == code)
  {
    hide Sound, PartsOk, TasksOk, Standing;
    Arrives(c, s, es);
    MapAgrees(c, After(c, s, es).board);
  }

  lemma MapAgrees(c: Config, b: Board)
    requires BoardOk(c, b)
    ensures forall r | r in b.rooms ::
              b.rooms[r].phase == Open <==> b.rooms[r].code in b.codes && b.codes[b.rooms[r].code] == r
    ensures forall code | code in b.codes :: b.codes[code] in b.rooms && b.rooms[b.codes[code]].code == code
  {
    forall r | r in b.rooms
      ensures b.rooms[r].phase == Open <==> b.rooms[r].code in b.codes && b.codes[b.rooms[r].code] == r
    {
      assert RoomOk(b, r);
      assert b.rooms[r].code in b.codes ==> CodeOk(b, b.rooms[r].code);
    }
    assert forall code | code in b.codes :: CodeOk(b, code);
  }

  /** In no run does creating a room take a code away from a room that holds it. */
  lemma CreateNeverOverwrites(c: Config, s: State, es: seq<Event>, e: Event)
    requires s == START && Legal(c, s, es) && e.CreateRoom? && MayStart(c, After(c, s, es), e)
    ensures e.code !in After(c, s, es).board.codes
  {
    hide Safe, Standing;
    Arrives(c, s, es);
    NoOverwrite(c, After(c, s, es), e);
  }

  /**
   A one-way door: however a run goes on, a room that left Open never opens again, no code
   leads to it and none of its uploads resolves.
   */
  lemma OneWayDoor(c: Config, s: State, es: seq<Event>, fs: seq<Event>, r: Id)
    requires s == START && Legal(c, s, es) && Legal(c, After(c, s, es), fs)
    requires r in After(c, s, es).board.rooms && After(c, s, es).board.rooms[r].phase != Open
    ensures var b := After(c, After(c, s, es), fs).board;
            && r in b.rooms && b.rooms[r].phase != Open
            && Rank(After(c, s, es).board.rooms[r].phase) <= Rank(b.rooms[r].phase)
            && r !in b.codes.Values && forall u :: Resolve(b, u) != Some(r)
  {
    hide Safe, Standing, Advances, BoardOk;
    var m := After(c, s, es);
    var w := After(c, m, fs);
    Arrives(c, s, es);
    RunSafe(c, m, fs);
    Shut(c, m.board, w, r);
  }

  lemma Shut(c: Config, b: Board, s: State, r: Id)
    requires Safe(c, s) && Advances(b, s.board) && r in b.rooms && b.rooms[r].phase != Open
    ensures r in s.board.rooms && s.board.rooms[r].phase != Open
    ensures Rank(b.rooms[r].phase) <= Rank(s.board.rooms[r].phase)
    ensures r !in s.board.codes.Values && forall u :: Resolve(s.board, u) != Some(r)
  {
    assert forall code | code in s.board.codes :: CodeOk(s.board, code);
  }

  // ------------------------------------------------------------------
  // Looking up an upload
  // ------------------------------------------------------------------

  /**
   Stale index entries and reused codes never mislead: an upload resolves to a room exactly
   when that room is open and lists it, and then it belongs to that room, is not aborted,
   and has its reservation.
   */
  lemma LookupExact(c: Config, s: State, es: seq<Event>, u: Id, r: Id)
    requires s == START && Legal(c, s, es)
    ensures var w := After(c, s, es);
            && (Resolve(w.board, u) == Some(r) <==>
                  r in w.board.rooms && w.board.rooms[r].phase == Open && u in w.board.rooms[r].uploads)
            && (Resolve(w.board, u) == Some(r) ==>
                  && u in w.board.records && w.board.records[u].room == r && !w.board.records[u].aborted
                  && w.board.records[u].stage == Live && u in w.vault.ledger)
  {
    hide Standing;
    Arrives(c, s, es);
    ResolveExact(c, After(c, s, es), u, r);
  }

  lemma ResolveExact(c: Config, s: State, u: Id, r: Id)
    requires Safe(c, s) && Standing(s)
    ensures var b := s.board;
            && (Resolve(b, u) == Some(r) <==> r in b.rooms && b.rooms[r].phase == Open && u in b.rooms[r].uploads)
            && (Resolve(b, u) == Some(r) ==>
                  && u in b.records && b.records[u].room == r && !b.records[u].aborted
                  && b.records[u].stage == Live && u in s.vault.ledger)
  {
    hide Sound, PartsOk, TasksOk;
    if Resolve(s.board, u) == Some(r) { Resolved(c, s, u); StandsOf(s, u); }
    if r in s.board.rooms && s.board.rooms[r].phase == Open && u in s.board.rooms[r].uploads {
      assert RoomOk(s.board, r) && ListedOk(s.board, r, u);
    }
  }

  // ------------------------------------------------------------------
  // Cleaning up a room
  // ------------------------------------------------------------------

  /** Everything outside room r is as it was. */
  ghost predicate Outside(s: State, w: State, t: Id, r: Id) {
    && w.board.codes == s.board.codes && w.board.index == s.board.index && w.now == s.now
    && w.board.rooms.Keys == s.board.rooms.Keys
    && (forall q | q in s.board.rooms && q != r :: w.board.rooms[q] == s.board.rooms[q])
    && w.board.records.Keys == s.board.records.Keys
    && (forall u | u in s.board.records && s.board.records[u].room != r ::
          && w.board.records[u] == s.board.records[u]
          && Find(w.vault.ledger, u) == Find(s.vault.ledger, u) && TermsOf(w.vault, u) == TermsOf(s.vault, u))
    && w.vault.ledger.Keys <= s.vault.ledger.Keys && w.vault.hold == s.vault.hold
    && (forall p: Path | p.room != r :: Find(w.vault.disk, p) == Find(s.vault.disk, p))
    && OneMoves(s, w, t)
  }

  /**
   No step of a cleanup, in any run, reaches beyond its own room instance: not another
   instance's users, uploads, reservations or files, and not those of a new instance under
   the same code.
   */
  lemma CleanupIsolation(c: Config, s: State, es: seq<Event>, t: Id, ch: Choice)
    requires s == START && Legal(c, s, es)
    requires t in After(c, s, es).tasks && After(c, s, es).tasks[t].IsClean()
    requires MayResume(After(c, s, es), After(c, s, es).tasks[t], ch)
    ensures var m := After(c, s, es);
            Outside(m, Proceed(c, m, t, ch), t, m.tasks[t].r)
  {
    hide Standing, Safe, Outside, CleanOk, Proceed, CleanStep, MayResume, Legal, After;
    Arrives(c, s, es);
    CleansOk(c, After(c, s, es), t);
    GoesOn(c, After(c, s, es), t, ch);
    CleanStepIsolated(After(c, s, es), t, ch);
  }

  lemma GoesOn(c: Config, s: State, t: Id, ch: Choice)
    requires t in s.tasks
    ensures s.tasks[t].IsClean() ==> Proceed(c, s, t, ch) == CleanStep(s, t, s.tasks[t], ch)
    ensures s.tasks[t].IsSweep() ==> Proceed(c, s, t, ch) == SweepStep(c, s, t, s.tasks[t], ch)
  {
  }

  lemma CleanStepIsolated(s: State, t: Id, ch: Choice)
    requires t in s.tasks && s.tasks[t].IsClean() && CleanOk(s.board, t, s.tasks[t]) && MayResume(s, s.tasks[t], ch)
    ensures Outside(s, CleanStep(s, t, s.tasks[t], ch), t, s.tasks[t].r)
  {
    hide MayResume, Outside, CleanOk;
    if s.tasks[t].CleanNext? && s.tasks[t].todo != {} { Picked(s, s.tasks[t], ch); UploadIsolated(s, t, ch, ch.u); }
    else if s.tasks[t].CleanReleasing? || s.tasks[t].CleanDiscarding? { UploadIsolated(s, t, ch, s.tasks[t].u); }
    else { RoomIsolated(s, t, ch); }
  }

  lemma UploadIsolated(s: State, t: Id, ch: Choice, u: Id)
    requires t in s.tasks && s.tasks[t].IsClean() && CleanOk(s.board, t, s.tasks[t]) && s.tasks[t].Names(u)
    requires
      || (s.tasks[t].CleanNext? && u == ch.u)
      || ((s.tasks[t].CleanReleasing? || s.tasks[t].CleanDiscarding?) && u == s.tasks[t].u)
    ensures Outside(s, CleanStep(s, t, s.tasks[t], ch), t, s.tasks[t].r)
  {
  }

  lemma RoomIsolated(s: State, t: Id, ch: Choice)
    requires t in s.tasks && s.tasks[t].IsClean() && CleanOk(s.board, t, s.tasks[t])
    requires s.tasks[t].CleanStart? || s.tasks[t].CleanRemoving? || s.tasks[t].todo == {}
    requires !s.tasks[t].CleanReleasing? && !s.tasks[t].CleanDiscarding?
    ensures Outside(s, CleanStep(s, t, s.tasks[t], ch), t, s.tasks[t].r)
  {
  }

  lemma Picked(s: State, task: Task, ch: Choice)
    requires task.CleanNext? && task.todo != {} && MayResume(s, task, ch)
    ensures task.Names(ch.u)
  {
  }

  /** How many more steps a cleanup takes at most. */
  function CleanLeft(b: Board, task: Task): nat
    requires task.IsClean()
  {
    match task
    case CleanStart(r) => 3 * |RoomAt(b, r).uploads| + 6
    case CleanNext(_, todo) => 3 * |todo| + 5
    case CleanReleasing(_, todo, _) => 3 * |todo| + 7
    case CleanDiscarding(_, todo, _) => 3 * |todo| + 6
    case CleanRemoving(_, attempt) => Max(0, 4 - attempt)
  }

  /** What a cleanup leaves of its room. */
  ghost predicate Cleaned(s: State, r: Id) {
    && r in s.board.rooms
    && var room := s.board.rooms[r];
    && room.phase == Closed && room.users == {} && room.files == map[] && room.documents == {}
    && (forall u | u in room.uploads :: Stranded(s.board, u))
    && (room.survives || (!room.dir && forall p | p in s.vault.disk :: p.room != r))
  }

  /** The cleanup ended early: the room is neither closed nor reachable, and has its directory still. */
  predicate GivenUp(s: State, r: Id) {
    r in s.board.rooms && s.board.rooms[r].phase == Cleaning && s.board.rooms[r].abandoned
  }

  /**
   Every cleanup ends: each of its steps either brings the end nearer or is the end. The end
   is a closed and empty room, with its directory gone unless this was the fourth attempt that
   failed, if and only if no part failed to be deleted; otherwise the room is given up, with
   the uploads the cleanup had not come to as they were.
   */
  lemma CleanupEnds(c: Config, s: State, es: seq<Event>, t: Id, ch: Choice)
    requires s == START && Legal(c, s, es)
    requires t in After(c, s, es).tasks && After(c, s, es).tasks[t].IsClean()
    requires MayResume(After(c, s, es), After(c, s, es).tasks[t], ch)
    ensures var m := After(c, s, es);
            var w, r, task := Proceed(c, m, t, ch), m.tasks[t].r, m.tasks[t];
            if t in w.tasks
            then w.tasks[t].IsClean() && w.tasks[t].r == r && CleanLeft(w.board, w.tasks[t]) < CleanLeft(m.board, task)
            else
              && (Cleaned(w, r) <==> !(task.CleanDiscarding? && !ch.flag))
              && (Cleaned(w, r) ==> (ch.flag ==> !w.board.rooms[r].dir)
                                    && (!ch.flag ==> task.attempt + 1 >= 4))
              && (!Cleaned(w, r) ==>
                    GivenUp(w, r) && w.vault == m.vault && AsTheyWere(m.board, w.board, task.todo - {task.u}))
  {
    hide Standing, Safe, Cleaned, CleanLeft, CleanOk, Proceed, CleanStep, MayResume, Legal, After, GivenUp, AsTheyWere;
    Arrives(c, s, es);
    var m := After(c, s, es);
    CleansOk(c, m, t);
    GoesOn(c, m, t, ch);
    CleanProgress(m, t, ch);
    if t !in Proceed(c, m, t, ch).tasks {
      if m.tasks[t].CleanRemoving? { CleanEnd(c, m, t, ch); } else { GiveUp(m, t, ch); }
    }
  }

  ghost predicate AsTheyWere(b: Board, w: Board, us: set<Id>) {
    forall u | u in us :: RecordAt(w, u) == RecordAt(b, u)
  }

  lemma CleanProgress(s: State, t: Id, ch: Choice)
    requires t in s.tasks && s.tasks[t].IsClean() && MayResume(s, s.tasks[t], ch)
    ensures var w, task := CleanStep(s, t, s.tasks[t], ch), s.tasks[t];
            if t in w.tasks
            then
              && w.tasks[t].IsClean() && w.tasks[t].r == task.r
              && CleanLeft(w.board, w.tasks[t]) < CleanLeft(s.board, task)
            else (task.CleanRemoving? && (!ch.flag ==> task.attempt + 1 >= MAX_ATTEMPTS))
                 || (task.CleanDiscarding? && !ch.flag)
  {
    var task := s.tasks[t];
    if task.CleanNext? && task.todo != {} { assert |task.todo - {ch.u}| == |task.todo| - 1; }
  }

  lemma GiveUp(s: State, t: Id, ch: Choice)
    requires t in s.tasks && s.tasks[t].CleanDiscarding? && !ch.flag && CleanOk(s.board, t, s.tasks[t])
    ensures var w, r := CleanStep(s, t, s.tasks[t], ch), s.tasks[t].r;
            && GivenUp(w, r) && !Cleaned(w, r) && w.vault == s.vault
            && AsTheyWere(s.board, w.board, s.tasks[t].todo - {s.tasks[t].u})
  {
    assert s.tasks[t].Names(s.tasks[t].u);
  }

  lemma CleanEnd(c: Config, s: State, t: Id, ch: Choice)
    requires Safe(c, s) && Standing(s) && t in s.tasks && s.tasks[t].CleanRemoving? && CleanOk(s.board, t, s.tasks[t])
    requires t !in CleanStep(s, t, s.tasks[t], ch).tasks
    ensures Cleaned(CleanStep(s, t, s.tasks[t], ch), s.tasks[t].r)
    ensures ch.flag ==> !CleanStep(s, t, s.tasks[t], ch).board.rooms[s.tasks[t].r].dir
  {
    hide Sound, PartsOk, TasksOk;
    var r := s.tasks[t].r;
    Listed(c, s.board, r);
    forall u | u in s.board.rooms[r].uploads ensures Stranded(s.board, u) { StandsOf(s, u); }
  }

  /** Nothing cleans a given-up room again: it is never closed, however the run goes on. */
  lemma {:induction false} GivenUpForGood(c: Config, s: State, es: seq<Event>, r: Id)
    requires Safe(c, s) && Standing(s) && GivenUp(s, r) && Legal(c, s, es)
    ensures GivenUp(After(c, s, es), r)
    decreases |es|
  {
    hide Safe, Standing, GivenUp, Step, MayStart, Kept;
    if es == [] {
    } else {
      StepSafe(c, s, es[0]); KeptIsSafe(c, s, Step(c, s, es[0]));
      StepStands(c, s, es[0]);
      StaysGivenUp(c, s, es[0], r);
      GivenUpForGood(c, Step(c, s, es[0]), es[1..], r);
    }
  }

  lemma StaysGivenUp(c: Config, s: State, e: Event, r: Id)
    requires Safe(c, s) && Standing(s) && GivenUp(s, r) && MayStart(c, s, e)
    ensures GivenUp(Step(c, s, e), r)
  {
    hide Safe, Standing, Proceed, Begin, MayResume;
    StepStands(c, s, e);
    FlagKept(c, s, e, r);
    FlagMeans(Step(c, s, e), r);
  }

  lemma FlagMeans(s: State, r: Id)
    requires Standing(s) && r in s.board.rooms && s.board.rooms[r].abandoned
    ensures GivenUp(s, r)
  {
    assert Attended(s, r);
  }

  predicate Flagged(b: Board, r: Id) { r in b.rooms && b.rooms[r].abandoned }

  lemma FlagKept(c: Config, s: State, e: Event, r: Id)
    requires MayStart(c, s, e) && Flagged(s.board, r)
    ensures Flagged(Step(c, s, e).board, r)
  {
    hide MayResume, Proceed, Begin, WithUsage;
    if e.Resume? { FlagProceeds(c, s, e.t, e.ch, r); } else if !e.ReadStorage? { FlagBegins(c, s, e, r); }
  }

  lemma FlagBegins(c: Config, s: State, e: Event, r: Id)
    requires MayStart(c, s, e) && Flagged(s.board, r) && !e.Resume? && !e.ReadStorage?
    ensures Flagged(Begin(s, e).board, r)
  {
  }

  lemma FlagProceeds(c: Config, s: State, t: Id, ch: Choice, r: Id)
    requires t in s.tasks && Flagged(s.board, r)
    ensures Flagged(Proceed(c, s, t, ch).board, r)
  {
    hide Measured, Grants, Decide, PutStep, EndStep, SweepStep, CleanStep;
    FlagParts(c, s, t, ch, r);
  }

  lemma FlagParts(c: Config, s: State, t: Id, ch: Choice, r: Id)
    requires t in s.tasks && Flagged(s.board, r)
    ensures s.tasks[t].IsPut() ==> Flagged(PutStep(c, s, t, s.tasks[t], ch).board, r)
    ensures s.tasks[t].IsEnd() ==> Flagged(EndStep(s, t, s.tasks[t], ch).board, r)
    ensures s.tasks[t].IsSweep() ==> Flagged(SweepStep(c, s, t, s.tasks[t], ch).board, r)
    ensures s.tasks[t].IsClean() ==> Flagged(CleanStep(s, t, s.tasks[t], ch).board, r)
  {
    hide PutStep, EndStep, SweepStep, CleanStep;
    if s.tasks[t].IsPut() { FlagPut(c, s, t, ch, r); }
    else if s.tasks[t].IsEnd() { FlagEnd(s, t, ch, r); }
    else if s.tasks[t].IsSweep() { FlagSweep(c, s, t, ch, r); }
    else if s.tasks[t].IsClean() { FlagClean(s, t, ch, r); }
  }

  lemma FlagPut(c: Config, s: State, t: Id, ch: Choice, r: Id)
    requires t in s.tasks && s.tasks[t].IsPut() && Flagged(s.board, r)
    ensures Flagged(PutStep(c, s, t, s.tasks[t], ch).board, r)
  {
    hide Measured, WithUsage, Append, Shrink;
  }

  lemma FlagEnd(s: State, t: Id, ch: Choice, r: Id)
    requires t in s.tasks && s.tasks[t].IsEnd() && Flagged(s.board, r)
    ensures Flagged(EndStep(s, t, s.tasks[t], ch).board, r)
  {
  }

  lemma FlagSweep(c: Config, s: State, t: Id, ch: Choice, r: Id)
    requires t in s.tasks && s.tasks[t].IsSweep() && Flagged(s.board, r)
    ensures Flagged(SweepStep(c, s, t, s.tasks[t], ch).board, r)
  {
  }

  lemma FlagClean(s: State, t: Id, ch: Choice, r: Id)
    requires t in s.tasks && s.tasks[t].IsClean() && Flagged(s.board, r)
    ensures Flagged(CleanStep(s, t, s.tasks[t], ch).board, r)
  {
  }

  /** A closed room whose directory is gone, with no directory creation still under way. */
  ghost predicate Gone(s: State, r: Id) {
    && r in s.board.rooms && s.board.rooms[r].phase == Closed && !s.board.rooms[r].dir
    && s.board.rooms[r].users == {} && s.board.rooms[r].documents == {}
    && (forall p | p in s.vault.disk :: p.room != r)
    && (forall t | t in s.tasks :: s.tasks[t] != MakingDirs(r))
  }

  /**
   What a cleanup removed stays removed: however a run goes on, whichever late appends,
   renames and sweeps are still to come, nothing is written into the directory of a closed room.
   */
  lemma {:induction false} GoneForGood(c: Config, s: State, es: seq<Event>, r: Id)
    requires Safe(c, s) && Gone(s, r) && Legal(c, s, es)
    ensures Gone(After(c, s, es), r)
    decreases |es|
  {
    hide Safe, Gone, Step, MayStart, Kept;
    if es == [] {
    } else {
      StepSafe(c, s, es[0]); KeptIsSafe(c, s, Step(c, s, es[0]));
      StaysGone(c, s, es[0], r);
      GoneForGood(c, Step(c, s, es[0]), es[1..], r);
    }
  }

  lemma StaysGone(c: Config, s: State, e: Event, r: Id)
    requires Safe(c, s) && Gone(s, r) && MayStart(c, s, e)
    ensures Gone(Step(c, s, e), r)
  {
    hide Safe, MayResume, Proceed, Begin, WithUsage;
    if e.Resume? { ProceedGone(c, s, e.t, e.ch, r); }
    else if e.ReadStorage? { UsageKeepsDisk(c, s.vault, s.now, e.figure); }
    else if e.PutStart? || e.CompleteStart? || e.AbortStart? { Resolved(c, s, e.u); RequestGone(s, e, r); }
    else { BeginGone(c, s, e, r); }
  }

  lemma UsageKeepsDisk(c: Config, v: Vault, now: nat, figure: nat)
    ensures WithUsage(c, v, now, figure).disk == v.disk
  {
  }

  lemma RequestGone(s: State, e: Event, r: Id)
    requires Gone(s, r) && (e.PutStart? || e.CompleteStart? || e.AbortStart?) && e.u in s.board.records
    ensures Gone(Begin(s, e), r)
  {
  }

  lemma BeginGone(c: Config, s: State, e: Event, r: Id)
    requires Gone(s, r) && MayStart(c, s, e) && !e.Resume? && !e.ReadStorage? && !e.PutStart? && !e.CompleteStart?
    requires !e.AbortStart?
    ensures Gone(Begin(s, e), r)
  {
  }

  lemma ProceedGone(c: Config, s: State, t: Id, ch: Choice, r: Id)
    requires Safe(c, s) && Gone(s, r) && t in s.tasks && MayResume(s, s.tasks[t], ch)
    ensures Gone(Proceed(c, s, t, ch), r)
  {
    hide Safe, MayResume, Gone;
    if s.tasks[t].IsPut() { NamedOnRecord(c, s, t, s.tasks[t].u); PutGone(c, s, t, ch, r); }
    else if s.tasks[t].IsEnd() { NamedOnRecord(c, s, t, s.tasks[t].u); EndGone(s, t, ch, r); }
    else if s.tasks[t].IsSweep() { SafeMeans(c, s); SweepNames(s, t, ch); SweepGone(c, s, t, ch, r); }
    else if s.tasks[t].IsClean() { CleansOk(c, s, t); CleanGone(c, s, t, ch, r); }
    else { OtherGone(c, s, t, ch, r); }
  }

  lemma PutGone(c: Config, s: State, t: Id, ch: Choice, r: Id)
    requires t in s.tasks && s.tasks[t].IsPut() && Gone(s, r) && s.tasks[t].u in s.board.records
    ensures Gone(PutStep(c, s, t, s.tasks[t], ch), r)
  {
    hide Measured;
  }

  lemma EndGone(s: State, t: Id, ch: Choice, r: Id)
    requires t in s.tasks && s.tasks[t].IsEnd() && Gone(s, r) && s.tasks[t].u in s.board.records
    ensures Gone(EndStep(s, t, s.tasks[t], ch), r)
  {
  }

  lemma SweepGone(c: Config, s: State, t: Id, ch: Choice, r: Id)
    requires t in s.tasks && s.tasks[t].IsSweep() && Gone(s, r)
    ensures Gone(SweepStep(c, s, t, s.tasks[t], ch), r)
  {
  }

  lemma CleanGone(c: Config, s: State, t: Id, ch: Choice, r: Id)
    requires t in s.tasks && s.tasks[t].IsClean() && CleanOk(s.board, t, s.tasks[t]) && Gone(s, r)
    ensures Gone(CleanStep(s, t, s.tasks[t], ch), r)
  {
  }

  lemma OtherGone(c: Config, s: State, t: Id, ch: Choice, r: Id)
    requires t in s.tasks && Gone(s, r)
    requires s.tasks[t].MakingDirs? || s.tasks[t].InitWaiting? || s.tasks[t].InitHolding? || s.tasks[t].Unlinking?
    ensures Gone(Proceed(c, s, t, ch), r)
  {
    hide Measured, Grants;
  }

  // ------------------------------------------------------------------
  // The reaper
  // ------------------------------------------------------------------

  /** A sweep judges by a clock reading that is not in the future. */
  ghost predicate ClocksOk(s: State) {
    forall t | t in s.tasks && s.tasks[t].IsSweep() :: s.tasks[t].loop.start <= s.now
  }

  lemma ClocksKept(c: Config, s: State, e: Event)
    requires Safe(c, s) && ClocksOk(s) && MayStart(c, s, e)
    ensures ClocksOk(Step(c, s, e))
  {
    hide Safe, MayResume;
    if e.Resume? { ProceedClocks(c, s, e.t, e.ch); }
  }

  lemma ProceedClocks(c: Config, s: State, t: Id, ch: Choice)
    requires Safe(c, s) && ClocksOk(s) && t in s.tasks && MayResume(s, s.tasks[t], ch)
    ensures ClocksOk(Proceed(c, s, t, ch))
  {
    hide Safe, Proceed, MayResume, Mild;
    SafeMeans(c, s);
    ProceedMild(c, s, t, ch);
    OwnClock(c, s, t, ch);
    var w := Proceed(c, s, t, ch);
    forall i | i in w.tasks && w.tasks[i].IsSweep() ensures w.tasks[i].loop.start <= w.now {
      if i != t { MildTask(s, w, t, i); }
    }
  }

  lemma OwnClock(c: Config, s: State, t: Id, ch: Choice)
    requires t in s.tasks && MayResume(s, s.tasks[t], ch)
    ensures var w := Proceed(c, s, t, ch);
            && w.now == s.now
            && (t in w.tasks && w.tasks[t].IsSweep() ==>
                  s.tasks[t].IsSweep() && w.tasks[t].loop.start == s.tasks[t].loop.start)
  {
    hide Measured, Decide, Grants;
  }

  lemma {:induction false} RunClocks(c: Config, s: State, es: seq<Event>)
    requires Safe(c, s) && ClocksOk(s) && Legal(c, s, es)
    ensures ClocksOk(After(c, s, es))
    decreases |es|
  {
    hide Safe, ClocksOk, Step, MayStart, Kept;
    if es == [] {
    } else {
      StepSafe(c, s, es[0]); KeptIsSafe(c, s, Step(c, s, es[0]));
      ClocksKept(c, s, es[0]);
      RunClocks(c, Step(c, s, es[0]), es[1..]);
    }
  }

  /** Listed before the step and not after it. */
  predicate Delists(b: Board, w: Board, u: Id) {
    u in b.records && u in RoomAt(b, b.records[u].room).uploads && u !in RoomAt(w, b.records[u].room).uploads
  }

  /**
   With any other steps between its own, a sweep takes out only an upload that has been quiet for
   the stale time at that very moment, and it never touches a room's files or a stored file. If no
   two requests received bytes of one upload at a time, then no request is receiving bytes of the
   upload it takes out, however many requests, completions, aborts and cleanups overlap otherwise.
   */
  lemma SweepSound(c: Config, s: State, es: seq<Event>, t: Id, ch: Choice)
    requires s == START && Legal(c, s, es)
    requires t in After(c, s, es).tasks && After(c, s, es).tasks[t].IsSweep()
    requires MayResume(After(c, s, es), After(c, s, es).tasks[t], ch)
    ensures var m := After(c, s, es);
            var w := Proceed(c, m, t, ch);
            && (WritersApart(c, s, es) ==> forall u | Delists(m.board, w.board, u) :: !Written(m, u))
            && (forall u | Delists(m.board, w.board, u) ::
                  u == ch.u && !m.board.records[u].writing && m.now - m.board.records[u].lastActivity >= c.staleMs)
            && (forall r, f :: Find(w.vault.disk, Stored(r, f)) == Find(m.vault.disk, Stored(r, f)))
            && (forall r | r in m.board.rooms :: r in w.board.rooms && w.board.rooms[r].files == m.board.rooms[r].files)
  {
    hide Standing, Safe, ClocksOk, Delists, Proceed, SweepStep, MayResume, Legal, After, WritersApart, FlagsOk, Written;
    StartSafe(c, s);
    StartClocks(s);
    RunClocks(c, s, es);
    Arrives(c, s, es);
    var m := After(c, s, es);
    SafeMeans(c, m);
    GoesOn(c, m, t, ch);
    SweepTakes(c, m, t, ch);
    if WritersApart(c, s, es) {
      StartFlagsOk(s);
      RunFlags(c, s, es);
      forall u | Delists(m.board, Proceed(c, m, t, ch).board, u) ensures !Written(m, u) {
        WasListed(m.board, Proceed(c, m, t, ch).board, u);
        NotWriting(m, u);
      }
    }
  }

  lemma WasListed(b: Board, w: Board, u: Id)
    requires Delists(b, w, u)
    ensures u in b.records && u in RoomAt(b, b.records[u].room).uploads
  {
  }

  lemma StartFlagsOk(s: State)
    requires s == START
    ensures FlagsOk(s)
  {
  }

  lemma NotWriting(s: State, u: Id)
    requires FlagsOk(s) && u in s.board.records && !s.board.records[u].writing
    ensures !Written(s, u)
  {
    assert FlagOk(s, u);
  }

  /**
   And what it takes out has been idle for as long: at any earlier moment of the run less than the
   stale time ago, that upload was there already and had as many committed bytes as now.
   */
  lemma SweptWasIdle(c: Config, s: State, es: seq<Event>, fs: seq<Event>, t: Id, ch: Choice, u: Id)
    requires s == START && Legal(c, s, es) && Legal(c, After(c, s, es), fs)
    requires var w := After(c, After(c, s, es), fs);
             && t in w.tasks && w.tasks[t].IsSweep() && MayResume(w, w.tasks[t], ch)
             && Delists(w.board, Proceed(c, w, t, ch).board, u)
    ensures var m, w := After(c, s, es), After(c, After(c, s, es), fs);
            w.now < m.now + c.staleMs ==>
            u in m.board.records && m.board.records[u].committed == w.board.records[u].committed
  {
    hide Legal, After, Safe, Delists, Proceed, MayResume, Standing, WritersApart, Written;
    Arrives(c, s, es);
    var m := After(c, s, es);
    IdleSince(c, m, fs, u);
    RunConcat(c, s, es, fs);
    SweepSound(c, s, es + fs, t, ch);
    WasListed(After(c, m, fs).board, Proceed(c, After(c, m, fs), t, ch).board, u);
  }

  /** Since state s upload u was there and gained nothing, or its activity time is no older than that. */
  ghost predicate Idle(s: State, w: State, u: Id) {
    && s.now <= w.now
    && (u in w.board.records ==>
          || s.now <= w.board.records[u].lastActivity
          || (u in s.board.records
              && w.board.records[u].committed == s.board.records[u].committed
              && w.board.records[u].lastActivity == s.board.records[u].lastActivity))
  }

  lemma {:induction false} IdleSince(c: Config, s: State, es: seq<Event>, u: Id)
    requires Safe(c, s) && Legal(c, s, es)
    ensures Idle(s, After(c, s, es), u)
    decreases |es|
  {
    hide Safe, Step, MayStart, Kept;
    if es == [] {
    } else {
      StepSafe(c, s, es[0]); KeptIsSafe(c, s, Step(c, s, es[0]));
      StepIdle(c, s, es[0], u);
      IdleSince(c, Step(c, s, es[0]), es[1..], u);
    }
  }

  lemma StepIdle(c: Config, s: State, e: Event, u: Id)
    requires Safe(c, s) && MayStart(c, s, e)
    ensures Idle(s, Step(c, s, e), u)
  {
    hide Safe, Proceed, MayResume, WithUsage, Resolve;
    if e.Resume? { ProceedIdle(c, s, e.t, e.ch, u); }
    else if e.PutStart? || e.CompleteStart? || e.AbortStart? { Resolved(c, s, e.u); }
  }

  lemma ProceedIdle(c: Config, s: State, t: Id, ch: Choice, u: Id)
    requires Safe(c, s) && t in s.tasks && MayResume(s, s.tasks[t], ch)
    ensures Idle(s, Proceed(c, s, t, ch), u)
  {
    hide Safe, MayResume, PutStep, EndStep, SweepStep, CleanStep, HoldStep, Idle;
    var task := s.tasks[t];
    if task.IsPut() { NamedOnRecord(c, s, t, task.u); PutIdle(c, s, t, ch, u); }
    else if task.IsEnd() { NamedOnRecord(c, s, t, task.u); EndIdle(s, t, ch, u); }
    else if task.IsSweep() { SafeMeans(c, s); SweepNames(s, t, ch); SweepIdle(c, s, t, ch, u); }
    else if task.IsClean() { SafeMeans(c, s); CleansOk(c, s, t); CleanIdle(s, t, ch, u); }
    else { OtherIdle(c, s, t, ch, u); }
  }

  lemma PutIdle(c: Config, s: State, t: Id, ch: Choice, u: Id)
    requires t in s.tasks && s.tasks[t].IsPut() && s.tasks[t].u in s.board.records
    ensures Idle(s, PutStep(c, s, t, s.tasks[t], ch), u)
  {
    hide Measured, WithUsage, Append;
  }

  lemma EndIdle(s: State, t: Id, ch: Choice, u: Id)
    requires t in s.tasks && s.tasks[t].IsEnd() && s.tasks[t].u in s.board.records
    ensures Idle(s, EndStep(s, t, s.tasks[t], ch), u)
  {
  }

  lemma SweepIdle(c: Config, s: State, t: Id, ch: Choice, u: Id)
    requires t in s.tasks && s.tasks[t].IsSweep()
    requires s.tasks[t].Sweeping? && s.tasks[t].loop.todo != {} ==> ch.u in s.board.records
    requires !s.tasks[t].Sweeping? ==> s.tasks[t].u in s.board.records
    ensures Idle(s, SweepStep(c, s, t, s.tasks[t], ch), u)
  {
  }

  lemma CleanIdle(s: State, t: Id, ch: Choice, u: Id)
    requires t in s.tasks && s.tasks[t].IsClean() && CleanOk(s.board, t, s.tasks[t]) && MayResume(s, s.tasks[t], ch)
    ensures Idle(s, CleanStep(s, t, s.tasks[t], ch), u)
  {
    assert s.tasks[t].CleanNext? && s.tasks[t].todo != {} ==> s.tasks[t].Names(ch.u);
    assert s.tasks[t].CleanReleasing? || s.tasks[t].CleanDiscarding? ==> s.tasks[t].Names(s.tasks[t].u);
  }

  lemma OtherIdle(c: Config, s: State, t: Id, ch: Choice, u: Id)
    requires t in s.tasks && MayResume(s, s.tasks[t], ch)
    requires s.tasks[t].MakingDirs? || s.tasks[t].InitWaiting? || s.tasks[t].InitHolding? || s.tasks[t].Unlinking?
    ensures Idle(s, Proceed(c, s, t, ch), u)
  {
    hide Measured, Grants, Decide;
  }

  /** What a sweep has still to do: rooms to visit, then uploads to look at, then what it is at with one. */
  function SweepLeft(task: Task): (nat, nat)
    requires task.IsSweep()
  {
    (|task.loop.rooms|,
     3 * |task.loop.todo| + if task.SweepReleasing? then 2 else if task.SweepDiscarding? then 1 else 0)
  }

  /**
   Every sweep ends: each of its steps, in whatever state the others leave it, brings it nearer to
   the end or is the end; and it ends with nothing left to look at unless a part could not be deleted.
   */
  lemma SweepEnds(c: Config, s: State, t: Id, ch: Choice)
    requires t in s.tasks && s.tasks[t].IsSweep() && MayResume(s, s.tasks[t], ch)
    ensures var w, task := Proceed(c, s, t, ch), s.tasks[t];
            if t in w.tasks
            then w.tasks[t].IsSweep()
                 && var now, then_ := SweepLeft(task), SweepLeft(w.tasks[t]);
                 then_.0 < now.0 || (then_.0 == now.0 && then_.1 < now.1)
            else SweepLeft(task) == (0, 0) || (task.SweepDiscarding? && !ch.flag)
  {
    hide MayResume, SweepSkips, PopUpload;
    var l := s.tasks[t].loop;
    SweepPicks(s, s.tasks[t], ch);
    if s.tasks[t].Sweeping? {
      if l.todo != {} { assert |l.todo - {ch.u}| == |l.todo| - 1; }
      else if l.rooms != {} { assert |l.rooms - {ch.u}| == |l.rooms| - 1; }
    }
  }

  lemma SweepPicks(s: State, task: Task, ch: Choice)
    requires task.Sweeping? ==> MayResume(s, task, ch)
    ensures task.Sweeping? && task.loop.todo != {} ==> ch.u in task.loop.todo
    ensures task.Sweeping? && task.loop.todo == {} && task.loop.rooms != {} ==> ch.u in task.loop.rooms
  {
  }

  lemma StartClocks(s: State)
    requires s == START
    ensures ClocksOk(s)
  {
  }

  lemma SweepTakes(c: Config, s: State, t: Id, ch: Choice)
    requires ClocksOk(s) && t in s.tasks && s.tasks[t].IsSweep() && TasksOk(s) && MayResume(s, s.tasks[t], ch)
    requires forall u | u in s.board.records :: s.board.records[u].room in s.board.rooms
    ensures var w := SweepStep(c, s, t, s.tasks[t], ch);
            && (forall u | Delists(s.board, w.board, u) ::
                  u == ch.u && !s.board.records[u].writing && s.now - s.board.records[u].lastActivity >= c.staleMs)
            && (forall r, f :: Find(w.vault.disk, Stored(r, f)) == Find(s.vault.disk, Stored(r, f)))
            && (forall r | r in s.board.rooms :: r in w.board.rooms && w.board.rooms[r].files == s.board.rooms[r].files)
  {
    hide TasksOk, MayResume;
    SweepNames(s, t, ch);
  }

  lemma SweepNames(s: State, t: Id, ch: Choice)
    requires TasksOk(s) && t in s.tasks && s.tasks[t].IsSweep() && MayResume(s, s.tasks[t], ch)
    ensures s.tasks[t].Sweeping? && s.tasks[t].loop.todo != {} ==> ch.u in s.board.records
    ensures !s.tasks[t].Sweeping? ==> s.tasks[t].u in s.board.records
  {
    assert TaskOk(s.board, s.vault, t, s.tasks[t]);
    assert s.tasks[t].Sweeping? && s.tasks[t].loop.todo != {} ==> s.tasks[t].Names(ch.u);
    assert !s.tasks[t].Sweeping? ==> s.tasks[t].Names(s.tasks[t].u);
  }

  // ------------------------------------------------------------------
  // Where the hypotheses are needed
  // ------------------------------------------------------------------

  /**
   What becomes of an init that waited for its reservation: its upload can be found exactly if
   its room is still open, and is stranded with its reservation exactly if the room's cleanup
   has already listed what to abort.
   */
  lemma GrantedInit(c: Config, s: State, es: seq<Event>, t: Id, ch: Choice)
    requires s == START && Legal(c, s, es)
    requires var m := After(c, s, es);
             && t in m.tasks && m.tasks[t].InitHolding? && MayResume(m, m.tasks[t], ch)
             && m.vault.hold.Ready? && Grants(c, m.vault, m.tasks[t].size)
    ensures var m, w := After(c, s, es), Proceed(c, After(c, s, es), t, ch);
            var r := m.tasks[t].r;
            var phase := RoomAt(m.board, r).phase;
            && (Resolve(w.board, ch.u) == Some(r) <==> phase == Open)
            && (Stranded(w.board, ch.u) <==> phase == Cleaning || phase == Closed)
            && ch.u in w.vault.ledger && w.vault.ledger[ch.u] == m.tasks[t].size
  {
    hide Safe, Standing, Legal, After, Grants, Proceed, MayResume, Resolve, Stranded;
    Arrives(c, s, es);
    GrantStep(c, After(c, s, es), t, ch);
  }

  lemma GrantStep(c: Config, s: State, t: Id, ch: Choice)
    requires Safe(c, s) && Standing(s) && t in s.tasks && s.tasks[t].InitHolding? && MayResume(s, s.tasks[t], ch)
    requires s.vault.hold.Ready? && Grants(c, s.vault, s.tasks[t].size)
    ensures var w, r := Proceed(c, s, t, ch), s.tasks[t].r;
            var phase := RoomAt(s.board, r).phase;
            && (Resolve(w.board, ch.u) == Some(r) <==> phase == Open)
            && (Stranded(w.board, ch.u) <==> phase == Cleaning || phase == Closed)
            && ch.u in w.vault.ledger && w.vault.ledger[ch.u] == s.tasks[t].size
  {
    hide Safe, Stands, TornOut, Attended, MayResume, Resolve, Stranded;
    RoomOnRecord(c, s, t); SafeMeans(c, s);
    MapAgrees(c, s.board);
    FreshChoice(s, s.tasks[t], ch);
    GrantRegisters(c, s, t, ch);
    GrantFound(s.board, s.tasks[t].r, ch, s.now, t);
    GrantStranded(s, s.tasks[t].r, ch, t);
  }

  lemma FreshChoice(s: State, task: Task, ch: Choice)
    requires task.InitHolding? && MayResume(s, task, ch)
    ensures ch.u !in s.board.records
  {
  }

  lemma GrantRegisters(c: Config, s: State, t: Id, ch: Choice)
    requires t in s.tasks && s.tasks[t].InitHolding? && s.vault.hold.Ready? && Grants(c, s.vault, s.tasks[t].size)
    ensures var w := Proceed(c, s, t, ch);
            && w.board == Register(s.board, ch.u, NewRecord(s.board, s.tasks[t].r, ch.f, s.now, t))
            && ch.u in w.vault.ledger && w.vault.ledger[ch.u] == s.tasks[t].size
            && w.tasks == s.tasks - {t}
  {
  }

  lemma GrantFound(b: Board, r: Id, ch: Choice, now: nat, t: Id)
    requires r in b.rooms && ch.u !in b.records
    requires forall q | q in b.rooms ::
               b.rooms[q].phase == Open <==> b.rooms[q].code in b.codes && b.codes[b.rooms[q].code] == q
    ensures Resolve(Register(b, ch.u, NewRecord(b, r, ch.f, now, t)), ch.u) == Some(r) <==> b.rooms[r].phase == Open
  {
  }

  lemma GrantStranded(s: State, r: Id, ch: Choice, t: Id)
    requires Standing(s) && r in s.board.rooms
    ensures var w, phase := Register(s.board, ch.u, NewRecord(s.board, r, ch.f, s.now, t)), s.board.rooms[r].phase;
            Stranded(w, ch.u) <==> phase == Cleaning || phase == Closed
  {
    hide Stands, TornOut;
    assert Attended(s, r);
  }

  /** Two requests on the same upload, both past the range check before either has written. */
  ghost predicate Overlap(s: State, t1: Id, t2: Id, u: Id, n: nat) {
    && t1 != t2 && t1 in s.tasks && t2 in s.tasks && s.tasks[t1] == Streaming(u) && s.tasks[t2] == Streaming(u)
    && u in s.board.records && u in s.vault.ledger && RoomAt(s.board, s.board.records[u].room).dir
    && 0 < n && s.board.records[u].committed + n == TermsOf(s.vault, u).declared
    && TermsOf(s.vault, u).landed == s.board.records[u].committed
  }

  /** Nothing serialises two requests on one upload: both pass the range check. */
  lemma TwoRequestsOverlap(c: Config, s: State, t1: Id, t2: Id, u: Id, n: nat)
    requires Resolve(s.board, u).Some? && t1 != t2 && t1 !in s.tasks && t2 !in s.tasks
    requires u in s.board.records && u in s.vault.ledger && RoomAt(s.board, s.board.records[u].room).dir
    requires TermsOf(s.vault, u).landed == s.board.records[u].committed
    requires 0 < n && s.board.records[u].committed + n == TermsOf(s.vault, u).declared
    ensures var e1, e2 := PutStart(t1, u, s.board.records[u].committed), PutStart(t2, u, s.board.records[u].committed);
            && MayStart(c, s, e1) && MayStart(c, Step(c, s, e1), e2)
            && Overlap(Step(c, Step(c, s, e1), e2), t1, t2, u, n)
  {
  }

  function Land(n: nat): Choice { Choice(0, 0, n, true, {}) }

  /**
   The no-stray result needs requests that do not overlap: from any state with two of them,
   both may write all that is missing, and as many bytes land without cover.
   */
  lemma OverlapLandsTwice(c: Config, s: State, t1: Id, t2: Id, u: Id, n: nat)
    requires Overlap(s, t1, t2, u, n)
    ensures var es := [Resume(t1, Land(n)), Resume(t2, Land(n)), Resume(t1, Land(n)), Resume(t2, Land(n))];
            && Legal(c, s, es)
            && After(c, s, es).vault.stray == s.vault.stray + n
            && SizeAt(After(c, s, es).vault, PartOf(s.board, u)) == SizeAt(s.vault, PartOf(s.board, u)) + 2 * n
  {
    var e1, e2 := Resume(t1, Land(n)), Resume(t2, Land(n));
    var s2 := s.(tasks := s.tasks[t1 := Appending(u, n)][t2 := Appending(u, n)]);
    BothAccepted(c, s, t1, t2, u, n);
    BothLand(c, s2, t1, t2, u, n);
    FourSteps(c, s, e1, e2);
  }

  lemma BothAccepted(c: Config, s: State, t1: Id, t2: Id, u: Id, n: nat)
    requires Overlap(s, t1, t2, u, n)
    ensures var e1, e2 := Resume(t1, Land(n)), Resume(t2, Land(n));
            && MayStart(c, s, e1) && MayStart(c, Step(c, s, e1), e2)
            && Step(c, Step(c, s, e1), e2) == s.(tasks := s.tasks[t1 := Appending(u, n)][t2 := Appending(u, n)])
  {
  }

  lemma BothLand(c: Config, s: State, t1: Id, t2: Id, u: Id, n: nat)
    requires t1 != t2 && t1 in s.tasks && t2 in s.tasks && s.tasks[t1] == Appending(u, n)
    requires s.tasks[t2] == Appending(u, n)
    requires u in s.board.records && u in s.vault.ledger && RoomAt(s.board, s.board.records[u].room).dir
    requires TermsOf(s.vault, u).landed + n == TermsOf(s.vault, u).declared
    ensures var e1, e2 := Resume(t1, Land(n)), Resume(t2, Land(n));
            && MayStart(c, s, e1) && MayStart(c, Step(c, s, e1), e2)
            && var v := Step(c, Step(c, s, e1), e2).vault;
            && v.stray == s.vault.stray + n
            && SizeAt(v, PartOf(s.board, u)) == SizeAt(s.vault, PartOf(s.board, u)) + 2 * n
  {
  }

  lemma FourSteps(c: Config, s: State, e1: Event, e2: Event)
    requires MayStart(c, s, e1) && MayStart(c, Step(c, s, e1), e2)
    requires var m := Step(c, Step(c, s, e1), e2); MayStart(c, m, e1) && MayStart(c, Step(c, m, e1), e2)
    ensures Legal(c, s, [e1, e2, e1, e2])
    ensures var m := Step(c, Step(c, s, e1), e2); After(c, s, [e1, e2, e1, e2]) == Step(c, Step(c, m, e1), e2)
  {
    hide MayStart, Step;
    var m := Step(c, Step(c, s, e1), e2);
    OneStep(c, Step(c, m, e1), e2, []);
    OneStep(c, m, e1, [e2]);
    OneStep(c, Step(c, s, e1), e2, [e1, e2]);
    OneStep(c, s, e1, [e2, e1, e2]);
    assert [e2] + [] == [e2] && [e1] + [e2] == [e1, e2];
    assert [e2] + [e1, e2] == [e2, e1, e2] && [e1] + [e2, e1, e2] == [e1, e2, e1, e2];
  }

  lemma OneStep(c: Config, s: State, e: Event, es: seq<Event>)
    requires MayStart(c, s, e) && Legal(c, Step(c, s, e), es)
    ensures Legal(c, s, [e] + es) && After(c, s, [e] + es) == After(c, Step(c, s, e), es)
  {
    hide MayStart, Step;
    assert ([e] + es)[0] == e && ([e] + es)[1..] == es;
  }

  lemma {:induction false} RunConcat(c: Config, s: State, es: seq<Event>, fs: seq<Event>)
    requires Legal(c, s, es) && Legal(c, After(c, s, es), fs)
    ensures Legal(c, s, es + fs) && After(c, s, es + fs) == After(c, After(c, s, es), fs)
    decreases |es|
  {
    hide MayStart, Step;
    if es == [] {
      assert es + fs == fs;
    } else {
      RunConcat(c, Step(c, s, es[0]), es[1..], fs);
      OneStep(c, s, es[0], es[1..] + fs);
      assert [es[0]] + (es[1..] + fs) == es + fs;
    }
  }

  lemma NothingRun(c: Config, s: State)
    ensures Legal(c, s, []) && After(c, s, []) == s
  {
  }

  lemma LegalMore(c: Config, s: State, es: seq<Event>, e: Event)
    requires Legal(c, s, es) && MayStart(c, After(c, s, es), e)
    ensures Legal(c, s, es + [e]) && After(c, s, es + [e]) == Step(c, After(c, s, es), e)
  {
    hide MayStart, Step;
    NothingRun(c, Step(c, After(c, s, es), e));
    OneStep(c, After(c, s, es), e, []);
    assert [e] + [] == [e];
    RunConcat(c, s, es, [e]);
  }
}
