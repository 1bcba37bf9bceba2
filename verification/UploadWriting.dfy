/**
 Who is writing an upload. The flag `writing` that the sweep looks at means that a request is
 receiving the upload's bytes, as long as no two requests receive bytes of one upload at a time.
 */
module UploadWriting {
  import opened Basics
  import opened Vault
  import opened UploadMachine
  import opened BoardSafety
  import opened UploadSafety
  import opened UploadStanding

  /** Task t is a request that receives bytes of upload u. */
  predicate Writes(s: State, t: Id, u: Id) { t in s.tasks && s.tasks[t].IsPut() && s.tasks[t].u == u }

  predicate Written(s: State, u: Id) { exists t :: t in s.tasks && Writes(s, t, u) }

  /** Task t is such a request that aborts the upload for want of space; it clears the flag at its end. */
  predicate Breaks(s: State, t: Id, u: Id) {
    && t in s.tasks && (s.tasks[t].Releasing? || s.tasks[t].Discarding?)
    && s.tasks[t].u == u && s.tasks[t].why == Breached
  }

  /** No request begins to receive bytes of an upload that another one is receiving. */
  predicate OneWriter(s: State, e: Event) { e.PutStart? ==> !Written(s, e.u) }

  ghost predicate WritersApart(c: Config, s: State, es: seq<Event>)
    requires Legal(c, s, es)
    decreases |es|
  {
    es != [] ==> OneWriter(s, es[0]) && WritersApart(c, Step(c, s, es[0]), es[1..])
  }

  /** What is known of one upload's writers: at most one, and then the flag is up. */
  ghost predicate FlagOk(s: State, u: Id) {
    && (forall t | t in s.tasks && Writes(s, t, u) :: u in s.board.records && s.board.records[u].writing)
    && (forall t, i | t in s.tasks && i in s.tasks && Writes(s, t, u) && Writes(s, i, u) :: t == i)
    && (forall t | t in s.tasks && Breaks(s, t, u) ::
          u in s.board.records && s.board.records[u].aborted && !Written(s, u))
  }

  ghost predicate FlagsOk(s: State) { forall u :: FlagOk(s, u) }

  /** Only task t moves, and it is no writer of u before or after. */
  lemma FlagKept(s: State, w: State, t: Id, u: Id)
    requires FlagOk(s, u) && w.tasks - {t} == s.tasks - {t}
    requires u in s.board.records ==>
               && u in w.board.records && w.board.records[u].writing == s.board.records[u].writing
               && (s.board.records[u].aborted ==> w.board.records[u].aborted)
    requires Writes(w, t, u) ==> Writes(s, t, u)
    requires Breaks(w, t, u) ==> Breaks(s, t, u)
    ensures FlagOk(w, u)
  {
    forall i | i != t ensures (i in w.tasks <==> i in s.tasks) && (i in w.tasks ==> w.tasks[i] == s.tasks[i]) {
      assert i in w.tasks - {t} <==> i in s.tasks - {t};
      if i in w.tasks { assert (w.tasks - {t})[i] == (s.tasks - {t})[i]; }
    }
  }

  /** A writer of u goes on, stops, or breaks off; there is no other. */
  lemma WriterMoves(s: State, w: State, t: Id, u: Id)
    requires FlagOk(s, u) && t in s.tasks && Writes(s, t, u) && w.tasks - {t} == s.tasks - {t}
    requires Writes(w, t, u) ==> u in w.board.records && w.board.records[u].writing
    requires Breaks(w, t, u) ==> u in w.board.records && w.board.records[u].aborted
    ensures FlagOk(w, u)
  {
    OthersSame(s, w, t);
  }

  lemma OthersSame(s: State, w: State, t: Id)
    requires w.tasks - {t} == s.tasks - {t}
    ensures forall i | i != t :: (i in w.tasks <==> i in s.tasks) && (i in w.tasks ==> w.tasks[i] == s.tasks[i])
  {
    forall i | i != t ensures (i in w.tasks <==> i in s.tasks) && (i in w.tasks ==> w.tasks[i] == s.tasks[i]) {
      assert i in w.tasks - {t} <==> i in s.tasks - {t};
      if i in w.tasks { assert (w.tasks - {t})[i] == (s.tasks - {t})[i]; }
    }
  }

  /** A request that broke off goes on; nobody writes. */
  lemma BreakerMoves(s: State, w: State, t: Id, u: Id)
    requires FlagOk(s, u) && t in s.tasks && Breaks(s, t, u) && w.tasks - {t} == s.tasks - {t}
    requires !Writes(w, t, u) && u in w.board.records && w.board.records[u].aborted
    ensures FlagOk(w, u)
  {
    OthersSame(s, w, t);
  }

  lemma PutFlags(c: Config, s: State, t: Id, ch: Choice, u: Id)
    requires t in s.tasks && s.tasks[t].IsPut() && FlagOk(s, u) && s.tasks[t].u in s.board.records
    ensures FlagOk(PutStep(c, s, t, s.tasks[t], ch), u)
  {
    hide FlagOk, Measured, WithUsage, Append;
    var w := PutStep(c, s, t, s.tasks[t], ch);
    if u == s.tasks[t].u { FlagUp(s, t, u); WriterMoves(s, w, t, u); } else { FlagKept(s, w, t, u); }
  }

  lemma FlagUp(s: State, t: Id, u: Id)
    requires FlagOk(s, u) && t in s.tasks && Writes(s, t, u)
    ensures u in s.board.records && s.board.records[u].writing
  {
  }

  lemma EndFlags(s: State, t: Id, ch: Choice, u: Id)
    requires t in s.tasks && s.tasks[t].IsEnd() && FlagOk(s, u) && s.tasks[t].u in s.board.records
    ensures FlagOk(EndStep(s, t, s.tasks[t], ch), u)
  {
    hide FlagOk, EndStep;
    if s.tasks[t].Releasing? { ReleaseFlags(s, t, ch, u); }
    else if s.tasks[t].Discarding? { DiscardFlags(s, t, ch, u); }
    else { CommitFlags(s, t, ch, u); }
  }

  lemma CommitFlags(s: State, t: Id, ch: Choice, u: Id)
    requires t in s.tasks && FlagOk(s, u) && s.tasks[t].IsEnd() && s.tasks[t].u in s.board.records
    requires !s.tasks[t].Releasing? && !s.tasks[t].Discarding?
    ensures FlagOk(EndStep(s, t, s.tasks[t], ch), u)
  {
    hide FlagOk;
    FlagKept(s, EndStep(s, t, s.tasks[t], ch), t, u);
  }

  lemma ReleaseFlags(s: State, t: Id, ch: Choice, u: Id)
    requires t in s.tasks && FlagOk(s, u) && s.tasks[t].Releasing? && s.tasks[t].u in s.board.records
    ensures FlagOk(EndStep(s, t, s.tasks[t], ch), u)
  {
    hide FlagOk;
    FlagKept(s, EndStep(s, t, s.tasks[t], ch), t, u);
  }

  lemma DiscardFlags(s: State, t: Id, ch: Choice, u: Id)
    requires t in s.tasks && FlagOk(s, u) && s.tasks[t].Discarding? && s.tasks[t].u in s.board.records
    ensures FlagOk(EndStep(s, t, s.tasks[t], ch), u)
  {
    hide FlagOk;
    var w := EndStep(s, t, s.tasks[t], ch);
    if Breaks(s, t, u) { BrokenOff(s, t, u); BreakerMoves(s, w, t, u); } else { FlagKept(s, w, t, u); }
  }

  lemma BrokenOff(s: State, t: Id, u: Id)
    requires FlagOk(s, u) && t in s.tasks && Breaks(s, t, u)
    ensures u in s.board.records && s.board.records[u].aborted
  {
  }

  lemma SweepFlags(c: Config, s: State, t: Id, ch: Choice, u: Id)
    requires t in s.tasks && s.tasks[t].IsSweep() && FlagOk(s, u)
    ensures FlagOk(SweepStep(c, s, t, s.tasks[t], ch), u)
  {
    hide FlagOk, SweepSkips;
    FlagKept(s, SweepStep(c, s, t, s.tasks[t], ch), t, u);
  }

  lemma CleanFlags(s: State, t: Id, ch: Choice, u: Id)
    requires t in s.tasks && s.tasks[t].IsClean() && FlagOk(s, u)
    ensures FlagOk(CleanStep(s, t, s.tasks[t], ch), u)
  {
    hide FlagOk;
    FlagKept(s, CleanStep(s, t, s.tasks[t], ch), t, u);
  }

  lemma OtherFlags(c: Config, s: State, t: Id, ch: Choice, u: Id)
    requires t in s.tasks && MayResume(s, s.tasks[t], ch) && FlagOk(s, u)
    requires s.tasks[t].MakingDirs? || s.tasks[t].InitWaiting? || s.tasks[t].InitHolding? || s.tasks[t].Unlinking?
    ensures FlagOk(Proceed(c, s, t, ch), u)
  {
    hide FlagOk, Measured, Grants, Decide, ReadUsage;
    FlagKept(s, Proceed(c, s, t, ch), t, u);
  }

  lemma BeginFlags(c: Config, s: State, e: Event, u: Id)
    requires MayStart(c, s, e) && !e.Resume? && !e.ReadStorage? && FlagOk(s, u) && OneWriter(s, e)
    requires e.PutStart? || e.CompleteStart? || e.AbortStart? ==> e.u in s.board.records
    ensures FlagOk(Begin(s, e), u)
  {
    hide FlagOk, Resolve, Begin;
    if e.PutStart? && u == e.u { FirstWriter(c, s, e); }
    else if e.Tick? || e.Populate? { PassFlags(c, s, e, u); }
    else { StartFlags(c, s, e, u); }
  }

  lemma PassFlags(c: Config, s: State, e: Event, u: Id)
    requires FlagOk(s, u) && (e.Tick? || e.Populate?)
    ensures FlagOk(Begin(s, e), u)
  {
    hide FlagOk;
    SameFlags(s, Begin(s, e), u);
  }

  lemma StartFlags(c: Config, s: State, e: Event, u: Id)
    requires MayStart(c, s, e) && !e.Resume? && !e.ReadStorage? && !e.Tick? && !e.Populate?
    requires FlagOk(s, u) && (e.PutStart? ==> u != e.u)
    requires e.PutStart? || e.CompleteStart? || e.AbortStart? ==> e.u in s.board.records
    ensures FlagOk(Begin(s, e), u)
  {
    hide FlagOk, Resolve, Begin;
    StartEffect(c, s, e, u);
    FlagKept(s, Begin(s, e), e.t, u);
  }

  /** An event that starts a task leaves the flags of other uploads, and of its own but for a writer's, as they are. */
  lemma StartEffect(c: Config, s: State, e: Event, u: Id)
    requires MayStart(c, s, e) && !e.Resume? && !e.ReadStorage? && !e.Tick? && !e.Populate?
    requires e.PutStart? ==> u != e.u
    requires e.PutStart? || e.CompleteStart? || e.AbortStart? ==> e.u in s.board.records
    ensures var w := Begin(s, e);
            && w.tasks - {e.t} == s.tasks - {e.t} && !Writes(w, e.t, u) && !Breaks(w, e.t, u)
            && (u in s.board.records ==>
                  && u in w.board.records && w.board.records[u].writing == s.board.records[u].writing
                  && (s.board.records[u].aborted ==> w.board.records[u].aborted))
  {
    hide Resolve;
  }

  lemma SameFlags(s: State, w: State, u: Id)
    requires FlagOk(s, u) && w.tasks == s.tasks && w.board.records == s.board.records
    ensures FlagOk(w, u)
  {
  }

  /** What can be resolved is not aborted, so nobody is breaking off either. */
  lemma FirstWriter(c: Config, s: State, e: Event)
    requires e.PutStart? && MayStart(c, s, e) && OneWriter(s, e) && FlagOk(s, e.u) && e.u in s.board.records
    ensures FlagOk(Begin(s, e), e.u)
  {
    var w := Begin(s, e);
    OthersSame(s, w, e.t);
    forall i | i in w.tasks && Writes(w, i, e.u) ensures i == e.t { assert i != e.t ==> Writes(s, i, e.u); }
    forall i | i in w.tasks && Breaks(w, i, e.u) ensures false { assert Breaks(s, i, e.u); }
  }

  lemma ProceedFlags(c: Config, s: State, t: Id, ch: Choice)
    requires Safe(c, s) && FlagsOk(s) && t in s.tasks && MayResume(s, s.tasks[t], ch)
    ensures FlagsOk(Proceed(c, s, t, ch))
  {
    hide Safe, FlagOk, MayResume, PutStep, EndStep, SweepStep, CleanStep;
    var task := s.tasks[t];
    if task.IsPut() || task.IsEnd() { NamedOnRecord(c, s, t, task.u); }
    forall u ensures FlagOk(Proceed(c, s, t, ch), u) {
      if task.IsPut() { PutFlags(c, s, t, ch, u); }
      else if task.IsEnd() { EndFlags(s, t, ch, u); }
      else if task.IsSweep() { SweepFlags(c, s, t, ch, u); }
      else if task.IsClean() { CleanFlags(s, t, ch, u); }
      else { OtherFlags(c, s, t, ch, u); }
    }
  }

  /** Every step keeps the flags right, if no second request begins to receive bytes of an upload. */
  lemma StepFlags(c: Config, s: State, e: Event)
    requires Safe(c, s) && FlagsOk(s) && MayStart(c, s, e) && OneWriter(s, e)
    ensures FlagsOk(Step(c, s, e))
  {
    hide Safe, FlagOk, MayResume, Proceed, Begin, OneWriter, WithUsage, Resolve;
    if e.Resume? { ProceedFlags(c, s, e.t, e.ch); }
    else {
      if e.PutStart? || e.CompleteStart? || e.AbortStart? { Resolved(c, s, e.u); }
      forall u ensures FlagOk(Step(c, s, e), u) {
        if e.ReadStorage? { SameFlags(s, Step(c, s, e), u); } else { BeginFlags(c, s, e, u); }
      }
    }
  }

  lemma {:induction false} RunFlags(c: Config, s: State, es: seq<Event>)
    requires Safe(c, s) && FlagsOk(s) && Legal(c, s, es) && WritersApart(c, s, es)
    ensures Safe(c, After(c, s, es)) && FlagsOk(After(c, s, es))
    decreases |es|
  {
    hide Safe, FlagsOk, Step, MayStart, OneWriter, Kept;
    if es == [] {
    } else {
      StepSafe(c, s, es[0]); KeptIsSafe(c, s, Step(c, s, es[0]));
      StepFlags(c, s, es[0]);
      RunFlags(c, Step(c, s, es[0]), es[1..]);
    }
  }
}
