/**
 What the usage figures can cost: the bytes that land between a measurement and the admission
 that relies on it, and what the measuring walk itself missed. The log of a run lists the clock
 and the bytes landed so far, state by state.
 */
module UploadBudget {
  import opened Basics
  import opened MapSums
  import opened Vault
  import opened UploadMachine
  import opened BoardSafety
  import opened UploadSafety
  import opened UploadFigures
  import opened UploadAgreement

  type Log = seq<(nat, nat)>

  /** At most `most` bytes land while the clock moves on by less than `win`. */
  ghost predicate Paced(log: Log, win: nat, most: nat) {
    forall i, j | 0 <= i <= j < |log| :: log[j].0 < log[i].0 + win ==> log[j].1 <= log[i].1 + most
  }

  ghost function LogOf(c: Config, s: State, es: seq<Event>): (log: Log)
    requires Legal(c, s, es)
    ensures |log| == |es| + 1
    decreases |es|
  {
    if es == [] then [(s.now, s.vault.landed)]
    else [(s.now, s.vault.landed)] + LogOf(c, Step(c, s, es[0]), es[1..])
  }

  /** The step relies on a usage figure to admit an upload. */
  predicate Decides(c: Config, s: State, e: Event) {
    e.Resume? && e.t in s.tasks && s.tasks[e.t].InitHolding? && s.vault.hold.Ready? && c.budget != 0
  }

  /** Every admission comes less than `win` after the measurement it relies on. */
  ghost predicate Lasts(c: Config, s: State, es: seq<Event>, win: nat)
    requires Legal(c, s, es)
    decreases |es|
  {
    es != [] ==>
      && (Decides(c, s, es[0]) ==> s.now < s.vault.hold.at + win)
      && Lasts(c, Step(c, s, es[0]), es[1..], win)
  }

  /** Every new measurement misses at most `miss` bytes and counts at most `over` too many. */
  ghost predicate Walks(c: Config, s: State, es: seq<Event>, miss: nat, over: nat)
    requires Legal(c, s, es)
    decreases |es|
  {
    es != [] ==>
      && (ReadsUsage(s, es[0]) ==> Accurate(s, es[0], miss, over))
      && Walks(c, Step(c, s, es[0]), es[1..], miss, over)
  }

  ghost predicate Accurate(s: State, e: Event, miss: nat, over: nat) {
    Used(s.vault) <= Figure(e) + miss && Figure(e) <= Used(s.vault) + over
  }

  /** A log entry that a figure taken at `at` accounts for, but for `miss` bytes. */
  ghost predicate Backs(log: Log, at: nat, mark: int, miss: nat) {
    exists i :: 0 <= i < |log| && log[i].0 == at && log[i].1 <= mark + miss
  }

  /** The usage figures in use were measured at moments of the log. */
  ghost predicate Backed(c: Config, s: State, log: Log, most: nat, miss: nat, over: nat) {
    && log != [] && log[|log| - 1] == (s.now, s.vault.landed)
    && (s.vault.cache.Some? && c.budget != 0 ==> Backs(log, s.vault.cache.value.at, s.vault.cache.value.mark, miss))
    && (s.vault.hold.Ready? && c.budget != 0 ==> Backs(log, s.vault.hold.at, s.vault.hold.mark, miss))
    && s.vault.debt <= most + miss && s.vault.excess <= over
  }

  lemma BacksMore(log: Log, entry: (nat, nat), at: nat, mark: int, miss: nat)
    requires Backs(log, at, mark, miss)
    ensures Backs(log + [entry], at, mark, miss)
  {
    var i :| 0 <= i < |log| && log[i].0 == at && log[i].1 <= mark + miss;
    assert (log + [entry])[i] == log[i];
  }

  /** A figure that is measured now is backed by the last entry. */
  lemma MeasuredBacked(c: Config, s: State, e: Event, log: Log, most: nat, miss: nat, over: nat)
    requires Backed(c, s, log, most, miss, over) && c.budget != 0 && Accurate(s, e, miss, over)
    ensures var m := Measured(c, s.vault, s.now, Figure(e)); Backs(log, m.at, m.mark, miss)
    ensures WithUsage(c, s.vault, s.now, Figure(e)).excess <= over
  {
    hide Backs;
    if !CacheFresh(c, s.vault, s.now) { LastBacks(log, s.vault.landed - Max(0, Used(s.vault) - Figure(e)), miss); }
  }

  lemma LastBacks(log: Log, mark: int, miss: nat)
    requires log != [] && log[|log| - 1].1 <= mark + miss
    ensures Backs(log, log[|log| - 1].0, mark, miss)
  {
  }

  /** An admission raises the debt to what its figure did not account for. */
  lemma DebtBacked(log: Log, now: nat, landed: nat, at: nat, mark: int, win: nat, most: nat, miss: nat)
    requires log != [] && log[|log| - 1] == (now, landed) && Backs(log, at, mark, miss) && Paced(log, win, most)
    requires now < at + win
    ensures landed - mark <= most + miss
  {
  }

  lemma StepBacked(c: Config, s: State, e: Event, log: Log, win: nat, most: nat, miss: nat, over: nat)
    requires Backed(c, s, log, most, miss, over) && Paced(log, win, most) && MayStart(c, s, e)
    requires Decides(c, s, e) ==> s.now < s.vault.hold.at + win
    requires ReadsUsage(s, e) ==> Accurate(s, e, miss, over)
    ensures var w := Step(c, s, e); Backed(c, w, log + [(w.now, w.vault.landed)], most, miss, over)
  {
    hide Backs, Paced, Measured, WithUsage, Step, MayStart, Accurate, ReadsUsage;
    var w := Step(c, s, e);
    var entry := (w.now, w.vault.landed);
    StepMoves(c, s, e);
    HoldOnlyRead(c, s, e);
    DebtOnlyDecided(c, s, e);
    if c.budget != 0 {
      if ReadsUsage(s, e) { MeasuredBacked(c, s, e, log, most, miss, over); UsageCache(c, s.vault, s.now, Figure(e)); }
      if w.vault.debt != s.vault.debt {
        DebtBacked(log, s.now, s.vault.landed, s.vault.hold.at, s.vault.hold.mark, win, most, miss);
      }
      if w.vault.cache.Some? { BacksMore(log, entry, w.vault.cache.value.at, w.vault.cache.value.mark, miss); }
      if w.vault.hold.Ready? { BacksMore(log, entry, w.vault.hold.at, w.vault.hold.mark, miss); }
    }
  }

  lemma UsageCache(c: Config, v: Vault, now: nat, figure: nat)
    ensures c.budget != 0 ==> WithUsage(c, v, now, figure).cache == Some(Measured(c, v, now, figure))
  {
  }

  /** A new reading under the lock comes only from reading the usage. */
  lemma HoldOnlyRead(c: Config, s: State, e: Event)
    requires MayStart(c, s, e)
    ensures var w := Step(c, s, e);
            w.vault.hold.Ready? && w.vault.hold != s.vault.hold ==> ReadsUsage(s, e)
  {
    hide Measured, Grants, Decide, MayResume, PutStep;
    if e.Resume? && s.tasks[e.t].IsPut() { PutKeepsHold(c, s, e.t, e.ch); }
    else if e.Resume? && !s.tasks[e.t].InitHolding? { hide Proceed; OtherMoves(c, s, e.t, e.ch); }
    else if e.Resume? { DecideGives(c, s.vault, e.ch.u, s.tasks[e.t].size); }
  }

  lemma PutKeepsHold(c: Config, s: State, t: Id, ch: Choice)
    requires t in s.tasks && s.tasks[t].IsPut()
    ensures PutStep(c, s, t, s.tasks[t], ch).vault.hold == s.vault.hold
    ensures PutStep(c, s, t, s.tasks[t], ch).vault.debt == s.vault.debt
  {
    hide Measured;
  }

  lemma DecideGives(c: Config, v: Vault, u: Id, size: nat)
    ensures v.hold.Ready? ==> Decide(c, v, u, size).hold.Unlocked?
  {
  }

  lemma DebtOnlyDecided(c: Config, s: State, e: Event)
    requires MayStart(c, s, e)
    ensures Step(c, s, e).vault.debt != s.vault.debt ==> Decides(c, s, e)
  {
    hide Measured, Grants, MayResume, PutStep;
    if e.Resume? && s.tasks[e.t].IsPut() { PutKeepsHold(c, s, e.t, e.ch); }
    else if e.Resume? && !s.tasks[e.t].InitHolding? { hide Proceed; OtherMoves(c, s, e.t, e.ch); }
  }

  lemma {:induction false} BackedRun(
      c: Config, s: State, es: seq<Event>, log: Log, win: nat, most: nat, miss: nat, over: nat)
    requires Legal(c, s, es) && Lasts(c, s, es, win) && Walks(c, s, es, miss, over)
    requires Backed(c, s, log, most, miss, over) && Paced(log[..|log| - 1] + LogOf(c, s, es), win, most)
    ensures After(c, s, es).vault.debt <= most + miss && After(c, s, es).vault.excess <= over
    decreases |es|
  {
    hide Paced, Step, MayStart, Backs, Accurate, ReadsUsage, Decides;
    if es == [] {
    } else {
      var w := Step(c, s, es[0]);
      var all, more := log[..|log| - 1] + LogOf(c, s, es), log + [(w.now, w.vault.landed)];
      assert all == log + LogOf(c, w, es[1..]);
      PacedPrefix(all, |log|, win, most);
      assert all[..|log|] == log;
      StepBacked(c, s, es[0], log, win, most, miss, over);
      assert more[..|more| - 1] == log;
      BackedRun(c, w, es[1..], more, win, most, miss, over);
    }
  }

  lemma PacedPrefix(log: Log, n: nat, win: nat, most: nat)
    requires Paced(log, win, most) && n <= |log|
    ensures Paced(log[..n], win, most)
  {
  }

  /** How far the figures of a run can be off, from what it does between measuring and admitting. */
  lemma FiguresBounded(c: Config, s: State, es: seq<Event>, win: nat, most: nat, miss: nat, over: nat)
    requires s == START && Legal(c, s, es) && Lasts(c, s, es, win) && Walks(c, s, es, miss, over)
    requires Paced(LogOf(c, s, es), win, most)
    ensures After(c, s, es).vault.debt <= most + miss && After(c, s, es).vault.excess <= over
  {
    hide Paced, Lasts, Walks;
    var log := [(s.now, s.vault.landed)];
    assert log[..|log| - 1] + LogOf(c, s, es) == LogOf(c, s, es);
    BackedRun(c, s, es, log, win, most, miss, over);
  }

  /**
   The budget over a whole run: used bytes and promises exceed budget minus headroom at most
   by what lands in the longest time from a measurement to an admission made on it, by what a
   measurement missed, and by stray bytes.
   */
  lemma BudgetWithinOneWindow(c: Config, s: State, es: seq<Event>, win: nat, most: nat, miss: nat, over: nat)
    requires s == START && Legal(c, s, es) && c.budget != 0
    requires Lasts(c, s, es, win) && Walks(c, s, es, miss, over) && Paced(LogOf(c, s, es), win, most)
    ensures var v := After(c, s, es).vault;
            Used(v) + Outstanding(v) <= Max(0, c.budget - c.headroom) + most + miss + v.stray
  {
    hide Paced, Lasts, Walks;
    FiguresBounded(c, s, es, win, most, miss, over);
    BudgetBound(c, s, es);
  }

  /** So when requests on one upload do not overlap, a headroom of that many bytes keeps the budget. */
  lemma HeadroomAbsorbsTheWindow(c: Config, s: State, es: seq<Event>, win: nat, most: nat, miss: nat, over: nat)
    requires s == START && Legal(c, s, es) && Orderly(c, s, es) && c.budget != 0
    requires Lasts(c, s, es, win) && Walks(c, s, es, miss, over) && Paced(LogOf(c, s, es), win, most)
    requires most + miss <= c.headroom <= c.budget
    ensures Used(After(c, s, es).vault) + Outstanding(After(c, s, es).vault) <= c.budget
  {
    hide Paced, Lasts, Walks, Legal, After, Orderly, Exactly, Safe;
    BudgetWithinOneWindow(c, s, es, win, most, miss, over);
    StrayNone(c, s, es);
  }

  lemma StrayNone(c: Config, s: State, es: seq<Event>)
    requires s == START && Legal(c, s, es) && Orderly(c, s, es)
    ensures After(c, s, es).vault.stray == 0
  {
    hide Safe, Orderly, Legal, After;
    Reaches(c, s, es);
  }

  /** And a re-check finds the headroom but for the same bytes and what a measurement counts too many. */
  lemma RecheckWithinOneWindow(
      c: Config, s: State, es: seq<Event>, t: Id, win: nat, most: nat, miss: nat, over: nat)
    requires s == START && Legal(c, s, es) && Orderly(c, s, es)
    requires Lasts(c, s, es, win) && Walks(c, s, es, miss, over) && Paced(LogOf(c, s, es), win, most)
    requires t in After(c, s, es).tasks && After(c, s, es).tasks[t].Rechecked?
    ensures After(c, s, es).tasks[t].reading >= Floor(c) - most - miss - over
  {
    hide Paced, Lasts, Walks, Legal, After, Orderly, Floor;
    FiguresBounded(c, s, es, win, most, miss, over);
    NeverBreached(c, s, es, t);
  }

  // ------------------------------------------------------------------
  // The lifetime of the cache
  // ------------------------------------------------------------------

  /** Once it has its usage figure, an admission is decided before the clock moves on. */
  ghost predicate Prompt(c: Config, s: State, es: seq<Event>)
    requires Legal(c, s, es)
    decreases |es|
  {
    es != [] ==> (es[0].Tick? ==> !s.vault.hold.Ready?) && Prompt(c, Step(c, s, es[0]), es[1..])
  }

  /** A reading under the lock is no older than the cache's lifetime. */
  ghost predicate Young(c: Config, s: State) { s.vault.hold.Ready? ==> s.now < s.vault.hold.at + Max(c.ttlMs, 1) }

  lemma YoungStep(c: Config, s: State, e: Event)
    requires Young(c, s) && MayStart(c, s, e) && (e.Tick? ==> !s.vault.hold.Ready?)
    ensures Young(c, Step(c, s, e))
  {
    hide Measured, Step, CacheMoves, DebtMoves;
    StepMoves(c, s, e);
    MeasuredYoung(c, s.vault, s.now, Figure(e));
    if e.Tick? { TickHold(c, s, e); }
  }

  lemma TickHold(c: Config, s: State, e: Event)
    requires e.Tick?
    ensures Step(c, s, e).vault == s.vault
  {
  }

  lemma MeasuredYoung(c: Config, v: Vault, now: nat, figure: nat)
    ensures now < Measured(c, v, now, figure).at + Max(c.ttlMs, 1)
  {
  }

  /** For such runs the window is the lifetime of the cached figure. */
  lemma {:induction false} PromptLasts(c: Config, s: State, es: seq<Event>)
    requires Legal(c, s, es) && Prompt(c, s, es) && Young(c, s)
    ensures Lasts(c, s, es, Max(c.ttlMs, 1))
    decreases |es|
  {
    hide Step, MayStart;
    if es == [] {
    } else {
      YoungStep(c, s, es[0]);
      PromptLasts(c, Step(c, s, es[0]), es[1..]);
    }
  }
}
