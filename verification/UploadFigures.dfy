/** How the steps move the usage figures: the cache, the lock's readings, debt and excess. */
module UploadFigures {
  import opened Basics
  import opened Vault
  import opened UploadMachine

  /** The figure that a walk started by this event comes to. */
  function Figure(e: Event): nat {
    match e
    case ReadStorage(figure) => figure
    case Resume(_, ch) => ch.n
    case _ => 0
  }

  /** The event reads how much is used. */
  predicate ReadsUsage(s: State, e: Event) {
    || e.ReadStorage?
    || (e.Resume? && e.t in s.tasks
        && (s.tasks[e.t].Rechecking? || (s.tasks[e.t].InitHolding? && s.vault.hold.ReadFree?)))
  }

  /** How a step may move the lock, the cache, the debt and the excess. */
  ghost predicate Moves(c: Config, v: Vault, w: Vault, now: nat, figure: nat) {
    && v.landed <= w.landed
    && CacheMoves(c, v, w, now, figure)
    && HoldMoves(c, v, w, now, figure)
    && (w.debt == v.debt || DebtMoves(c, v, w))
  }

  ghost predicate CacheMoves(c: Config, v: Vault, w: Vault, now: nat, figure: nat) {
    || (w.cache == v.cache && w.excess == v.excess)
    || (c.budget != 0 && var u := WithUsage(c, v, now, figure); w.cache == u.cache && w.excess == u.excess)
  }

  ghost predicate HoldMoves(c: Config, v: Vault, w: Vault, now: nat, figure: nat) {
    || w.hold == v.hold || !w.hold.Ready?
    || (w.hold.mark == Measured(c, v, now, figure).mark && w.hold.at == Measured(c, v, now, figure).at)
  }

  /** Only an admission raises the debt. */
  predicate DebtMoves(c: Config, v: Vault, w: Vault) {
    v.hold.Ready? && c.budget != 0 && w.debt == Max(v.debt, v.landed - v.hold.mark)
  }

  lemma PutMoves(c: Config, s: State, t: Id, ch: Choice)
    requires t in s.tasks && s.tasks[t].IsPut()
    ensures Moves(c, s.vault, PutStep(c, s, t, s.tasks[t], ch).vault, s.now, ch.n)
    ensures PutStep(c, s, t, s.tasks[t], ch).now == s.now
    ensures var w := PutStep(c, s, t, s.tasks[t], ch).vault;
            !s.tasks[t].Rechecking? ==> w.cache == s.vault.cache && w.excess == s.vault.excess
  {
    hide Measured;
  }

  lemma AdmitMoves(c: Config, s: State, t: Id, r: Id, size: nat, ch: Choice)
    ensures Moves(c, s.vault, HoldStep(c, s, t, r, size, ch).vault, s.now, ch.n)
    ensures HoldStep(c, s, t, r, size, ch).now == s.now
    ensures var w := HoldStep(c, s, t, r, size, ch).vault;
            !s.vault.hold.ReadFree? ==> w.cache == s.vault.cache && w.excess == s.vault.excess
  {
    hide Measured, Grants;
  }

  /** The remaining steps leave the figures alone. */
  lemma OtherMoves(c: Config, s: State, t: Id, ch: Choice)
    requires t in s.tasks && !s.tasks[t].IsPut() && !s.tasks[t].InitHolding?
    ensures var w := Proceed(c, s, t, ch);
            && w.vault.cache == s.vault.cache && w.vault.excess == s.vault.excess && w.vault.debt == s.vault.debt
            && w.vault.landed == s.vault.landed && w.now == s.now
            && (w.vault.hold == s.vault.hold || !w.vault.hold.Ready?)
  {
    if s.tasks[t].IsEnd() { EndMoves(s, t, ch); }
    else if s.tasks[t].IsSweep() { SweepMoves(c, s, t, ch); }
    else if s.tasks[t].IsClean() { CleanMoves(s, t, ch); }
  }

  predicate SameFigures(s: State, w: State) {
    && w.vault.cache == s.vault.cache && w.vault.excess == s.vault.excess && w.vault.debt == s.vault.debt
    && w.vault.landed == s.vault.landed && w.now == s.now && w.vault.hold == s.vault.hold
  }

  lemma EndMoves(s: State, t: Id, ch: Choice)
    requires t in s.tasks && s.tasks[t].IsEnd()
    ensures SameFigures(s, EndStep(s, t, s.tasks[t], ch))
  {
  }

  lemma SweepMoves(c: Config, s: State, t: Id, ch: Choice)
    requires t in s.tasks && s.tasks[t].IsSweep()
    ensures SameFigures(s, SweepStep(c, s, t, s.tasks[t], ch))
  {
  }

  lemma CleanMoves(s: State, t: Id, ch: Choice)
    requires t in s.tasks && s.tasks[t].IsClean()
    ensures SameFigures(s, CleanStep(s, t, s.tasks[t], ch))
  {
  }

  lemma StepMoves(c: Config, s: State, e: Event)
    requires MayStart(c, s, e)
    ensures var w := Step(c, s, e);
            && Moves(c, s.vault, w.vault, s.now, Figure(e))
            && w.now == (if e.Tick? then s.now + e.dt else s.now)
            && ((w.vault.cache == s.vault.cache && w.vault.excess == s.vault.excess) || ReadsUsage(s, e))
  {
    hide Measured, PutStep, HoldStep, MayResume;
    if e.Resume? {
      if s.tasks[e.t].IsPut() { PutMoves(c, s, e.t, e.ch); }
      else if s.tasks[e.t].InitHolding? { AdmitMoves(c, s, e.t, s.tasks[e.t].r, s.tasks[e.t].size, e.ch); }
      else { hide Proceed; OtherMoves(c, s, e.t, e.ch); }
    }
  }
}
