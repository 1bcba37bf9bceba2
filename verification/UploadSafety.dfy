/** Invariants of every run of the upload server; the first main result, no over-admission. */
module UploadSafety {
  import opened MapSums
  import opened Basics
  import opened Vault
  import opened UploadMachine
  import opened BoardSafety

  /** A figure carried across a suspension never understates what is still to come. */
  ghost predicate FigureOk(v: Vault, task: Task) {
    && (task.Appended? ==> task.u in v.terms && task.landed <= v.terms[task.u].landed)
    && (task.Shrinking? ==> task.u in v.terms && v.terms[task.u].declared - v.terms[task.u].landed <= task.remaining)
  }

  /** A room that is being cleaned up has one cleanup task, and it names only that room's uploads. */
  ghost predicate CleanOk(b: Board, t: Id, task: Task) {
    task.IsClean() ==>
      && task.r in b.rooms && b.rooms[task.r].cleaner == t && !b.rooms[task.r].abandoned
      && b.rooms[task.r].phase == (if task.CleanStart? then Closing else Cleaning)
      && (forall u | task.Names(u) :: u in b.records && b.records[u].room == task.r)
      && (task.CleanRemoving? ==> b.rooms[task.r].documents == {})
  }

  ghost predicate TaskOk(b: Board, v: Vault, t: Id, task: Task) {
    && (forall u | task.Names(u) :: u in b.records)
    && FigureOk(v, task)
    && CleanOk(b, t, task)
    && (task.MakingDirs? || task.InitWaiting? || task.InitHolding? ==> task.r in b.rooms)
  }

  ghost predicate TasksOk(s: State) {
    forall t | t in s.tasks :: TaskOk(s.board, s.vault, t, s.tasks[t])
  }

  ghost predicate Safe(c: Config, s: State) {
    && Sound(c, s.vault) && PartsOk(s.vault)
    && BoardOk(c, s.board) && s.board.records.Keys == s.vault.terms.Keys
    && TasksOk(s)
  }

  // ------------------------------------------------------------------
  // One step: a board update, a vault update and the next state of task t
  // ------------------------------------------------------------------

  ghost predicate Steps(c: Config, s: State, t: Id, b: Board, v: Vault) {
    && BoardOk(c, b) && Carried(s.board, b, t) && Sound(c, v) && Moved(s.vault, v)
    && b.records.Keys == v.terms.Keys
  }

  /** The invariant again, and nothing on the board disappeared or went back. */
  ghost predicate Kept(c: Config, s: State, w: State) {
    Safe(c, w) && Advances(s.board, w.board)
  }

  lemma StopSafe(c: Config, s: State, t: Id, b: Board, v: Vault)
    requires Safe(c, s) && Steps(c, s, t, b, v)
    ensures Kept(c, s, Stop(s, t, b, v))
  {
    hide Sound, BoardOk, PartsOk, TaskOk, Carried;
    var w := Stop(s, t, b, v);
    forall i | i in w.tasks ensures TaskOk(b, v, i, w.tasks[i]) {
      assert TaskOk(s.board, s.vault, i, s.tasks[i]);
      TaskCarried(s.board, b, s.vault, v, t, i, s.tasks[i]);
    }
    CarriedAdvances(s.board, b, t);
  }

  /** A step of task t leaves what other tasks know true. */
  lemma TaskCarried(b: Board, bw: Board, v: Vault, vw: Vault, t: Id, i: Id, task: Task)
    requires TaskOk(b, v, i, task) && Carried(b, bw, t) && Moved(v, vw) && i != t
    ensures TaskOk(bw, vw, i, task)
  {
    hide PartsOk;
  }

  lemma CarriedAdvances(b: Board, w: Board, t: Id)
    requires Carried(b, w, t)
    ensures Advances(b, w)
  {
  }

  lemma GoSafe(c: Config, s: State, t: Id, b: Board, v: Vault, task: Task)
    requires Safe(c, s) && Steps(c, s, t, b, v) && TaskOk(b, v, t, task)
    ensures Kept(c, s, Go(s, t, b, v, task))
  {
    hide Sound, BoardOk, PartsOk, TaskOk, Carried;
    var w := Go(s, t, b, v, task);
    forall i | i in w.tasks ensures TaskOk(b, v, i, w.tasks[i]) {
      if i != t {
        assert TaskOk(s.board, s.vault, i, s.tasks[i]);
        TaskCarried(s.board, b, s.vault, v, t, i, s.tasks[i]);
      }
    }
    CarriedAdvances(s.board, b, t);
  }

  /** A step that only moves its task on. */
  lemma TaskGo(c: Config, s: State, t: Id, task: Task)
    requires Safe(c, s) && TaskOk(s.board, s.vault, t, task)
    ensures Kept(c, s, Go(s, t, s.board, s.vault, task))
  {
    GoSafe(c, s, t, s.board, s.vault, task);
  }

  lemma TaskStop(c: Config, s: State, t: Id)
    requires Safe(c, s)
    ensures Kept(c, s, Stop(s, t, s.board, s.vault))
  {
    StopSafe(c, s, t, s.board, s.vault);
  }

  /** A step that leaves the vault alone. */
  lemma BoardGo(c: Config, s: State, t: Id, b: Board, task: Task)
    requires Safe(c, s) && BoardOk(c, b) && Carried(s.board, b, t) && b.records.Keys == s.board.records.Keys
    requires TaskOk(b, s.vault, t, task)
    ensures Kept(c, s, Go(s, t, b, s.vault, task))
  {
    GoSafe(c, s, t, b, s.vault, task);
  }

  /** The same for a task that does not clean a room: it may be checked against the old board. */
  lemma BoardGoOn(c: Config, s: State, t: Id, b: Board, task: Task)
    requires Safe(c, s) && BoardOk(c, b) && Carried(s.board, b, t) && b.records.Keys == s.board.records.Keys
    requires !task.IsClean() && TaskOk(s.board, s.vault, t, task)
    ensures Kept(c, s, Go(s, t, b, s.vault, task))
  {
    assert TaskOk(b, s.vault, t, task);
    BoardGo(c, s, t, b, task);
  }

  lemma VaultStop(c: Config, s: State, t: Id, v: Vault)
    requires Safe(c, s) && Sound(c, v) && Moved(s.vault, v) && v.terms.Keys == s.vault.terms.Keys
    ensures Kept(c, s, Stop(s, t, s.board, v))
  {
    StopSafe(c, s, t, s.board, v);
  }

  /** A step that leaves the board alone. */
  lemma VaultGo(c: Config, s: State, t: Id, v: Vault, task: Task)
    requires Safe(c, s) && Sound(c, v) && Moved(s.vault, v) && v.terms.Keys == s.vault.terms.Keys
    requires TaskOk(s.board, v, t, task)
    ensures Kept(c, s, Go(s, t, s.board, v, task))
  {
    GoSafe(c, s, t, s.board, v, task);
  }

  /** A step that updates one record and moves its task on. */
  lemma RecordGo(c: Config, s: State, t: Id, u: Id, rec: Record, v: Vault, task: Task)
    requires Safe(c, s) && Sound(c, v) && Moved(s.vault, v) && v.terms.Keys == s.vault.terms.Keys
    requires u in s.board.records && rec.room == s.board.records[u].room
    requires rec.aborted ==> s.board.records[u].aborted || RoomAt(s.board, rec.room).phase != Open
    requires TaskOk(s.board, v, t, task)
    ensures Kept(c, s, Go(s, t, SetRecord(s.board, u, rec), v, task))
  {
    hide Advances, Carried, Sound, PartsOk, Moved, TasksOk, TaskOk, RoomOk, CodeOk;
    SetRecordOk(c, s.board, u, rec);
    TaskOnRecord(s.board, v, u, rec, t, task);
    GoSafe(c, s, t, SetRecord(s.board, u, rec), v, task);
  }

  lemma TaskOnRecord(b: Board, v: Vault, u: Id, rec: Record, t: Id, task: Task)
    requires TaskOk(b, v, t, task) && u in b.records && rec.room == b.records[u].room
    ensures TaskOk(SetRecord(b, u, rec), v, t, task)
  {
  }

  lemma RecordStop(c: Config, s: State, t: Id, u: Id, rec: Record, v: Vault)
    requires Safe(c, s) && Sound(c, v) && Moved(s.vault, v) && v.terms.Keys == s.vault.terms.Keys
    requires u in s.board.records && rec.room == s.board.records[u].room && rec.aborted == s.board.records[u].aborted
    ensures Kept(c, s, Stop(s, t, SetRecord(s.board, u, rec), v))
  {
    hide Advances, Carried, Sound, PartsOk, Moved, TasksOk, RoomOk, CodeOk;
    SetRecordOk(c, s.board, u, rec);
    StopSafe(c, s, t, SetRecord(s.board, u, rec), v);
  }

  /** Giving back a reservation under the lock, then going on. */
  lemma ReleaseGo(c: Config, s: State, t: Id, u: Id, task: Task)
    requires Safe(c, s) && u in s.board.records && s.vault.hold.Unlocked? && TaskOk(s.board, s.vault, t, task)
    ensures Kept(c, s, Go(s, t, SetRecord(s.board, u, GiveBack(s.board.records[u], t)), Release(s.vault, u), task))
  {
    ReleaseSound(c, s.vault, u); ReleaseMoved(s.vault, u);
    RecordGo(c, s, t, u, GiveBack(s.board.records[u], t), Release(s.vault, u), task);
  }

  /** Deleting a part, then going on. */
  lemma DiscardGo(c: Config, s: State, t: Id, u: Id, task: Task)
    requires Safe(c, s) && u in s.board.records && TaskOk(s.board, s.vault, t, task)
    ensures Kept(c, s, Go(s, t, SetRecord(s.board, u, Finish(s.board.records[u])),
                       Remove(s.vault, {PartOf(s.board, u)}), task))
  {
    var ps := {PartOf(s.board, u)};
    RemoveSound(c, s.vault, ps); RemoveMoved(s.vault, ps);
    RecordGo(c, s, t, u, Finish(s.board.records[u]), Remove(s.vault, ps), task);
  }

  /** Failing to delete a part, and giving up. */
  lemma OrphanStop(c: Config, s: State, t: Id, u: Id)
    requires Safe(c, s) && u in s.board.records
    ensures Kept(c, s, Stop(s, t, SetRecord(s.board, u, Orphan(s.board.records[u])), s.vault))
  {
    SameDiskMoved(s.vault, s.vault);
    RecordStop(c, s, t, u, Orphan(s.board.records[u]), s.vault);
  }

  lemma AbandonStop(c: Config, s: State, t: Id, task: Task, r: Id, u: Id)
    requires Safe(c, s) && u in s.board.records && s.board.records[u].room == r
    requires TaskOk(s.board, s.vault, t, task) && task.CleanDiscarding? && task.r == r
    ensures Kept(c, s, Stop(s, t, Abandon(s.board, r, u), s.vault))
  {
    hide BoardOk, Advances, Carried, Sound, PartsOk, Moved, TasksOk;
    var m := SetRecord(s.board, u, Orphan(s.board.records[u]));
    SameDiskMoved(s.vault, s.vault);
    SetRecordOk(c, s.board, u, m.records[u]);
    MoveOnOk(c, m, r, m.rooms[r].(abandoned := true));
    CarriedOn(s.board, m, Abandon(s.board, r, u), t);
    StopSafe(c, s, t, Abandon(s.board, r, u), s.vault);
  }

  /** A step that only reads how much is used. */
  lemma UsageOn(c: Config, s: State, figure: nat)
    requires Safe(c, s)
    ensures Kept(c, s, s.(vault := WithUsage(c, s.vault, s.now, figure)))
  {
    hide Sound, BoardOk;
    var v := WithUsage(c, s.vault, s.now, figure);
    UsageSound(c, s.vault, s.now, figure); UsageMoved(c, s.vault, s.now, figure);
    forall t | t in s.tasks ensures TaskOk(s.board, v, t, s.tasks[t]) {
      assert TaskOk(s.board, s.vault, t, s.tasks[t]);
    }
  }

  lemma AbortGo(c: Config, s: State, t: Id, u: Id, why: Why)
    requires Safe(c, s) && u in s.board.records
    ensures Kept(c, s, Go(s, t, AbortNow(s.board, u, t), s.vault, Releasing(u, why)))
  {
    hide BoardOk, Advances, Carried, Sound, PartsOk, Moved, TasksOk;
    AbortOk(c, s.board, u, t);
    BoardGoOn(c, s, t, AbortNow(s.board, u, t), Releasing(u, why));
  }

  /** A listed upload is on record, under the room that lists it. */
  lemma Listed(c: Config, b: Board, r: Id)
    requires BoardOk(c, b) && r in b.rooms
    ensures forall u | u in b.rooms[r].uploads :: u in b.records && b.records[u].room == r
  {
    assert RoomOk(b, r);
  }

  // ------------------------------------------------------------------
  // Every step
  // ------------------------------------------------------------------

  lemma PopulateSafe(c: Config, s: State, r: Id, users: set<Id>, documents: set<Id>)
    requires Safe(c, s) && r in s.board.rooms && s.board.rooms[r].phase == Open
    ensures Kept(c, s, s.(board := SetRoom(s.board, r, s.board.rooms[r].(users := users, documents := documents))))
  {
    var room := s.board.rooms[r].(users := users, documents := documents);
    SetRoomOk(c, s.board, r, room);
    forall i | i in s.tasks ensures TaskOk(SetRoom(s.board, r, room), s.vault, i, s.tasks[i]) {
      assert TaskOk(s.board, s.vault, i, s.tasks[i]);
    }
  }

  lemma TickSafe(c: Config, s: State, dt: nat)
    requires Safe(c, s)
    ensures Kept(c, s, s.(now := s.now + dt))
  {
  }

  lemma RequestSafe(c: Config, s: State, e: Event)
    requires Safe(c, s) && MayStart(c, s, e) && (e.PutStart? || e.CompleteStart? || e.AbortStart?)
    ensures Kept(c, s, Begin(s, e))
  {
    hide BoardOk, Advances, Carried, Sound, PartsOk, Moved, TasksOk;
    var rec, v := s.board.records[e.u], s.vault;
    SameDiskMoved(v, v);
    match e
    case PutStart(t, u, _) => RecordGo(c, s, t, u, rec.(writing := true, client := t), v, Streaming(u));
    case CompleteStart(t, u) => RecordGo(c, s, t, u, rec.(client := t), v, Sizing(u));
    case AbortStart(t, u) => AbortGo(c, s, t, u, Aborted);
  }

  /** A code that may be bound is not bound: no room is ever created over another. */
  lemma NoOverwrite(c: Config, s: State, e: Event)
    requires Safe(c, s) && e.CreateRoom? && MayStart(c, s, e)
    ensures e.code !in s.board.codes && |s.board.codes| < c.maxRooms
  {
    assert e.code in s.board.codes ==> CodeOk(s.board, e.code);
  }

  lemma CreateSafe(c: Config, s: State, e: Event)
    requires Safe(c, s) && MayStart(c, s, e) && e.CreateRoom?
    ensures Kept(c, s, Begin(s, e))
  {
    hide BoardOk, Advances, Carried, Sound, PartsOk, Moved, TasksOk;
    var b, t, r, code := s.board, e.t, e.r, e.code;
    NoOverwrite(c, s, e); BindOk(c, b, r, code); BindCarried(b, r, code, t);
    BoardGo(c, s, t, Bind(b, r, code), MakingDirs(r));
  }

  lemma RoomsSafe(c: Config, s: State, e: Event)
    requires Safe(c, s) && MayStart(c, s, e) && (e.CreateRoom? || e.CloseRoom? || e.DeleteFile?)
    ensures Kept(c, s, Begin(s, e))
  {
    hide BoardOk, Advances, Carried, Sound, PartsOk, Moved, TasksOk;
    var b := s.board;
    match e
    case CreateRoom(t, r, code) => CreateSafe(c, s, e);
    case CloseRoom(t, r) => UnbindOk(c, b, r, t); BoardGo(c, s, t, Unbind(b, r, t), CleanStart(r));
    case DeleteFile(t, r, f) =>
      SetRoomOk(c, b, r, b.rooms[r].(files := b.rooms[r].files - {f}));
      BoardGoOn(c, s, t, SetRoom(b, r, b.rooms[r].(files := b.rooms[r].files - {f})), Unlinking(r, f));
  }

  lemma BeginSafe(c: Config, s: State, e: Event)
    requires Safe(c, s) && MayStart(c, s, e) && !e.Resume? && !e.ReadStorage?
    ensures Kept(c, s, Begin(s, e))
  {
    hide BoardOk, Advances, Carried, Sound, PartsOk, Moved, TasksOk;
    var b := s.board;
    match e
    case Tick(dt) => TickSafe(c, s, dt);
    case Populate(r, users, documents) => PopulateSafe(c, s, r, users, documents);
    case InitStart(t, r, _, size) => TaskGo(c, s, t, InitWaiting(r, size));
    case SweepStart(t) => TaskGo(c, s, t, Sweeping(Loop(s.now, b.codes.Values, 0, {})));
    case _ =>
      if e.CreateRoom? || e.CloseRoom? || e.DeleteFile? { RoomsSafe(c, s, e); } else { RequestSafe(c, s, e); }
  }

  lemma HoldSafe(c: Config, s: State, t: Id, r: Id, size: nat, ch: Choice)
    requires Safe(c, s) && TaskOk(s.board, s.vault, t, InitHolding(r, size)) && MayResume(s, InitHolding(r, size), ch)
    requires t in s.tasks && s.tasks[t] == InitHolding(r, size)
    ensures Kept(c, s, HoldStep(c, s, t, r, size, ch))
  {
    hide BoardOk, Advances, Carried, Sound, PartsOk, TasksOk;
    var b, v := s.board, s.vault;
    match v.hold
    case Probing(_) =>
      ReadVolumeSound(c, v); SameDiskMoved(v, ReadVolume(c, v));
      VaultGo(c, s, t, ReadVolume(c, v), s.tasks[t]);
      assert Go(s, t, b, ReadVolume(c, v), s.tasks[t]) == HoldStep(c, s, t, r, size, ch);
    case ReadFree(_, _) =>
      ReadUsageSound(c, v, s.now, ch.n); SameDiskMoved(v, ReadUsage(c, v, s.now, ch.n));
      VaultGo(c, s, t, ReadUsage(c, v, s.now, ch.n), s.tasks[t]);
      assert Go(s, t, b, ReadUsage(c, v, s.now, ch.n), s.tasks[t]) == HoldStep(c, s, t, r, size, ch);
    case Ready(_, _, _, _) =>
      DecideSound(c, v, ch.u, size); DecideMoved(c, v, ch.u, size);
      if Grants(c, v, size) {
        RegisterOk(c, b, ch.u, NewRecord(b, r, ch.f, s.now, t));
        RegisterCarried(b, ch.u, NewRecord(b, r, ch.f, s.now, t), t);
        StopSafe(c, s, t, Register(b, ch.u, NewRecord(b, r, ch.f, s.now, t)), Decide(c, v, ch.u, size));
      } else {
        VaultStop(c, s, t, Decide(c, v, ch.u, size));
      }
  }

  lemma LandSafe(c: Config, s: State, t: Id, u: Id, n: nat)
    requires Safe(c, s) && u in s.board.records
    ensures Kept(c, s, Go(s, t, s.board, Append(s.vault, PartOf(s.board, u), u, n),
                       Appended(u, SizeAt(s.vault, PartOf(s.board, u)) + n)))
  {
    hide BoardOk, Advances, Carried, Sound, PartsOk, Moved, TasksOk;
    AppendSound(c, s.vault, PartOf(s.board, u), u, n); AppendMoved(s.vault, s.board.records[u].room, u, n);
    VaultGo(c, s, t, Append(s.vault, PartOf(s.board, u), u, n), Appended(u, SizeAt(s.vault, PartOf(s.board, u)) + n));
  }

  /** A request takes in, and lands, a buffer. */
  lemma WriteSafe(c: Config, s: State, t: Id, ch: Choice)
    requires Safe(c, s) && t in s.tasks && (s.tasks[t].Streaming? || s.tasks[t].Appending?)
    requires TaskOk(s.board, s.vault, t, s.tasks[t]) && s.tasks[t].u in s.board.records
    ensures Kept(c, s, PutStep(c, s, t, s.tasks[t], ch))
  {
    hide BoardOk, Advances, Carried, Sound, PartsOk, Moved, TasksOk;
    var v, u := s.vault, s.tasks[t].u;
    SameDiskMoved(v, v);
    RecordStop(c, s, t, u, s.board.records[u].(writing := false), v);
    match s.tasks[t]
    case Streaming(_) => TaskGo(c, s, t, Appending(u, ch.n));
    case Appending(_, n) => LandSafe(c, s, t, u, n);
  }

  lemma CountSafe(c: Config, s: State, t: Id, ch: Choice)
    requires Safe(c, s) && t in s.tasks && (s.tasks[t].Appended? || s.tasks[t].Shrinking?)
    requires MayResume(s, s.tasks[t], ch)
    requires TaskOk(s.board, s.vault, t, s.tasks[t]) && s.tasks[t].u in s.board.records
    ensures Kept(c, s, PutStep(c, s, t, s.tasks[t], ch))
  {
    hide BoardOk, Advances, Carried, Sound, PartsOk, Moved, TasksOk;
    var b, v, u := s.board, s.vault, s.tasks[t].u;
    match s.tasks[t]
    case Appended(_, size) =>
      SameDiskMoved(v, v);
      RecordGo(c, s, t, u, b.records[u].(committed := size, lastActivity := s.now), v,
               Shrinking(u, TermsOf(v, u).declared - size));
    case Shrinking(_, remaining) =>
      ShrinkSound(c, v, u, remaining); ShrinkMoved(v, u, remaining);
      VaultGo(c, s, t, Shrink(v, u, remaining), if ch.flag then Rechecking(u) else Streaming(u));
  }

  lemma RecheckSafe(c: Config, s: State, t: Id, ch: Choice)
    requires Safe(c, s) && t in s.tasks && (s.tasks[t].Rechecking? || s.tasks[t].Rechecked?)
    requires TaskOk(s.board, s.vault, t, s.tasks[t]) && s.tasks[t].u in s.board.records
    ensures Kept(c, s, PutStep(c, s, t, s.tasks[t], ch))
  {
    hide BoardOk, Advances, Carried, Sound, PartsOk, Moved, TasksOk, Measured, WithUsage;
    var v, u := s.vault, s.tasks[t].u;
    match s.tasks[t]
    case Rechecking(_) =>
      UsageSound(c, v, s.now, ch.n); UsageMoved(c, v, s.now, ch.n); UsageTerms(c, v, s.now, ch.n);
      VaultGo(c, s, t, WithUsage(c, v, s.now, ch.n),
              Rechecked(u, Reading(c, Free(c, v), Measured(c, v, s.now, ch.n).bytes)));
    case Rechecked(_, _) =>
      AbortGo(c, s, t, u, Breached);
      TaskGo(c, s, t, Streaming(u));
  }

  lemma UsageTerms(c: Config, v: Vault, now: nat, figure: nat)
    ensures WithUsage(c, v, now, figure).terms == v.terms
  {
  }

  lemma PutSafe(c: Config, s: State, t: Id, ch: Choice)
    requires Safe(c, s) && t in s.tasks && s.tasks[t].IsPut() && MayResume(s, s.tasks[t], ch)
    requires TaskOk(s.board, s.vault, t, s.tasks[t]) && s.tasks[t].u in s.board.records
    ensures Kept(c, s, PutStep(c, s, t, s.tasks[t], ch))
  {
    hide Safe, TaskOk, Kept, PutStep, MayResume;
    if s.tasks[t].Streaming? || s.tasks[t].Appending? { WriteSafe(c, s, t, ch); }
    else if s.tasks[t].Appended? || s.tasks[t].Shrinking? { CountSafe(c, s, t, ch); }
    else { RecheckSafe(c, s, t, ch); }
  }

  lemma CommitSafe(c: Config, s: State, t: Id, u: Id, ch: Choice)
    requires Safe(c, s) && u in s.board.records
    ensures Kept(c, s, EndStep(s, t, Committing(u), ch))
  {
    hide BoardOk, Advances, Carried, Sound, PartsOk, Moved, TasksOk;
    var p, q := PartOf(s.board, u), Stored(s.board.records[u].room, s.board.records[u].file);
    if p in s.vault.disk && ch.flag {
      RenameSound(c, s.vault, p, q); RenameMoved(s.vault, p, q);
      VaultGo(c, s, t, Rename(s.vault, p, q), Renamed(u));
    } else {
      TaskStop(c, s, t);
    }
  }

  lemma RenamedSafe(c: Config, s: State, t: Id, u: Id, ch: Choice)
    requires Safe(c, s) && u in s.board.records
    ensures Kept(c, s, EndStep(s, t, Renamed(u), ch))
  {
    hide BoardOk, Advances, Carried, Sound, PartsOk, Moved, TasksOk;
    RecordFileOk(c, s.board, u, TermsOf(s.vault, u).declared, t);
    BoardGoOn(c, s, t, RecordFile(s.board, u, TermsOf(s.vault, u).declared, t), Releasing(u, Completed));
  }

  lemma EndSafe(c: Config, s: State, t: Id, ch: Choice)
    requires Safe(c, s) && t in s.tasks && s.tasks[t].IsEnd() && MayResume(s, s.tasks[t], ch)
    requires TaskOk(s.board, s.vault, t, s.tasks[t]) && s.tasks[t].u in s.board.records
    ensures Kept(c, s, EndStep(s, t, s.tasks[t], ch))
  {
    hide BoardOk, Advances, Carried, Sound, PartsOk, Moved, TasksOk;
    var b, v, u := s.board, s.vault, s.tasks[t].u;
    var rec, p := b.records[u], PartOf(b, u);
    TaskStop(c, s, t);
    match s.tasks[t]
    case Sizing(_) => TaskGo(c, s, t, Sized(u, SizeAt(v, p)));
    case Sized(_, _) => TaskGo(c, s, t, Committing(u));
    case Committing(_) => CommitSafe(c, s, t, u, ch);
    case Renamed(_) => RenamedSafe(c, s, t, u, ch);
    case Releasing(_, why) =>
      ReleaseSound(c, v, u); ReleaseMoved(v, u);
      RecordStop(c, s, t, u, Finish(GiveBack(rec, t)), Release(v, u));
      ReleaseGo(c, s, t, u, Discarding(u, why));
    case Discarding(_, why) =>
      RemoveSound(c, v, {p}); RemoveMoved(v, {p});
      RecordStop(c, s, t, u, Finish(rec).(writing := rec.writing && why != Breached), Remove(v, {p}));
      SameDiskMoved(v, v);
      RecordStop(c, s, t, u, Orphan(rec).(writing := rec.writing && why != Breached), v);
  }

  /** The sweep looks at the next upload, or lists the next room. */
  lemma SweepingSafe(c: Config, s: State, t: Id, ch: Choice)
    requires Safe(c, s) && t in s.tasks && s.tasks[t].Sweeping? && MayResume(s, s.tasks[t], ch)
    requires TaskOk(s.board, s.vault, t, s.tasks[t])
    ensures Kept(c, s, SweepStep(c, s, t, s.tasks[t], ch))
  {
    hide BoardOk, Advances, Carried, Sound, PartsOk, Moved, TasksOk;
    var b, task, l := s.board, s.tasks[t], s.tasks[t].loop;
    if l.todo != {} {
      var rest := l.(todo := l.todo - {ch.u});
      assert task.Names(ch.u);
      if SweepSkips(c, b, l, ch.u) {
        TaskGo(c, s, t, Sweeping(rest));
      } else {
        PopUploadOk(c, b, ch.u, t);
        BoardGoOn(c, s, t, PopUpload(b, ch.u, t), SweepReleasing(rest, ch.u));
      }
    } else if l.rooms != {} {
      if ch.u in b.rooms { Listed(c, b, ch.u); }
      TaskGo(c, s, t, Sweeping(Loop(l.start, l.rooms - {ch.u}, ch.u, RoomAt(b, ch.u).uploads)));
    } else {
      TaskStop(c, s, t);
    }
  }

  lemma SweepSafe(c: Config, s: State, t: Id, ch: Choice)
    requires Safe(c, s) && t in s.tasks && s.tasks[t].IsSweep() && MayResume(s, s.tasks[t], ch)
    requires TaskOk(s.board, s.vault, t, s.tasks[t])
    ensures Kept(c, s, SweepStep(c, s, t, s.tasks[t], ch))
  {
    hide BoardOk, Advances, Carried, Sound, PartsOk, Moved, TasksOk, SweepSkips, PopUpload;
    var task, l := s.tasks[t], s.tasks[t].loop;
    match task
    case Sweeping(_) => SweepingSafe(c, s, t, ch);
    case SweepReleasing(_, u) => assert task.Names(u); ReleaseGo(c, s, t, u, SweepDiscarding(l, u));
    case SweepDiscarding(_, u) =>
      assert task.Names(u);
      DiscardGo(c, s, t, u, Sweeping(l));
      OrphanStop(c, s, t, u);
  }

  lemma CleanNextSafe(c: Config, s: State, t: Id, r: Id, todo: set<Id>, ch: Choice)
    requires Safe(c, s) && TaskOk(s.board, s.vault, t, CleanNext(r, todo)) && MayResume(s, CleanNext(r, todo), ch)
    ensures Kept(c, s, CleanStep(s, t, CleanNext(r, todo), ch))
  {
    hide BoardOk, Advances, Carried, Sound, PartsOk, Moved, TasksOk;
    var b, room := s.board, s.board.rooms[r].(uploads := {}, documents := {});
    if todo == {} {
      SetRoomOk(c, b, r, room);
      BoardGo(c, s, t, SetRoom(b, r, room), CleanRemoving(r, 0));
    } else {
      assert CleanNext(r, todo).Names(ch.u);
      SameDiskMoved(s.vault, s.vault);
      RecordGo(c, s, t, ch.u, Unhook(b.records[ch.u], t).(aborted := true), s.vault,
               CleanReleasing(r, todo - {ch.u}, ch.u));
    }
  }

  lemma CleanStartSafe(c: Config, s: State, t: Id, r: Id, ch: Choice)
    requires Safe(c, s) && TaskOk(s.board, s.vault, t, CleanStart(r))
    ensures Kept(c, s, CleanStep(s, t, CleanStart(r), ch))
  {
    hide BoardOk, Advances, Carried, Sound, PartsOk, Moved, TasksOk;
    var room := s.board.rooms[r];
    Listed(c, s.board, r);
    MoveOnOk(c, s.board, r, room.(phase := Cleaning));
    BoardGo(c, s, t, SetRoom(s.board, r, room.(phase := Cleaning)), CleanNext(r, room.uploads));
  }

  lemma CleanUploadSafe(c: Config, s: State, t: Id, ch: Choice)
    requires Safe(c, s) && t in s.tasks && (s.tasks[t].CleanReleasing? || s.tasks[t].CleanDiscarding?)
    requires TaskOk(s.board, s.vault, t, s.tasks[t]) && MayResume(s, s.tasks[t], ch)
    ensures Kept(c, s, CleanStep(s, t, s.tasks[t], ch))
  {
    hide BoardOk, Advances, Carried, Sound, PartsOk, Moved, TasksOk, Abandon;
    var task := s.tasks[t];
    assert task.Names(task.u);
    match task
    case CleanReleasing(r, todo, u) => ReleaseGo(c, s, t, u, CleanDiscarding(r, todo, u));
    case CleanDiscarding(r, todo, u) =>
      DiscardGo(c, s, t, u, CleanNext(r, todo));
      AbandonStop(c, s, t, task, r, u);
  }

  lemma CleanSafe(c: Config, s: State, t: Id, ch: Choice)
    requires Safe(c, s) && t in s.tasks && s.tasks[t].IsClean() && MayResume(s, s.tasks[t], ch)
    requires TaskOk(s.board, s.vault, t, s.tasks[t])
    ensures Kept(c, s, CleanStep(s, t, s.tasks[t], ch))
  {
    hide Safe, TaskOk, Kept, CleanStep, MayResume;
    match s.tasks[t]
    case CleanStart(r) => CleanStartSafe(c, s, t, r, ch);
    case CleanNext(r, todo) => CleanNextSafe(c, s, t, r, todo, ch);
    case CleanRemoving(r, attempt) => RemovingSafe(c, s, t, r, attempt, ch);
    case _ => CleanUploadSafe(c, s, t, ch);
  }

  lemma RemovingSafe(c: Config, s: State, t: Id, r: Id, attempt: nat, ch: Choice)
    requires Safe(c, s) && TaskOk(s.board, s.vault, t, CleanRemoving(r, attempt))
    ensures Kept(c, s, CleanStep(s, t, CleanRemoving(r, attempt), ch))
  {
    hide Safe, Sound, PartsOk, Moved, Kept, TaskOk;
    var v := s.vault;
    var ps := if ch.flag then InRoom(v.disk, r) else InRoom(v.disk, r) * ch.gone;
    RemovedSafe(c, s, t, r, attempt, ps);
    ClosedSafe(c, s, t, r, attempt, ps, RoomAt(s.board, r).(dir := false));
    ClosedSafe(c, s, t, r, attempt, ps, RoomAt(s.board, r).(survives := true));
  }

  lemma RemovedSafe(c: Config, s: State, t: Id, r: Id, attempt: nat, ps: set<Path>)
    requires Safe(c, s) && TaskOk(s.board, s.vault, t, CleanRemoving(r, attempt))
    ensures Kept(c, s, Go(s, t, s.board, Remove(s.vault, ps), CleanRemoving(r, attempt + 1)))
  {
    hide BoardOk, Advances, Carried, Sound, PartsOk, Moved, TasksOk;
    RemoveSound(c, s.vault, ps); RemoveMoved(s.vault, ps);
    VaultGo(c, s, t, Remove(s.vault, ps), CleanRemoving(r, attempt + 1));
  }

  lemma ClosedSafe(c: Config, s: State, t: Id, r: Id, attempt: nat, ps: set<Path>, room: Room)
    requires Safe(c, s) && TaskOk(s.board, s.vault, t, CleanRemoving(r, attempt))
    requires room == RoomAt(s.board, r).(dir := false) || room == RoomAt(s.board, r).(survives := true)
    ensures Kept(c, s, Stop(s, t, CloseOff(s.board, r, room), Remove(s.vault, ps)))
  {
    hide BoardOk, Advances, Carried, Sound, PartsOk, Moved, TasksOk;
    RemoveSound(c, s.vault, ps); RemoveMoved(s.vault, ps);
    MoveOnOk(c, s.board, r, room.(users := {}, files := map[], phase := Closed));
    StopSafe(c, s, t, CloseOff(s.board, r, room), Remove(s.vault, ps));
  }

  lemma MadeDirsSafe(c: Config, s: State, t: Id, r: Id, made: bool)
    requires Safe(c, s) && r in s.board.rooms
    ensures Kept(c, s, Stop(s, t, SetRoom(s.board, r, s.board.rooms[r].(dir := s.board.rooms[r].dir || made)), s.vault))
  {
    hide BoardOk, Advances, Carried, Sound, PartsOk, TasksOk;
    var room := s.board.rooms[r].(dir := s.board.rooms[r].dir || made);
    SetRoomOk(c, s.board, r, room); SameDiskMoved(s.vault, s.vault);
    StopSafe(c, s, t, SetRoom(s.board, r, room), s.vault);
  }

  lemma OtherSafe(c: Config, s: State, t: Id, ch: Choice)
    requires Safe(c, s) && t in s.tasks && TaskOk(s.board, s.vault, t, s.tasks[t]) && MayResume(s, s.tasks[t], ch)
    requires s.tasks[t].MakingDirs? || s.tasks[t].InitWaiting? || s.tasks[t].Unlinking?
    ensures Kept(c, s, Proceed(c, s, t, ch))
  {
    hide BoardOk, Advances, Carried, Sound, PartsOk, TasksOk, Kept;
    var v := s.vault;
    match s.tasks[t]
    case MakingDirs(r) => MadeDirsSafe(c, s, t, r, ch.flag);
    case InitWaiting(r, size) =>
      AcquireSound(c, v, t); SameDiskMoved(v, Acquire(v, t));
      VaultGo(c, s, t, Acquire(v, t), InitHolding(r, size));
    case Unlinking(r, f) =>
      RemoveSound(c, v, {Stored(r, f)}); RemoveMoved(v, {Stored(r, f)});
      VaultStop(c, s, t, Remove(v, {Stored(r, f)}));
      TaskStop(c, s, t);
  }

  lemma ProceedSafe(c: Config, s: State, t: Id, ch: Choice)
    requires Safe(c, s) && t in s.tasks && MayResume(s, s.tasks[t], ch)
    ensures Kept(c, s, Proceed(c, s, t, ch))
  {
    var task := s.tasks[t];
    assert TaskOk(s.board, s.vault, t, task);
    assert task.IsPut() || task.IsEnd() ==> task.Names(task.u);
    if task.IsPut() { PutSafe(c, s, t, ch); }
    else if task.IsEnd() { EndSafe(c, s, t, ch); }
    else if task.IsSweep() { SweepSafe(c, s, t, ch); }
    else if task.IsClean() { CleanSafe(c, s, t, ch); }
    else if task.InitHolding? { HoldSafe(c, s, t, task.r, task.size, ch); }
    else { OtherSafe(c, s, t, ch); }
  }

  // ------------------------------------------------------------------
  // Runs
  // ------------------------------------------------------------------

  lemma StepSafe(c: Config, s: State, e: Event)
    requires Safe(c, s) && MayStart(c, s, e)
    ensures Kept(c, s, Step(c, s, e))
  {
    if e.Resume? { ProceedSafe(c, s, e.t, e.ch); }
    else if e.ReadStorage? { UsageOn(c, s, e.figure); }
    else { BeginSafe(c, s, e); }
  }

  lemma {:induction false} RunSafe(c: Config, s: State, es: seq<Event>)
    requires Safe(c, s) && Legal(c, s, es)
    ensures Kept(c, s, After(c, s, es))
    decreases |es|
  {
    if es == [] {
    } else {
      StepSafe(c, s, es[0]);
      RunSafe(c, Step(c, s, es[0]), es[1..]);
    }
  }

  lemma StartSafe(c: Config, s: State)
    requires s == START
    ensures Safe(c, s)
  {
    assert Owing(EMPTY_VAULT) == map[];
  }

  /**
   In every run, whatever overlaps, the free space covers the headroom and everything
   still promised, except for bytes that landed without cover from a reservation.
   */
  lemma NoOverAdmission(c: Config, s: State, es: seq<Event>)
    requires s == START && Legal(c, s, es)
    ensures var v := After(c, s, es).vault;
            Free(c, v) + v.stray >= Min(c.headroom, c.capacity) + Outstanding(v)
  {
    StartSafe(c, s);
    RunSafe(c, s, es);
    SoundMeans(c, After(c, s, es).vault);
  }

  /**
   With a budget, usage and promises stay under budget minus headroom, except for stray
   bytes and for what landed between a cached usage reading and an admission made on it.
   */
  lemma BudgetBound(c: Config, s: State, es: seq<Event>)
    requires s == START && Legal(c, s, es) && c.budget != 0
    ensures var v := After(c, s, es).vault;
            Used(v) + Outstanding(v) <= Max(0, c.budget - c.headroom) + v.debt + v.stray
  {
    StartSafe(c, s);
    RunSafe(c, s, es);
    SoundMeans(c, After(c, s, es).vault);
  }
}
