/**
 Where each upload stands: listed or torn down, reserved or not, and by which task. Every
 step changes the standing of at most one upload, whatever else overlaps it.
 */
module UploadStanding {
  import opened Basics
  import opened Vault
  import opened UploadMachine
  import opened BoardSafety
  import opened UploadSafety

  /** All that the steps know about one upload, in one value. */
  datatype View = View(
    rec: Record, terms: Terms, reserved: Option<nat>, part: Option<nat>,
    listed: bool, phase: Phase, abandoned: bool,
    client: Option<Task>, releasing: bool, discarding: bool, pending: bool, removing: bool)

  /** The task does something to this one upload. */
  predicate Acts(task: Task, u: Id) {
    || ((task.IsPut() || task.IsEnd()) && task.u == u)
    || ((task.SweepReleasing? || task.SweepDiscarding? || task.CleanReleasing? || task.CleanDiscarding?) && task.u == u)
  }

  predicate Releases(task: Task, u: Id) {
    (task.Releasing? || task.SweepReleasing? || task.CleanReleasing?) && task.u == u
  }

  predicate Discards(task: Task, u: Id) {
    (task.Discarding? || task.SweepDiscarding? || task.CleanDiscarding?) && task.u == u
  }

  predicate TearsDown(task: Task, u: Id) { Releases(task, u) || Discards(task, u) }

  predicate Pends(task: Task, u: Id) {
    (task.CleanNext? || task.CleanReleasing? || task.CleanDiscarding?) && u in task.todo
  }

  function See(s: State, u: Id): View
    requires u in s.board.records
  {
    var rec := s.board.records[u];
    var room := RoomAt(s.board, rec.room);
    var client, owner, cleaner := Find(s.tasks, rec.client), Find(s.tasks, rec.owner), Find(s.tasks, room.cleaner);
    View(rec, TermsOf(s.vault, u), Find(s.vault.ledger, u), Find(s.vault.disk, Part(rec.room, u)),
         u in room.uploads, room.phase, room.abandoned,
         if client.Some? && client.value.IsClient() && client.value.u == u then client else None,
         owner.Some? && Releases(owner.value, u),
         owner.Some? && Discards(owner.value, u),
         room.phase == Cleaning && !room.abandoned && cleaner.Some? && Pends(cleaner.value, u),
         room.phase == Cleaning && !room.abandoned && cleaner.Some? && cleaner.value.CleanRemoving?)
  }

  /** The same upload seen before and after. */
  ghost predicate Same(s: State, w: State, u: Id)
    requires u in s.board.records
  {
    u in w.board.records && See(w, u) == See(s, u)
  }

  ghost predicate Others(s: State, w: State, u0: Id) {
    forall u | u in s.board.records && u != u0 :: Same(s, w, u)
  }

  /** What a task may become without changing how upload u is seen. */
  predicate Bystander(task: Option<Task>, next: Option<Task>, u: Id) {
    && (task.Some? ==> !Acts(task.value, u))
    && (next.Some? ==> !Acts(next.value, u))
    && ((task.Some? && Pends(task.value, u)) == (next.Some? && Pends(next.value, u)))
    && ((task.Some? && task.value.CleanRemoving?) == (next.Some? && next.value.CleanRemoving?))
  }

  /** Only task t moves. */
  ghost predicate OneMoves(s: State, w: State, t: Id) {
    w.tasks - {t} == s.tasks - {t}
  }

  /** The board and the vault agree on everything about upload u but its tasks. */
  ghost predicate Still(s: State, w: State, u: Id)
    requires u in s.board.records
  {
    var r := s.board.records[u].room;
    && u in w.board.records && w.board.records[u] == s.board.records[u]
    && TermsOf(w.vault, u) == TermsOf(s.vault, u)
    && Find(w.vault.ledger, u) == Find(s.vault.ledger, u)
    && Find(w.vault.disk, Part(r, u)) == Find(s.vault.disk, Part(r, u))
    && (u in RoomAt(w.board, r).uploads) == (u in RoomAt(s.board, r).uploads)
    && RoomAt(w.board, r).phase == RoomAt(s.board, r).phase
    && RoomAt(w.board, r).cleaner == RoomAt(s.board, r).cleaner
    && RoomAt(w.board, r).abandoned == RoomAt(s.board, r).abandoned
  }

  lemma StandsBy(s: State, w: State, t: Id, u: Id)
    requires u in s.board.records && Still(s, w, u)
    requires OneMoves(s, w, t) && Bystander(Find(s.tasks, t), Find(w.tasks, t), u)
    ensures Same(s, w, u)
  {
    assert forall i | i != t :: Find(w.tasks, i) == Find(s.tasks, i) by {
      forall i | i != t ensures Find(w.tasks, i) == Find(s.tasks, i) {
        assert (i in w.tasks) == (i in w.tasks - {t}) && (i in s.tasks) == (i in s.tasks - {t});
        if i in s.tasks { assert (w.tasks - {t})[i] == (s.tasks - {t})[i]; }
      }
    }
  }

  // ------------------------------------------------------------------
  // The invariant
  // ------------------------------------------------------------------

  /**
   A reservation is held exactly while an upload is live, or taken out and not yet given
   back, or leaked; whatever has been taken out has a task that is giving it back.
   */
  predicate Stands(x: View) {
    && (x.reserved.Some? <==> x.rec.stage == Live || x.rec.stage == Unhooked || x.rec.stage == Leaked)
    && (x.rec.stage == Live ==> x.listed && x.phase != Closed && (x.phase == Cleaning ==> x.pending || x.abandoned))
    && (x.listed && (x.phase == Open || x.phase == Closing) ==> x.rec.stage == Live)
    && (x.listed && (x.phase == Closed || x.removing) ==> x.rec.stage == Leaked)
    && (x.rec.stage == Leaked ==> x.phase == Cleaning || x.phase == Closed)
    && (x.rec.stage == Unhooked ==> x.releasing)
    && (x.rec.stage == Released ==> x.discarding)
  }

  /** What is being given back was taken out first. */
  ghost predicate TornOut(s: State, t: Id)
    requires t in s.tasks
  {
    forall u | u in s.board.records && TearsDown(s.tasks[t], u) ::
      s.board.records[u].stage != Live && s.board.records[u].stage != Leaked
  }

  /** A room past the door has its cleanup task until it is closed, or the cleanup was abandoned. */
  ghost predicate Attended(s: State, r: Id)
    requires r in s.board.rooms
  {
    var room := s.board.rooms[r];
    && (room.phase == Closing ==> room.cleaner in s.tasks && s.tasks[room.cleaner] == CleanStart(r))
    && (room.abandoned ==> room.phase == Cleaning)
    && (room.phase == Cleaning && !room.abandoned ==>
          && room.cleaner in s.tasks && s.tasks[room.cleaner].IsClean()
          && !s.tasks[room.cleaner].CleanStart? && s.tasks[room.cleaner].r == r)
  }

  ghost predicate Standing(s: State) {
    && (forall u | u in s.board.records :: Stands(See(s, u)))
    && (forall t | t in s.tasks :: TornOut(s, t))
    && (forall r | r in s.board.rooms :: Attended(s, r))
  }

  // ------------------------------------------------------------------
  // One step
  // ------------------------------------------------------------------

  /** Nothing that was taken out comes back, and only u0 may be new. */
  ghost predicate NoRevival(b: Board, w: Board, u0: Id) {
    && b.records.Keys <= w.records.Keys <= b.records.Keys + {u0}
    && (forall u | u in b.records && b.records[u].stage != Live && b.records[u].stage != Leaked ::
          w.records[u].stage != Live && w.records[u].stage != Leaked)
  }

  /** Rooms keep their phases and cleaners. */
  ghost predicate SamePhases(b: Board, w: Board) {
    && w.rooms.Keys == b.rooms.Keys
    && (forall r | r in b.rooms ::
          && w.rooms[r].phase == b.rooms[r].phase && w.rooms[r].cleaner == b.rooms[r].cleaner
          && w.rooms[r].abandoned == b.rooms[r].abandoned)
  }

  /** A cleanup goes on with its room; no other task becomes one. */
  predicate Onward(task: Option<Task>, next: Option<Task>) {
    if task.Some? && task.value.IsClean()
    then next.Some? && next.value.IsClean() && next.value.r == task.value.r
         && !task.value.CleanStart? && !next.value.CleanStart?
    else next.None? || !next.value.IsClean()
  }

  ghost predicate AllStill(s: State, w: State, u0: Id) {
    forall u | u in s.board.records && u != u0 :: Still(s, w, u)
  }

  ghost predicate Bystands(s: State, w: State, t: Id, u0: Id) {
    forall u | u in s.board.records && u != u0 :: Bystander(Find(s.tasks, t), Find(w.tasks, t), u)
  }

  lemma OthersTasks(s: State, w: State, t: Id, i: Id)
    requires OneMoves(s, w, t) && i != t
    ensures Find(w.tasks, i) == Find(s.tasks, i)
  {
    assert (i in w.tasks) == (i in w.tasks - {t}) && (i in s.tasks) == (i in s.tasks - {t});
    if i in s.tasks { assert (w.tasks - {t})[i] == (s.tasks - {t})[i]; }
  }

  lemma AttendedKept(s: State, w: State, t: Id)
    requires forall r | r in s.board.rooms :: Attended(s, r)
    requires OneMoves(s, w, t) && SamePhases(s.board, w.board) && Onward(Find(s.tasks, t), Find(w.tasks, t))
    ensures forall r | r in w.board.rooms :: Attended(w, r)
  {
    forall r | r in w.board.rooms ensures Attended(w, r) {
      assert Attended(s, r);
      var i := w.board.rooms[r].cleaner;
      if i != t { OthersTasks(s, w, t, i); }
    }
  }

  lemma TornOutKept(c: Config, s: State, w: State, t: Id, u0: Id)
    requires TasksOk(s) && forall i | i in s.tasks :: TornOut(s, i)
    requires OneMoves(s, w, t) && NoRevival(s.board, w.board, u0)
    requires t in w.tasks ==> TornOut(w, t)
    ensures forall i | i in w.tasks :: TornOut(w, i)
  {
    forall i | i in w.tasks ensures TornOut(w, i) {
      if i != t {
        OthersTasks(s, w, t, i);
        assert TornOut(s, i) && TaskOk(s.board, s.vault, i, s.tasks[i]);
        assert forall u | TearsDown(s.tasks[i], u) :: s.tasks[i].Names(u);
      }
    }
  }

  lemma StandsKept(s: State, w: State, t: Id, u0: Id)
    requires forall u | u in s.board.records :: Stands(See(s, u))
    requires OneMoves(s, w, t) && NoRevival(s.board, w.board, u0)
    requires AllStill(s, w, u0) && Bystands(s, w, t, u0)
    requires u0 in w.board.records ==> Stands(See(w, u0))
    ensures forall u | u in w.board.records :: Stands(See(w, u))
    ensures Others(s, w, u0)
  {
    hide Stands, Still, Bystander, See;
    forall u | u in s.board.records && u != u0 ensures Same(s, w, u) { StandsBy(s, w, t, u); }
    forall u | u in w.board.records ensures Stands(See(w, u)) {
      if u != u0 { assert Same(s, w, u); }
    }
  }

  /** A step of task t that concerns at most upload u0 and moves no room on. */
  ghost predicate Concerns(s: State, w: State, t: Id, u0: Id) {
    && OneMoves(s, w, t) && SamePhases(s.board, w.board) && Onward(Find(s.tasks, t), Find(w.tasks, t))
    && NoRevival(s.board, w.board, u0) && AllStill(s, w, u0) && Bystands(s, w, t, u0)
  }

  lemma Settles(c: Config, s: State, w: State, t: Id, u0: Id)
    requires TasksOk(s) && Standing(s) && Concerns(s, w, t, u0)
    requires t in w.tasks ==> TornOut(w, t)
    requires u0 in w.board.records ==> Stands(See(w, u0))
    ensures Standing(w)
    ensures Others(s, w, u0)
  {
    hide Stands, See, AllStill, Bystands, Onward, SamePhases, NoRevival, TornOut, Attended, TasksOk, OneMoves, Same;
    StandsKept(s, w, t, u0);
    TornOutKept(c, s, w, t, u0);
    AttendedKept(s, w, t);
  }

  /** The board changes only in what it says about upload u0. */
  ghost predicate BoardStill(b: Board, w: Board, u0: Id) {
    && SamePhases(b, w) && NoRevival(b, w, u0)
    && (forall u | u in b.records && u != u0 :: w.records[u] == b.records[u])
    && (forall r, u | r in b.rooms && u != u0 :: u in w.rooms[r].uploads <==> u in b.rooms[r].uploads)
  }

  /** The vault changes only in what it says about upload u0. */
  ghost predicate VaultStill(v: Vault, w: Vault, u0: Id) {
    && (forall u | u != u0 :: TermsOf(w, u) == TermsOf(v, u) && Find(w.ledger, u) == Find(v.ledger, u))
    && (forall r, u | u != u0 :: Find(w.disk, Part(r, u)) == Find(v.disk, Part(r, u)))
  }

  lemma Local(c: Config, s: State, w: State, t: Id, u0: Id)
    requires BoardOk(c, s.board) && BoardStill(s.board, w.board, u0) && VaultStill(s.vault, w.vault, u0)
    requires OneMoves(s, w, t) && Onward(Find(s.tasks, t), Find(w.tasks, t)) && Bystands(s, w, t, u0)
    ensures Concerns(s, w, t, u0)
  {
    forall u | u in s.board.records && u != u0 ensures Still(s, w, u) {
      assert s.board.records[u].room in s.board.rooms;
    }
  }

  lemma SetRecordStill(b: Board, u: Id, rec: Record)
    requires u in b.records
    requires
      || b.records[u].stage == Live || b.records[u].stage == Leaked || rec.stage == b.records[u].stage
      || (rec.stage != Live && rec.stage != Leaked)
    ensures BoardStill(b, SetRecord(b, u, rec), u)
  {
  }

  lemma SetRoomStill(b: Board, r: Id, room: Room, u: Id)
    requires r in b.rooms && room.phase == b.rooms[r].phase && room.cleaner == b.rooms[r].cleaner
    requires room.abandoned == b.rooms[r].abandoned
    requires room.uploads - {u} == b.rooms[r].uploads - {u}
    ensures BoardStill(b, SetRoom(b, r, room), u)
  {
    assert forall i | i != u ::
      (i in room.uploads <==> i in room.uploads - {u}) && (i in b.rooms[r].uploads <==> i in b.rooms[r].uploads - {u});
  }

  lemma StillOn(b: Board, m: Board, w: Board, u: Id)
    requires BoardStill(b, m, u) && u in b.records
    requires BoardStill(m, w, u) || w == m.(index := w.index)
    ensures BoardStill(b, w, u)
  {
  }

  lemma PopUploadStill(c: Config, b: Board, u: Id, t: Id)
    requires BoardOk(c, b) && u in b.records
    ensures BoardStill(b, PopUpload(b, u, t), u)
  {
    hide BoardStill;
    var r, rec := b.records[u].room, Unhook(b.records[u], t);
    var room := b.rooms[r].(uploads := b.rooms[r].uploads - {u});
    SetRoomStill(b, r, room, u);
    SetRecordStill(SetRoom(b, r, room), u, rec);
    StillOn(b, SetRoom(b, r, room), PopUpload(b, u, t), u);
  }

  lemma AbortStill(c: Config, b: Board, u: Id, t: Id)
    requires BoardOk(c, b) && u in b.records
    ensures BoardStill(b, AbortNow(b, u, t), u)
  {
    hide BoardStill, BoardOk;
    var m := Unlist(b, u, t);
    PopUploadStill(c, b, u, t);
    StillOn(b, PopUpload(b, u, t), m, u);
    SetRecordStill(m, u, m.records[u].(aborted := true));
    StillOn(b, m, AbortNow(b, u, t), u);
  }

  lemma RecordFileStill(c: Config, b: Board, u: Id, size: nat, t: Id)
    requires BoardOk(c, b) && u in b.records
    ensures BoardStill(b, RecordFile(b, u, size, t), u)
  {
    hide BoardStill, RoomOk, CodeOk;
    var r := b.records[u].room;
    var m := SetRoom(b, r, b.rooms[r].(files := b.rooms[r].files[b.records[u].file := size]));
    SetRoomOk(c, b, r, m.rooms[r]);
    SetRoomStill(b, r, m.rooms[r], u);
    PopUploadStill(c, m, u, t);
    StillOn(b, m, PopUpload(m, u, t), u);
    StillOn(b, PopUpload(m, u, t), RecordFile(b, u, size, t), u);
  }

  lemma RegisterStill(b: Board, u: Id, rec: Record)
    requires rec.room in b.rooms && u !in b.records
    ensures BoardStill(b, Register(b, u, rec), u)
  {
  }

  lemma VaultStills(c: Config, v: Vault, u: Id)
    ensures VaultStill(v, v, u)
    ensures forall now: nat, n: nat :: VaultStill(v, WithUsage(c, v, now, n), u)
    ensures VaultStill(v, Release(v, u), u)
    ensures forall n: nat, r :: VaultStill(v, Append(v, Part(r, u), u, n), u)
    ensures forall n: int :: VaultStill(v, Shrink(v, u, n), u)
    ensures forall r :: VaultStill(v, Remove(v, {Part(r, u)}), u)
    ensures forall size: nat :: v.hold.Ready? ==> VaultStill(v, Decide(c, v, u, size), u)
  {
  }

  lemma RenameStill(v: Vault, r: Id, u: Id, q: Path)
    requires q.Stored? && Part(r, u) in v.disk
    ensures VaultStill(v, Rename(v, Part(r, u), q), u)
  {
  }

  // ------------------------------------------------------------------
  // What a step may change
  // ------------------------------------------------------------------

  /** The upload a step is about. */
  function Subject(s: State, e: Event): Id {
    match e
    case PutStart(_, u, _) => u
    case CompleteStart(_, u) => u
    case AbortStart(_, u) => u
    case Resume(t, ch) =>
      if t !in s.tasks then 0
      else var task := s.tasks[t];
        if task.InitHolding? || task.Sweeping? || task.CleanNext? then ch.u
        else if task.IsPut() || task.IsEnd() || task.SweepReleasing? || task.SweepDiscarding?
             || task.CleanReleasing? || task.CleanDiscarding? then task.u
        else 0
    case _ => 0
  }

  predicate MovesRoom(task: Task, ch: Choice) {
    || task.CleanStart? || task.CleanRemoving? || (task.CleanNext? && task.todo == {})
    || (task.CleanDiscarding? && !ch.flag)
  }

  /** The room a step moves on, empties, deletes from or abandons. */
  function MovedRoom(s: State, e: Event): Option<Id> {
    match e
    case CloseRoom(_, r) => Some(r)
    case Resume(t, ch) =>
      if t !in s.tasks then None
      else var task := s.tasks[t];
        if MovesRoom(task, ch) then Some(task.r) else None
    case _ => None
  }

  /** Every upload but the step's own is seen as before. */
  ghost predicate Apart(s: State, e: Event, w: State) {
    match MovedRoom(s, e)
    case Some(r) => forall u | u in s.board.records && s.board.records[u].room != r :: Same(s, w, u)
    case None => Others(s, w, Subject(s, e))
  }

  // ------------------------------------------------------------------
  // Every step
  // ------------------------------------------------------------------

  /** Before and after, a step's own coroutine acts on upload u0 at most, and a cleanup keeps its list but for u0. */
  ghost predicate Confined(task: Option<Task>, next: Option<Task>, u0: Id) {
    && Onward(task, next)
    && (forall u | u != u0 :: Bystander(task, next, u))
  }

  function Move(s: State, t: Id, b: Board, v: Vault, next: Option<Task>): State {
    match next case Some(task) => Go(s, t, b, v, task) case None => Stop(s, t, b, v)
  }

  lemma SafeMeans(c: Config, s: State)
    requires Safe(c, s)
    ensures TasksOk(s) && BoardOk(c, s.board)
    ensures forall u | u in s.board.records :: s.board.records[u].room in s.board.rooms
  {
  }

  lemma NamedOnRecord(c: Config, s: State, t: Id, u: Id)
    requires Safe(c, s) && t in s.tasks && s.tasks[t].Names(u)
    ensures u in s.board.records && s.board.records[u].room in s.board.rooms
  {
    assert TaskOk(s.board, s.vault, t, s.tasks[t]);
  }

  lemma MoveTornOut(s: State, t: Id, b: Board, v: Vault, next: Option<Task>, u0: Id)
    requires Confined(Find(s.tasks, t), next, u0)
    requires next.Some? && u0 in b.records && TearsDown(next.value, u0) ==>
      b.records[u0].stage != Live && b.records[u0].stage != Leaked
    ensures t in Move(s, t, b, v, next).tasks ==> TornOut(Move(s, t, b, v, next), t)
  {
    if next.Some? {
      forall u | u in b.records && TearsDown(next.value, u)
        ensures b.records[u].stage != Live && b.records[u].stage != Leaked
      {
        assert u != u0 ==> Bystander(Find(s.tasks, t), next, u);
      }
    }
  }

  lemma MoveStands(c: Config, s: State, t: Id, b: Board, v: Vault, next: Option<Task>, u0: Id)
    requires Safe(c, s) && Standing(s) && BoardStill(s.board, b, u0) && VaultStill(s.vault, v, u0)
    requires Confined(Find(s.tasks, t), next, u0)
    requires u0 in b.records ==> Stands(See(Move(s, t, b, v, next), u0))
    requires next.Some? && u0 in b.records && TearsDown(next.value, u0) ==>
      b.records[u0].stage != Live && b.records[u0].stage != Leaked
    ensures Standing(Move(s, t, b, v, next))
    ensures Others(s, Move(s, t, b, v, next), u0)
  {
    hide Stands, See, Safe, Standing, BoardStill, VaultStill, Concerns, Onward, Same, Bystander;
    var w := Move(s, t, b, v, next);
    SafeMeans(c, s);
    Local(c, s, w, t, u0);
    MoveTornOut(s, t, b, v, next, u0);
    Settles(c, s, w, t, u0);
  }

  /** A request on u0, before it takes u0 out or after it has given everything back. */
  predicate Requests(task: Option<Task>, u0: Id) {
    task.None? || (task.value.IsClient() && task.value.u == u0)
  }

  lemma RequestConfined(task: Option<Task>, next: Option<Task>, u0: Id)
    requires Requests(task, u0) && Requests(next, u0)
    ensures Confined(task, next, u0)
  {
  }

  /** The parts of a view that tell where an upload stands. */
  predicate AsBefore(x: View, y: View) {
    && y.rec.stage == x.rec.stage && y.reserved.Some? == x.reserved.Some? && y.listed == x.listed
    && y.phase == x.phase && y.abandoned == x.abandoned && y.releasing == x.releasing && y.discarding == x.discarding
    && y.pending == x.pending && y.removing == x.removing
  }

  /** A request leaves its upload's record, room and reservation in place. */
  ghost predicate InPlace(s: State, b: Board, v: Vault, u0: Id)
    requires u0 in s.board.records
  {
    && u0 in b.records
    && var rec, now := s.board.records[u0], b.records[u0];
    && now.room == rec.room && now.stage == rec.stage && now.owner == rec.owner
    && RoomAt(b, rec.room) == RoomAt(s.board, rec.room)
    && (u0 in v.ledger <==> u0 in s.vault.ledger)
  }

  lemma RequestAsBefore(s: State, t: Id, b: Board, v: Vault, next: Option<Task>, u0: Id)
    requires Requests(Find(s.tasks, t), u0) && Requests(next, u0)
    requires u0 in s.board.records && InPlace(s, b, v, u0)
    ensures AsBefore(See(s, u0), See(Move(s, t, b, v, next), u0))
  {
    var w := Move(s, t, b, v, next);
    assert forall i | i != t :: Find(w.tasks, i) == Find(s.tasks, i);
    assert !(Find(s.tasks, t).Some? && (Releases(s.tasks[t], u0) || Discards(s.tasks[t], u0) || s.tasks[t].IsClean()));
    assert Find(w.tasks, t) == next;
  }

  /** A step of a request that leaves its upload where it stood. */
  lemma RequestStands(c: Config, s: State, t: Id, b: Board, v: Vault, next: Option<Task>, u0: Id)
    requires Safe(c, s) && Standing(s) && BoardStill(s.board, b, u0) && VaultStill(s.vault, v, u0)
    requires Requests(Find(s.tasks, t), u0) && Requests(next, u0)
    requires u0 in s.board.records && InPlace(s, b, v, u0)
    ensures Standing(Move(s, t, b, v, next))
    ensures Others(s, Move(s, t, b, v, next), u0)
  {
    hide BoardStill, VaultStill, Same, TornOut, Attended, Safe, See, Confined;
    RequestAsBefore(s, t, b, v, next, u0);
    RequestConfined(Find(s.tasks, t), next, u0);
    MoveStands(c, s, t, b, v, next, u0);
  }

  /** The history fields say what `after` of the old record says, and the room moves nothing on. */
  ghost predicate Takes(s: State, b: Board, u0: Id, after: Record)
    requires u0 in s.board.records
  {
    && u0 in b.records
    && var r, now := s.board.records[u0].room, b.records[u0];
    && now.room == r && now.stage == after.stage && now.owner == after.owner
    && RoomAt(b, r).phase == RoomAt(s.board, r).phase && RoomAt(b, r).cleaner == RoomAt(s.board, r).cleaner
    && RoomAt(b, r).abandoned == RoomAt(s.board, r).abandoned
  }

  lemma TakeOutSeen(s: State, t: Id, b: Board, task: Task, u0: Id)
    requires u0 in s.board.records && Stands(See(s, u0)) && Takes(s, b, u0, Unhook(s.board.records[u0], t))
    requires t in s.tasks ==>
      !Releases(s.tasks[t], u0) && !Discards(s.tasks[t], u0) && !s.tasks[t].CleanRemoving?
    requires Releases(task, u0) && !task.CleanRemoving?
    requires var room := RoomAt(b, s.board.records[u0].room);
             u0 !in room.uploads || (room.phase == Cleaning && (room.cleaner == t || room.abandoned))
    ensures Stands(See(Go(s, t, b, s.vault, task), u0))
  {
  }

  lemma GiveBackSeen(s: State, t: Id, task: Task, u0: Id)
    requires t in s.tasks && u0 in s.board.records && Stands(See(s, u0))
    requires Releases(s.tasks[t], u0) && s.board.records[u0].stage != Live && s.board.records[u0].stage != Leaked
    requires Discards(task, u0) && task.IsClean() == s.tasks[t].IsClean()
    ensures var b := SetRecord(s.board, u0, GiveBack(s.board.records[u0], t));
            Stands(See(Go(s, t, b, Release(s.vault, u0), task), u0))
  {
  }

  lemma CompletedSeen(s: State, t: Id, u0: Id)
    requires t in s.tasks && u0 in s.board.records && Stands(See(s, u0)) && s.tasks[t] == Releasing(u0, Completed)
    requires s.board.records[u0].stage != Live && s.board.records[u0].stage != Leaked
    ensures var b := SetRecord(s.board, u0, Finish(GiveBack(s.board.records[u0], t)));
            Stands(See(Stop(s, t, b, Release(s.vault, u0)), u0))
  {
  }

  lemma FinishSeen(s: State, t: Id, b: Board, v: Vault, next: Option<Task>, u0: Id)
    requires t in s.tasks && u0 in s.board.records && Stands(See(s, u0)) && Discards(s.tasks[t], u0)
    requires Takes(s, b, u0, Finish(s.board.records[u0])) || Takes(s, b, u0, Orphan(s.board.records[u0]))
    requires v.ledger == s.vault.ledger
    requires RoomAt(b, s.board.records[u0].room) == RoomAt(s.board, s.board.records[u0].room)
    requires s.tasks[t].CleanDiscarding? ==> next == Some(CleanNext(s.tasks[t].r, s.tasks[t].todo))
    requires !s.tasks[t].CleanDiscarding? ==> next.None? || next.value.Sweeping?
    ensures Stands(See(Move(s, t, b, v, next), u0))
  {
    hide Stands;
    SettledSeen(s, t, b, v, next, u0);
    Settled(See(s, u0), See(Move(s, t, b, v, next), u0));
  }

  /** Of an upload nothing but a deletion due may be gone, and nobody starts to remove its room. */
  ghost predicate CarriesOver(x: View, y: View) {
    && (y.rec.stage == x.rec.stage || (x.rec.stage in {Released, Orphaned} && y.rec.stage in {Orphaned, Done}))
    && y.rec.stage != Released
    && y.reserved == x.reserved && y.listed == x.listed && y.phase == x.phase && y.abandoned == x.abandoned
    && (x.pending ==> y.pending) && (x.releasing ==> y.releasing) && (y.removing ==> x.removing)
  }

  lemma Settled(x: View, y: View)
    requires Stands(x) && CarriesOver(x, y)
    ensures Stands(y)
  {
  }

  lemma SettledSeen(s: State, t: Id, b: Board, v: Vault, next: Option<Task>, u0: Id)
    requires t in s.tasks && u0 in s.board.records && Discards(s.tasks[t], u0)
    requires Takes(s, b, u0, Finish(s.board.records[u0])) || Takes(s, b, u0, Orphan(s.board.records[u0]))
    requires v.ledger == s.vault.ledger
    requires RoomAt(b, s.board.records[u0].room) == RoomAt(s.board, s.board.records[u0].room)
    requires s.tasks[t].CleanDiscarding? ==> next == Some(CleanNext(s.tasks[t].r, s.tasks[t].todo))
    requires !s.tasks[t].CleanDiscarding? ==> next.None? || next.value.Sweeping?
    ensures CarriesOver(See(s, u0), See(Move(s, t, b, v, next), u0))
  {
  }

  lemma PutStands(c: Config, s: State, t: Id, ch: Choice)
    requires Safe(c, s) && Standing(s) && t in s.tasks && s.tasks[t].IsPut() && !s.tasks[t].Rechecked?
    ensures Standing(PutStep(c, s, t, s.tasks[t], ch)) && Others(s, PutStep(c, s, t, s.tasks[t], ch), s.tasks[t].u)
  {
    hide Safe, BoardStill, VaultStill, Same, Standing, Others, Sound, Measured;
    var b, v, u := s.board, s.vault, s.tasks[t].u;
    NamedOnRecord(c, s, t, u);
    var rec := b.records[u];
    VaultStills(c, v, u); SetRecordStill(b, u, rec); SetRecordStill(b, u, rec.(writing := false));
    assert SetRecord(b, u, rec) == b;
    match s.tasks[t]
    case Streaming(_) =>
      RequestStands(c, s, t, StopWriting(b, u), v, None, u);
      RequestStands(c, s, t, b, v, Some(Appending(u, ch.n)), u);
    case Appending(_, n) =>
      RequestStands(c, s, t, StopWriting(b, u), v, None, u);
      RequestStands(c, s, t, b, Append(v, PartOf(b, u), u, n), Some(Appended(u, SizeAt(v, PartOf(b, u)) + n)), u);
    case Appended(_, size) =>
      var now := rec.(committed := size, lastActivity := s.now);
      SetRecordStill(b, u, now);
      RequestStands(c, s, t, SetRecord(b, u, now), v, Some(Shrinking(u, TermsOf(v, u).declared - size)), u);
    case Shrinking(_, remaining) =>
      RequestStands(c, s, t, b, Shrink(v, u, remaining), Some(if ch.flag then Rechecking(u) else Streaming(u)), u);
    case Rechecking(_) =>
      RequestStands(c, s, t, b, WithUsage(c, v, s.now, ch.n),
                    Some(Rechecked(u, Reading(c, Free(c, v), Measured(c, v, s.now, ch.n).bytes))), u);
  }

  lemma TakeOutStands(c: Config, s: State, t: Id, b: Board, task: Task, u0: Id)
    requires Safe(c, s) && Standing(s) && u0 in s.board.records && BoardStill(s.board, b, u0)
    requires Takes(s, b, u0, Unhook(s.board.records[u0], t)) && u0 !in RoomAt(b, s.board.records[u0].room).uploads
    requires t in s.tasks ==> (s.tasks[t].IsClient() && s.tasks[t].u == u0) || s.tasks[t].Sweeping?
    requires
      || task == Releasing(u0, if task.Releasing? then task.why else Aborted)
      || (task.SweepReleasing? && task.u == u0)
    ensures Standing(Go(s, t, b, s.vault, task)) && Others(s, Go(s, t, b, s.vault, task), u0)
  {
    hide BoardStill, VaultStill, Same, Safe, TornOut, Attended, See, Stands, Others;
    VaultStills(c, s.vault, u0);
    TakeOutSeen(s, t, b, task, u0);
    MoveStands(c, s, t, b, s.vault, Some(task), u0);
  }

  lemma TakesUnhook(c: Config, s: State, t: Id, u: Id, size: nat)
    requires BoardOk(c, s.board) && u in s.board.records
    ensures var b, rec := s.board, s.board.records[u];
            && Takes(s, AbortNow(b, u, t), u, Unhook(rec, t)) && u !in RoomAt(AbortNow(b, u, t), rec.room).uploads
            && Takes(s, PopUpload(b, u, t), u, Unhook(rec, t)) && u !in RoomAt(PopUpload(b, u, t), rec.room).uploads
            && Takes(s, RecordFile(b, u, size, t), u, Unhook(rec, t))
            && u !in RoomAt(RecordFile(b, u, size, t), rec.room).uploads
  {
  }

  lemma AbortStands(c: Config, s: State, t: Id, u: Id, why: Why)
    requires Safe(c, s) && Standing(s) && u in s.board.records
    requires t in s.tasks ==> s.tasks[t].IsClient() && s.tasks[t].u == u
    ensures Standing(Go(s, t, AbortNow(s.board, u, t), s.vault, Releasing(u, why)))
    ensures Others(s, Go(s, t, AbortNow(s.board, u, t), s.vault, Releasing(u, why)), u)
  {
    hide BoardStill, Same, Standing, Others, Takes;
    SafeMeans(c, s);
    AbortStill(c, s.board, u, t);
    TakesUnhook(c, s, t, u, 0);
    TakeOutStands(c, s, t, AbortNow(s.board, u, t), Releasing(u, why), u);
  }

  lemma RecheckedStands(c: Config, s: State, t: Id, ch: Choice)
    requires Safe(c, s) && Standing(s) && t in s.tasks && s.tasks[t].Rechecked?
    ensures Standing(PutStep(c, s, t, s.tasks[t], ch)) && Others(s, PutStep(c, s, t, s.tasks[t], ch), s.tasks[t].u)
  {
    hide Safe, BoardStill, VaultStill, Same, Standing, Others;
    var b, v, u := s.board, s.vault, s.tasks[t].u;
    NamedOnRecord(c, s, t, u);
    VaultStills(c, v, u); SetRecordStill(b, u, b.records[u]);
    assert SetRecord(b, u, b.records[u]) == b;
    AbortStands(c, s, t, u, Breached);
    RequestStands(c, s, t, b, v, Some(Streaming(u)), u);
  }

  /** `complete` up to the rename. */
  lemma CommitStands(c: Config, s: State, t: Id, ch: Choice)
    requires Safe(c, s) && Standing(s) && t in s.tasks
    requires s.tasks[t].Sizing? || s.tasks[t].Sized? || s.tasks[t].Committing?
    ensures Standing(EndStep(s, t, s.tasks[t], ch)) && Others(s, EndStep(s, t, s.tasks[t], ch), s.tasks[t].u)
  {
    hide Safe, BoardStill, VaultStill, Same, Standing, Others;
    var b, v, u := s.board, s.vault, s.tasks[t].u;
    NamedOnRecord(c, s, t, u);
    VaultStills(c, v, u); SetRecordStill(b, u, b.records[u]);
    assert SetRecord(b, u, b.records[u]) == b;
    RequestStands(c, s, t, b, v, None, u);
    match s.tasks[t]
    case Sizing(_) => RequestStands(c, s, t, b, v, Some(Sized(u, SizeAt(v, PartOf(b, u)))), u);
    case Sized(_, actual) => RequestStands(c, s, t, b, v, Some(Committing(u)), u);
    case Committing(_) =>
      if PartOf(b, u) in v.disk && ch.flag {
        var w := Rename(v, PartOf(b, u), Stored(b.records[u].room, b.records[u].file));
        RenameStill(v, b.records[u].room, u, Stored(b.records[u].room, b.records[u].file));
        RequestStands(c, s, t, b, w, Some(Renamed(u)), u);
      }
  }

  lemma ReleaseStands(c: Config, s: State, t: Id, task: Task, u: Id)
    requires Safe(c, s) && Standing(s) && t in s.tasks && u in s.board.records
    requires Releases(s.tasks[t], u) && Discards(task, u) && Confined(Some(s.tasks[t]), Some(task), u)
    ensures var w := Go(s, t, SetRecord(s.board, u, GiveBack(s.board.records[u], t)), Release(s.vault, u), task);
            Standing(w) && Others(s, w, u)
  {
    hide Safe, BoardStill, VaultStill, Same, Stands, See, Others, Attended;
    assert TornOut(s, t);
    SetRecordStill(s.board, u, GiveBack(s.board.records[u], t)); VaultStills(c, s.vault, u);
    GiveBackSeen(s, t, task, u);
    MoveStands(c, s, t, SetRecord(s.board, u, GiveBack(s.board.records[u], t)), Release(s.vault, u), Some(task), u);
  }

  lemma FinishStands(c: Config, s: State, t: Id, rec: Record, next: Option<Task>, u: Id)
    requires Safe(c, s) && Standing(s) && t in s.tasks && u in s.board.records
    requires Discards(s.tasks[t], u) && Confined(Some(s.tasks[t]), next, u)
    requires var was := Finish(s.board.records[u]);
             rec.stage == was.stage && rec.owner == was.owner && rec.room == was.room
    requires s.tasks[t].CleanDiscarding? ==> next == Some(CleanNext(s.tasks[t].r, s.tasks[t].todo))
    requires !s.tasks[t].CleanDiscarding? ==> next.None? || next.value.Sweeping?
    ensures var w := Move(s, t, SetRecord(s.board, u, rec), Remove(s.vault, {PartOf(s.board, u)}), next);
            Standing(w) && Others(s, w, u)
  {
    hide Safe, BoardStill, VaultStill, Same, Stands, See, Others, Attended, TornOut;
    SetRecordStill(s.board, u, rec); VaultStills(c, s.vault, u);
    var b, v := SetRecord(s.board, u, rec), Remove(s.vault, {PartOf(s.board, u)});
    FinishSeen(s, t, b, v, next, u);
    MoveStands(c, s, t, b, v, next, u);
  }

  lemma OrphanStands(c: Config, s: State, t: Id, rec: Record, u: Id)
    requires Safe(c, s) && Standing(s) && t in s.tasks && u in s.board.records
    requires Discards(s.tasks[t], u) && !s.tasks[t].IsClean()
    requires var was := Orphan(s.board.records[u]);
             rec.stage == was.stage && rec.owner == was.owner && rec.room == was.room
    ensures var w := Stop(s, t, SetRecord(s.board, u, rec), s.vault); Standing(w) && Others(s, w, u)
  {
    hide Safe, BoardStill, VaultStill, Same, Stands, See, Others, Attended, TornOut;
    var b := SetRecord(s.board, u, rec);
    SetRecordStill(s.board, u, rec); VaultStills(c, s.vault, u);
    FinishSeen(s, t, b, s.vault, None, u);
    MoveStands(c, s, t, b, s.vault, None, u);
  }

  lemma EndStands(c: Config, s: State, t: Id, ch: Choice)
    requires Safe(c, s) && Standing(s) && t in s.tasks
    requires (s.tasks[t].Renamed? || s.tasks[t].Releasing? || s.tasks[t].Discarding?)
    ensures Standing(EndStep(s, t, s.tasks[t], ch)) && Others(s, EndStep(s, t, s.tasks[t], ch), s.tasks[t].u)
  {
    hide Safe, BoardStill, VaultStill, Same, Stands, See, Others, Attended, Takes;
    var b, v, u := s.board, s.vault, s.tasks[t].u;
    NamedOnRecord(c, s, t, u);
    var rec := b.records[u];
    match s.tasks[t]
    case Renamed(_) =>
      SafeMeans(c, s);
      var size := TermsOf(v, u).declared;
      RecordFileStill(c, b, u, size, t); TakesUnhook(c, s, t, u, size);
      TakeOutStands(c, s, t, RecordFile(b, u, size, t), Releasing(u, Completed), u);
    case Releasing(_, why) =>
      if why == Completed {
        assert TornOut(s, t);
        SetRecordStill(b, u, Finish(GiveBack(rec, t))); VaultStills(c, v, u);
        CompletedSeen(s, t, u);
        MoveStands(c, s, t, SetRecord(b, u, Finish(GiveBack(rec, t))), Release(v, u), None, u);
      } else {
        ReleaseStands(c, s, t, Discarding(u, why), u);
      }
    case Discarding(_, why) =>
      if ch.flag { FinishStands(c, s, t, Finish(rec).(writing := rec.writing && why != Breached), None, u); }
      else { OrphanStands(c, s, t, Orphan(rec).(writing := rec.writing && why != Breached), u); }
  }

  // ------------------------------------------------------------------
  // Steps that concern no upload, and steps that move a room on
  // ------------------------------------------------------------------

  predicate Idle(task: Option<Task>) {
    task.None? || task.value.MakingDirs? || task.value.InitWaiting? || task.value.InitHolding?
    || task.value.Sweeping? || task.value.Unlinking?
  }

  /** Only what no view shows may change. */
  ghost predicate SameBooks(s: State, b: Board, v: Vault) {
    && b.records == s.board.records && b.rooms.Keys == s.board.rooms.Keys
    && v.terms == s.vault.terms && v.ledger == s.vault.ledger
    && (forall r, u :: Find(v.disk, Part(r, u)) == Find(s.vault.disk, Part(r, u)))
    && (forall r | r in b.rooms ::
          && b.rooms[r].uploads == s.board.rooms[r].uploads && b.rooms[r].phase == s.board.rooms[r].phase
          && b.rooms[r].cleaner == s.board.rooms[r].cleaner && b.rooms[r].abandoned == s.board.rooms[r].abandoned)
  }

  lemma IdleStill(c: Config, s: State, w: State, u0: Id)
    requires BoardOk(c, s.board) && SameBooks(s, w.board, w.vault)
    ensures BoardStill(s.board, w.board, u0) && VaultStill(s.vault, w.vault, u0)
    ensures w.board.records == s.board.records && (u0 in s.board.records ==> Still(s, w, u0))
  {
    IdleVault(s, w, u0);
    if u0 in s.board.records { assert s.board.records[u0].room in s.board.rooms; }
  }

  lemma IdleVault(s: State, w: State, u0: Id)
    requires w.vault.terms == s.vault.terms && w.vault.ledger == s.vault.ledger
    requires forall r, u :: Find(w.vault.disk, Part(r, u)) == Find(s.vault.disk, Part(r, u))
    ensures VaultStill(s.vault, w.vault, u0)
  {
  }

  lemma IdleConfined(task: Option<Task>, next: Option<Task>, u0: Id)
    requires Idle(task) && Idle(next)
    ensures Confined(task, next, u0) && Bystander(task, next, u0)
    ensures next.Some? ==> !TearsDown(next.value, u0)
  {
  }

  lemma IdleStands(c: Config, s: State, t: Id, b: Board, v: Vault, next: Option<Task>)
    requires Safe(c, s) && Standing(s) && SameBooks(s, b, v) && Idle(Find(s.tasks, t)) && Idle(next)
    ensures Standing(Move(s, t, b, v, next))
    ensures forall u | u in s.board.records :: Same(s, Move(s, t, b, v, next), u)
  {
    hide Stands, See, Same, TornOut, Attended, BoardStill, VaultStill, Still, Safe, SameBooks, Confined, Bystander;
    var w, u := Move(s, t, b, v, next), 0;
    SafeMeans(c, s);
    IdleConfined(Find(s.tasks, t), next, u);
    IdleStill(c, s, w, u);
    if u in s.board.records { StandsBy(s, w, t, u); SameStands(s, w, u); }
    MoveStands(c, s, t, b, v, next, u);
  }

  lemma SameStands(s: State, w: State, u: Id)
    requires u in s.board.records && Same(s, w, u) && Stands(See(s, u))
    ensures u in w.board.records && Stands(See(w, u))
  {
  }

  /** Task t belongs to room r0, or to none. */
  predicate OfRoom(task: Option<Task>, r0: Id) {
    task.None? || (task.value.IsClean() && task.value.r == r0) || task.value.MakingDirs?
  }

  /** The records of other rooms are as they were, and nothing that was taken out comes back. */
  ghost predicate SameElsewhere(b: Board, w: Board, r0: Id) {
    && w.records.Keys == b.records.Keys
    && (forall u | u in b.records ::
          && w.records[u].room == b.records[u].room && (b.records[u].room != r0 ==> w.records[u] == b.records[u])
          && (b.records[u].stage != Live && b.records[u].stage != Leaked ==>
                w.records[u].stage != Live && w.records[u].stage != Leaked))
  }

  /** Only room r0, its directory and the coroutine that moves it on are different. */
  ghost predicate OnlyRoom(s: State, w: State, r0: Id) {
    && SameElsewhere(s.board, w.board, r0)
    && w.vault.terms == s.vault.terms && w.vault.ledger == s.vault.ledger
    && (forall r, u | r != r0 :: Find(w.vault.disk, Part(r, u)) == Find(s.vault.disk, Part(r, u)))
    && s.board.rooms.Keys <= w.board.rooms.Keys <= s.board.rooms.Keys + {r0}
    && (forall r | r in s.board.rooms && r != r0 :: w.board.rooms[r] == s.board.rooms[r])
  }

  lemma OtherRoom(s: State, w: State, t: Id, r0: Id, u: Id)
    requires OneMoves(s, w, t) && OnlyRoom(s, w, r0) && OfRoom(Find(s.tasks, t), r0) && OfRoom(Find(w.tasks, t), r0)
    requires u in s.board.records && s.board.records[u].room != r0
    requires s.board.records[u].room in s.board.rooms && Attended(s, s.board.records[u].room)
    requires Find(w.tasks, t).Some? ==> !Acts(Find(w.tasks, t).value, u)
    requires Find(s.tasks, t).Some? ==> !Acts(Find(s.tasks, t).value, u)
    ensures Same(s, w, u)
  {
    var rec := s.board.records[u];
    OwnTask(s, w, t, rec.client); OwnTask(s, w, t, rec.owner); OwnTask(s, w, t, s.board.rooms[rec.room].cleaner);
  }

  lemma OwnTask(s: State, w: State, t: Id, i: Id)
    requires OneMoves(s, w, t)
    ensures i == t || Find(w.tasks, i) == Find(s.tasks, i)
  {
    if i != t { OthersTasks(s, w, t, i); }
  }

  lemma OtherAttended(s: State, w: State, t: Id, r0: Id, r: Id)
    requires OneMoves(s, w, t) && OnlyRoom(s, w, r0) && OfRoom(Find(s.tasks, t), r0)
    requires r in s.board.rooms && r != r0 && Attended(s, r)
    ensures Attended(w, r)
  {
    OwnTask(s, w, t, s.board.rooms[r].cleaner);
  }

  predicate ActsOnNone(task: Option<Task>) {
    || task.None?
    || task.value.CleanStart? || task.value.CleanNext? || task.value.CleanRemoving? || task.value.MakingDirs?
  }

  /** The task acts on no upload, or on one of room r0. */
  predicate ActsIn(b: Board, task: Option<Task>, r0: Id) {
    || ActsOnNone(task)
    || (task.value.CleanDiscarding? && task.value.u in b.records && b.records[task.value.u].room == r0)
  }

  lemma RoomStands(c: Config, s: State, w: State, t: Id, r0: Id)
    requires Safe(c, s) && Standing(s) && OneMoves(s, w, t) && OnlyRoom(s, w, r0)
    requires OfRoom(Find(s.tasks, t), r0) && ActsIn(s.board, Find(s.tasks, t), r0)
    requires OfRoom(Find(w.tasks, t), r0) && ActsOnNone(Find(w.tasks, t))
    requires r0 in w.board.rooms ==> Attended(w, r0)
    requires forall u | u in s.board.records && s.board.records[u].room == r0 :: Stands(See(w, u))
    ensures Standing(w)
    ensures forall u | u in s.board.records && s.board.records[u].room != r0 :: Same(s, w, u)
  {
    hide Stands, See, TornOut, Attended, Same, Safe, OneMoves, OfRoom, ActsOnNone, ActsIn;
    RoomSames(c, s, w, t, r0);
    forall u | u in w.board.records ensures Stands(See(w, u)) {
      if s.board.records[u].room != r0 { SameStands(s, w, u); }
    }
    forall r | r in w.board.rooms ensures Attended(w, r) {
      if r != r0 { OtherAttended(s, w, t, r0, r); }
    }
    RoomTornOut(s, w, t, r0);
  }

  lemma RoomSames(c: Config, s: State, w: State, t: Id, r0: Id)
    requires Safe(c, s) && Standing(s) && OneMoves(s, w, t) && OnlyRoom(s, w, r0)
    requires OfRoom(Find(s.tasks, t), r0) && ActsIn(s.board, Find(s.tasks, t), r0)
    requires OfRoom(Find(w.tasks, t), r0) && ActsOnNone(Find(w.tasks, t))
    ensures forall u | u in s.board.records && s.board.records[u].room != r0 :: Same(s, w, u)
  {
    hide Stands, See, TornOut, Attended, Same, Safe, OneMoves, OnlyRoom, OfRoom, ActsOnNone, ActsIn;
    SafeMeans(c, s);
    forall u | u in s.board.records && s.board.records[u].room != r0 ensures Same(s, w, u) {
      RoomSame(s, w, t, r0, u);
    }
  }

  lemma RoomSame(s: State, w: State, t: Id, r0: Id, u: Id)
    requires OneMoves(s, w, t) && OnlyRoom(s, w, r0) && OfRoom(Find(s.tasks, t), r0) && OfRoom(Find(w.tasks, t), r0)
    requires ActsIn(s.board, Find(s.tasks, t), r0) && ActsOnNone(Find(w.tasks, t))
    requires u in s.board.records && s.board.records[u].room != r0
    requires s.board.records[u].room in s.board.rooms && Attended(s, s.board.records[u].room)
    ensures Same(s, w, u)
  {
    hide Same, Attended, OnlyRoom, OfRoom, OneMoves;
    OtherRoom(s, w, t, r0, u);
  }

  lemma RoomTornOut(s: State, w: State, t: Id, r0: Id)
    requires OneMoves(s, w, t) && SameElsewhere(s.board, w.board, r0)
    requires forall i | i in s.tasks :: TornOut(s, i)
    requires ActsOnNone(Find(w.tasks, t))
    ensures forall i | i in w.tasks :: TornOut(w, i)
  {
    forall i | i in w.tasks ensures TornOut(w, i) {
      if i != t { OthersTasks(s, w, t, i); assert TornOut(s, i); }
    }
  }

  lemma SweepStands(c: Config, s: State, t: Id, ch: Choice)
    requires Safe(c, s) && Standing(s) && t in s.tasks && s.tasks[t].IsSweep() && MayResume(s, s.tasks[t], ch)
    ensures Standing(SweepStep(c, s, t, s.tasks[t], ch))
    ensures Others(s, SweepStep(c, s, t, s.tasks[t], ch), if s.tasks[t].Sweeping? then ch.u else s.tasks[t].u)
  {
    hide Safe, BoardStill, Same, Stands, See, Attended, Takes, TornOut;
    var b, v, task, l := s.board, s.vault, s.tasks[t], s.tasks[t].loop;
    match task
    case Sweeping(_) =>
      if l.todo != {} && !SweepSkips(c, b, l, ch.u) {
        NamedOnRecord(c, s, t, ch.u); SafeMeans(c, s);
        PopUploadStill(c, b, ch.u, t); TakesUnhook(c, s, t, ch.u, 0);
        TakeOutStands(c, s, t, PopUpload(b, ch.u, t), SweepReleasing(l.(todo := l.todo - {ch.u}), ch.u), ch.u);
      } else {
        IdleStands(c, s, t, b, v,
          if l.todo != {} then Some(Sweeping(l.(todo := l.todo - {ch.u})))
          else if l.rooms != {} then Some(Sweeping(Loop(l.start, l.rooms - {ch.u}, ch.u, RoomAt(b, ch.u).uploads)))
          else None);
      }
    case SweepReleasing(_, u) => NamedOnRecord(c, s, t, u); ReleaseStands(c, s, t, SweepDiscarding(l, u), u);
    case SweepDiscarding(_, u) =>
      NamedOnRecord(c, s, t, u);
      if ch.flag { FinishStands(c, s, t, Finish(b.records[u]), Some(Sweeping(l)), u); }
      else { OrphanStands(c, s, t, Orphan(b.records[u]), u); }
  }

  lemma CleanUploadStands(c: Config, s: State, t: Id, ch: Choice)
    requires Safe(c, s) && Standing(s) && t in s.tasks && MayResume(s, s.tasks[t], ch)
    requires s.tasks[t].CleanReleasing? || s.tasks[t].CleanDiscarding? || s.tasks[t].CleanNext?
    requires !MovesRoom(s.tasks[t], ch)
    ensures Standing(CleanStep(s, t, s.tasks[t], ch))
    ensures Others(s, CleanStep(s, t, s.tasks[t], ch), if s.tasks[t].CleanNext? then ch.u else s.tasks[t].u)
  {
    hide Safe, BoardStill, VaultStill, Same, Stands, See, Attended, TornOut;
    var b, v, task, r := s.board, s.vault, s.tasks[t], s.tasks[t].r;
    match task
    case CleanNext(_, todo) =>
      NamedOnRecord(c, s, t, ch.u); CleanersRoom(c, s, t, ch.u);
      var rec := Unhook(b.records[ch.u], t).(aborted := true);
      SetRecordStill(b, ch.u, rec); VaultStills(c, v, ch.u);
      TakeOutSeen(s, t, SetRecord(b, ch.u, rec), CleanReleasing(r, todo - {ch.u}, ch.u), ch.u);
      MoveStands(c, s, t, SetRecord(b, ch.u, rec), v, Some(CleanReleasing(r, todo - {ch.u}, ch.u)), ch.u);
    case CleanReleasing(_, todo, u) =>
      NamedOnRecord(c, s, t, u);
      ReleaseStands(c, s, t, CleanDiscarding(r, todo, u), u);
    case CleanDiscarding(_, todo, u) =>
      NamedOnRecord(c, s, t, u); FinishStands(c, s, t, Finish(b.records[u]), Some(CleanNext(r, todo)), u);
  }

  lemma CleanersRoom(c: Config, s: State, t: Id, u: Id)
    requires Safe(c, s) && t in s.tasks && s.tasks[t].CleanNext? && s.tasks[t].Names(u)
    ensures var r := s.tasks[t].r;
            && u in s.board.records && s.board.records[u].room == r && r in s.board.rooms
            && s.board.rooms[r].phase == Cleaning && s.board.rooms[r].cleaner == t
  {
    assert TaskOk(s.board, s.vault, t, s.tasks[t]);
  }

  /** Listing what to abort, emptying the room, a removal attempt, giving up, the end. */
  lemma CleanRoomStands(c: Config, s: State, t: Id, ch: Choice)
    requires Safe(c, s) && Standing(s) && t in s.tasks
    requires MovesRoom(s.tasks[t], ch)
    ensures Standing(CleanStep(s, t, s.tasks[t], ch))
    ensures forall u | u in s.board.records && s.board.records[u].room != s.tasks[t].r ::
              Same(s, CleanStep(s, t, s.tasks[t], ch), u)
  {
    hide Safe, Same, TornOut, Attended, OnlyRoom, OneMoves, CleanOk;
    var r, w := s.tasks[t].r, CleanStep(s, t, s.tasks[t], ch);
    CleanedRoom(c, s, t, ch);
    forall u | u in s.board.records && s.board.records[u].room == r ensures Stands(See(w, u)) {
      CleanedSeen(s, t, ch, u);
    }
    RoomStands(c, s, w, t, r);
  }

  lemma CleanedRoom(c: Config, s: State, t: Id, ch: Choice)
    requires Safe(c, s) && t in s.tasks
    requires MovesRoom(s.tasks[t], ch)
    ensures var w := CleanStep(s, t, s.tasks[t], ch);
            && CleanOk(s.board, t, s.tasks[t]) && OnlyRoom(s, w, s.tasks[t].r) && OneMoves(s, w, t)
            && s.tasks[t].r in w.board.rooms && Attended(w, s.tasks[t].r)
            && ActsIn(s.board, Some(s.tasks[t]), s.tasks[t].r)
  {
    hide Safe, TaskOk, OnlyRoom;
    CleansOk(c, s, t);
    CleanedOnly(s, t, ch);
  }

  lemma CleansOk(c: Config, s: State, t: Id)
    requires Safe(c, s) && t in s.tasks
    ensures CleanOk(s.board, t, s.tasks[t])
  {
    assert TaskOk(s.board, s.vault, t, s.tasks[t]);
  }

  lemma CleanedOnly(s: State, t: Id, ch: Choice)
    requires t in s.tasks && CleanOk(s.board, t, s.tasks[t])
    requires MovesRoom(s.tasks[t], ch)
    ensures OnlyRoom(s, CleanStep(s, t, s.tasks[t], ch), s.tasks[t].r)
  {
  }

  lemma CleanedSeen(s: State, t: Id, ch: Choice, u: Id)
    requires t in s.tasks && u in s.board.records && Stands(See(s, u)) && MovesRoom(s.tasks[t], ch)
    requires s.board.records[u].room == s.tasks[t].r && CleanOk(s.board, t, s.tasks[t])
    ensures Stands(See(CleanStep(s, t, s.tasks[t], ch), u))
  {
    hide See, Stands, CleanOk;
    if s.tasks[t].CleanDiscarding? { AbandonedSeen(s, t, ch, u); } else { MovedSeen(s, t, ch, u); }
  }

  lemma MovedSeen(s: State, t: Id, ch: Choice, u: Id)
    requires t in s.tasks && u in s.board.records && Stands(See(s, u)) && MovesRoom(s.tasks[t], ch)
    requires s.board.records[u].room == s.tasks[t].r && CleanOk(s.board, t, s.tasks[t]) && !s.tasks[t].CleanDiscarding?
    ensures Stands(See(CleanStep(s, t, s.tasks[t], ch), u))
  {
    hide Stands, See, CleanOk, CleanStep;
    if s.tasks[t].CleanRemoving? { RemovedSeen(s, t, ch, u); } else { ListedSeen(s, t, ch, u); }
  }

  lemma RemovedSeen(s: State, t: Id, ch: Choice, u: Id)
    requires t in s.tasks && u in s.board.records && Stands(See(s, u)) && s.tasks[t].CleanRemoving?
    requires s.board.records[u].room == s.tasks[t].r && CleanOk(s.board, t, s.tasks[t])
    ensures Stands(See(CleanStep(s, t, s.tasks[t], ch), u))
  {
  }

  lemma ListedSeen(s: State, t: Id, ch: Choice, u: Id)
    requires t in s.tasks && u in s.board.records && Stands(See(s, u))
    requires s.tasks[t].CleanStart? || (s.tasks[t].CleanNext? && s.tasks[t].todo == {})
    requires s.board.records[u].room == s.tasks[t].r && CleanOk(s.board, t, s.tasks[t])
    ensures Stands(See(CleanStep(s, t, s.tasks[t], ch), u))
  {
  }

  lemma AbandonedSeen(s: State, t: Id, ch: Choice, u: Id)
    requires t in s.tasks && u in s.board.records && Stands(See(s, u)) && s.tasks[t].CleanDiscarding? && !ch.flag
    requires s.board.records[u].room == s.tasks[t].r && CleanOk(s.board, t, s.tasks[t])
    ensures Stands(See(CleanStep(s, t, s.tasks[t], ch), u))
  {
    assert s.tasks[t].Names(s.tasks[t].u);
  }

  lemma HoldStands(c: Config, s: State, t: Id, r: Id, size: nat, ch: Choice)
    requires Safe(c, s) && Standing(s) && t in s.tasks && s.tasks[t] == InitHolding(r, size)
    requires MayResume(s, s.tasks[t], ch)
    ensures Standing(HoldStep(c, s, t, r, size, ch)) && Others(s, HoldStep(c, s, t, r, size, ch), ch.u)
  {
    hide Safe, BoardStill, Same, Standing, Measured;
    var b, v := s.board, s.vault;
    var w := HoldStep(c, s, t, r, size, ch);
    if v.hold.Ready? && Grants(c, v, size) {
      RegisterStands(c, s, t, r, size, ch);
    } else if v.hold.Ready? {
      IdleStands(c, s, t, b, w.vault, None);
    } else {
      assert w == Go(s, t, b, w.vault, s.tasks[t]);
      IdleStands(c, s, t, b, w.vault, Some(s.tasks[t]));
    }
  }

  lemma RegisterStands(c: Config, s: State, t: Id, r: Id, size: nat, ch: Choice)
    requires Safe(c, s) && Standing(s) && t in s.tasks && s.tasks[t] == InitHolding(r, size)
    requires MayResume(s, s.tasks[t], ch) && s.vault.hold.Ready? && Grants(c, s.vault, size)
    ensures Standing(HoldStep(c, s, t, r, size, ch)) && Others(s, HoldStep(c, s, t, r, size, ch), ch.u)
  {
    hide Safe, BoardStill, VaultStill, Same, Standing, Others, Grants, Decide, Register, Stands, See;
    var b, rec := s.board, NewRecord(s.board, r, ch.f, s.now, t);
    RoomOnRecord(c, s, t);
    RegisterStill(b, ch.u, rec); VaultStills(c, s.vault, ch.u);
    RegisteredSeen(c, s, t, r, size, ch);
    MoveStands(c, s, t, Register(b, ch.u, rec), Decide(c, s.vault, ch.u, size), None, ch.u);
  }

  lemma RoomOnRecord(c: Config, s: State, t: Id)
    requires Safe(c, s) && t in s.tasks
    requires (s.tasks[t].MakingDirs? || s.tasks[t].InitWaiting? || s.tasks[t].InitHolding?)
    ensures s.tasks[t].r in s.board.rooms
  {
    assert TaskOk(s.board, s.vault, t, s.tasks[t]);
  }

  lemma RegisteredSeen(c: Config, s: State, t: Id, r: Id, size: nat, ch: Choice)
    requires r in s.board.rooms && s.vault.hold.Ready? && Grants(c, s.vault, size)
    ensures var w := Register(s.board, ch.u, NewRecord(s.board, r, ch.f, s.now, t));
            Stands(See(Stop(s, t, w, Decide(c, s.vault, ch.u, size)), ch.u))
  {
  }

  lemma CreateStands(c: Config, s: State, e: Event)
    requires Safe(c, s) && Standing(s) && MayStart(c, s, e) && e.CreateRoom?
    ensures Standing(Begin(s, e)) && forall u | u in s.board.records :: Same(s, Begin(s, e), u)
  {
    hide Safe, Same, TornOut, Attended, OnlyRoom, OneMoves;
    SafeMeans(c, s);
    CreatedRoom(s, e);
    RoomStands(c, s, Begin(s, e), e.t, e.r);
  }

  lemma CreatedRoom(s: State, e: Event)
    requires e.CreateRoom? && e.t !in s.tasks && e.r !in s.board.rooms
    ensures var w := Begin(s, e); OnlyRoom(s, w, e.r) && OneMoves(s, w, e.t) && Attended(w, e.r)
  {
  }

  lemma CloseStands(c: Config, s: State, e: Event)
    requires Safe(c, s) && Standing(s) && MayStart(c, s, e) && e.CloseRoom?
    ensures Standing(Begin(s, e))
    ensures forall u | u in s.board.records && s.board.records[u].room != e.r :: Same(s, Begin(s, e), u)
  {
    hide Safe, Same, TornOut;
    var w := Begin(s, e);
    forall u | u in s.board.records && s.board.records[u].room == e.r ensures Stands(See(w, u)) {
      ClosedSeen(s, e, u);
    }
    RoomStands(c, s, w, e.t, e.r);
  }

  lemma ClosedSeen(s: State, e: Event, u: Id)
    requires e.CloseRoom? && e.t !in s.tasks && e.r in s.board.rooms && s.board.rooms[e.r].phase == Open
    requires u in s.board.records && s.board.records[u].room == e.r && Stands(See(s, u))
    ensures Stands(See(Begin(s, e), u))
  {
  }

  lemma RequestsStand(c: Config, s: State, e: Event)
    requires Safe(c, s) && Standing(s) && MayStart(c, s, e) && (e.PutStart? || e.CompleteStart? || e.AbortStart?)
    ensures Standing(Begin(s, e)) && Others(s, Begin(s, e), e.u)
  {
    hide Safe, BoardStill, VaultStill, Same, Standing, Others;
    Resolved(c, s, e.u); VaultStills(c, s.vault, e.u);
    var b, u := s.board, e.u;
    match e
    case AbortStart(t, _) => AbortStands(c, s, t, u, Aborted);
    case PutStart(t, _, _) =>
      SetRecordStill(b, u, b.records[u].(writing := true, client := t));
      RequestStands(
        c, s, t, SetRecord(b, u, b.records[u].(writing := true, client := t)), s.vault, Some(Streaming(u)), u);
    case CompleteStart(t, _) =>
      SetRecordStill(b, u, b.records[u].(client := t));
      RequestStands(c, s, t, SetRecord(b, u, b.records[u].(client := t)), s.vault, Some(Sizing(u)), u);
  }

  /** An upload that resolves is on record and listed, and its room is open. */
  lemma Resolved(c: Config, s: State, u: Id)
    requires Safe(c, s) && Resolve(s.board, u).Some?
    ensures u in s.board.records && s.board.records[u].room == Resolve(s.board, u).value
    ensures s.board.records[u].room in s.board.rooms && s.board.rooms[s.board.records[u].room].phase == Open
    ensures u in s.board.rooms[s.board.records[u].room].uploads
  {
    var code := s.board.index[u];
    assert CodeOk(s.board, code);
    assert RoomOk(s.board, s.board.codes[code]);
    assert ListedOk(s.board, s.board.codes[code], u);
  }

  lemma BeginStands(c: Config, s: State, e: Event)
    requires Safe(c, s) && Standing(s) && MayStart(c, s, e) && !e.Resume? && !e.ReadStorage?
    ensures Standing(Begin(s, e)) && Apart(s, e, Begin(s, e))
    ensures e.PutStart? || e.CompleteStart? || e.AbortStart? || e.CloseRoom?
            || forall u | u in s.board.records :: Same(s, Begin(s, e), u)
  {
    hide Safe, Same, TornOut, Stands, See, Standing;
    var b, v := s.board, s.vault;
    match e
    case Tick(dt) => TickStands(s, dt);
    case CreateRoom(_, _, _) => CreateStands(c, s, e);
    case Populate(r, users, documents) => PopulateStands(s, r, users, documents);
    case CloseRoom(_, _) => CloseStands(c, s, e);
    case InitStart(t, r, _, size) => IdleStands(c, s, t, b, v, Some(InitWaiting(r, size)));
    case SweepStart(t) => IdleStands(c, s, t, b, v, Some(Sweeping(Loop(s.now, b.codes.Values, 0, {}))));
    case DeleteFile(t, r, f) => IdleStands(c, s, t, Begin(s, e).board, v, Some(Unlinking(r, f)));
    case _ => RequestsStand(c, s, e);
  }

  lemma TickStands(s: State, dt: nat)
    requires Standing(s)
    ensures Standing(s.(now := s.now + dt))
    ensures forall u | u in s.board.records :: Same(s, s.(now := s.now + dt), u)
  {
    var w := s.(now := s.now + dt);
    assert forall t | t in s.tasks :: TornOut(s, t) ==> TornOut(w, t);
    assert forall r | r in s.board.rooms :: Attended(s, r) ==> Attended(w, r);
  }

  lemma PopulateStands(s: State, r: Id, users: set<Id>, documents: set<Id>)
    requires Standing(s) && r in s.board.rooms && s.board.rooms[r].phase == Open
    ensures var w := s.(board := SetRoom(s.board, r, RoomAt(s.board, r).(users := users, documents := documents)));
            Standing(w) && forall u | u in s.board.records :: Same(s, w, u)
  {
    hide Stands, TornOut, Attended, See;
    var w := s.(board := SetRoom(s.board, r, RoomAt(s.board, r).(users := users, documents := documents)));
    forall u | u in w.board.records ensures Stands(See(w, u)) && See(w, u) == See(s, u) {
      PopulateSeen(s, w, r, users, documents, u);
    }
    PopulateKeeps(s, w, r, users, documents);
  }

  lemma PopulateSeen(s: State, w: State, r: Id, users: set<Id>, documents: set<Id>, u: Id)
    requires r in s.board.rooms && u in s.board.records
    requires w == s.(board := SetRoom(s.board, r, RoomAt(s.board, r).(users := users, documents := documents)))
    ensures See(w, u) == See(s, u)
  {
  }

  lemma PopulateKeeps(s: State, w: State, r: Id, users: set<Id>, documents: set<Id>)
    requires r in s.board.rooms && s.board.rooms[r].phase == Open
    requires w == s.(board := SetRoom(s.board, r, RoomAt(s.board, r).(users := users, documents := documents)))
    ensures forall t | t in s.tasks :: TornOut(s, t) ==> TornOut(w, t)
    ensures forall i | i in s.board.rooms :: Attended(s, i) ==> Attended(w, i)
  {
  }

  lemma UnlinkStands(c: Config, s: State, t: Id, r: Id, f: Id, ch: Choice)
    requires Safe(c, s) && Standing(s) && t in s.tasks && s.tasks[t] == Unlinking(r, f)
    ensures Standing(Proceed(c, s, t, ch))
    ensures forall u | u in s.board.records :: Same(s, Proceed(c, s, t, ch), u)
  {
    hide Safe, Same, Standing;
    if ch.flag { IdleStands(c, s, t, s.board, Remove(s.vault, {Stored(r, f)}), None); }
    else { IdleStands(c, s, t, s.board, s.vault, None); }
  }

  lemma UntouchedStands(c: Config, s: State, t: Id, ch: Choice)
    requires Safe(c, s) && Standing(s) && t in s.tasks
    requires s.tasks[t].MakingDirs? || s.tasks[t].InitWaiting? || s.tasks[t].Unlinking?
    ensures Standing(Proceed(c, s, t, ch))
    ensures forall u | u in s.board.records :: Same(s, Proceed(c, s, t, ch), u)
  {
    hide Safe, Same, Standing, SameBooks, See, Stands;
    match s.tasks[t]
    case MakingDirs(r) => DirsStand(c, s, t, r, ch.flag);
    case InitWaiting(r, size) => WaitingStands(c, s, t, r, size);
    case Unlinking(r, f) => UnlinkStands(c, s, t, r, f, ch);
  }

  lemma DirsStand(c: Config, s: State, t: Id, r: Id, made: bool)
    requires Safe(c, s) && Standing(s) && t in s.tasks && s.tasks[t] == MakingDirs(r)
    ensures var room := RoomAt(s.board, r);
            var w := Stop(s, t, SetRoom(s.board, r, room.(dir := room.dir || made)), s.vault);
            Standing(w) && forall u | u in s.board.records :: Same(s, w, u)
  {
    hide Safe, Same, Standing, See, Stands;
    RoomOnRecord(c, s, t);
    IdleStands(c, s, t, SetRoom(s.board, r, RoomAt(s.board, r).(dir := RoomAt(s.board, r).dir || made)), s.vault, None);
  }

  lemma WaitingStands(c: Config, s: State, t: Id, r: Id, size: nat)
    requires Safe(c, s) && Standing(s) && t in s.tasks && s.tasks[t] == InitWaiting(r, size)
    ensures var w := Go(s, t, s.board, Acquire(s.vault, t), InitHolding(r, size));
            Standing(w) && forall u | u in s.board.records :: Same(s, w, u)
  {
    hide Safe, Same, Standing, See, Stands;
    IdleStands(c, s, t, s.board, Acquire(s.vault, t), Some(InitHolding(r, size)));
  }

  lemma OtherStands(c: Config, s: State, t: Id, ch: Choice)
    requires Safe(c, s) && Standing(s) && t in s.tasks && MayResume(s, s.tasks[t], ch)
    requires s.tasks[t].MakingDirs? || s.tasks[t].InitWaiting? || s.tasks[t].InitHolding? || s.tasks[t].Unlinking?
    ensures Standing(Proceed(c, s, t, ch)) && Apart(s, Resume(t, ch), Proceed(c, s, t, ch))
  {
    hide Safe, Same, Standing, See, SameBooks;
    if s.tasks[t].InitHolding? { HoldStands(c, s, t, s.tasks[t].r, s.tasks[t].size, ch); }
    else { UntouchedStands(c, s, t, ch); }
  }

  lemma ProceedStands(c: Config, s: State, t: Id, ch: Choice)
    requires Safe(c, s) && Standing(s) && t in s.tasks && MayResume(s, s.tasks[t], ch)
    ensures Standing(Proceed(c, s, t, ch)) && Apart(s, Resume(t, ch), Proceed(c, s, t, ch))
  {
    hide Safe, Same, TornOut, Stands, See, Standing, MayResume;
    var task := s.tasks[t];
    if task.IsPut() { if task.Rechecked? { RecheckedStands(c, s, t, ch); } else { PutStands(c, s, t, ch); } }
    else if task.IsEnd() {
      if task.Sizing? || task.Sized? || task.Committing? { CommitStands(c, s, t, ch); } else { EndStands(c, s, t, ch); }
    }
    else if task.IsSweep() { SweepStands(c, s, t, ch); }
    else if task.IsClean() {
      if MovesRoom(task, ch) { CleanRoomStands(c, s, t, ch); } else { CleanUploadStands(c, s, t, ch); }
    }
    else { OtherStands(c, s, t, ch); }
  }

  lemma UsageStands(c: Config, s: State, figure: nat)
    requires Standing(s)
    ensures Standing(s.(vault := WithUsage(c, s.vault, s.now, figure)))
    ensures forall u | u in s.board.records :: Same(s, s.(vault := WithUsage(c, s.vault, s.now, figure)), u)
  {
    hide Measured, Stands;
    var w := s.(vault := WithUsage(c, s.vault, s.now, figure));
    assert forall u | u in s.board.records :: See(w, u) == See(s, u);
    assert forall t | t in s.tasks :: TornOut(s, t) ==> TornOut(w, t);
    assert forall r | r in s.board.rooms :: Attended(s, r) ==> Attended(w, r);
  }

  lemma StepStands(c: Config, s: State, e: Event)
    requires Safe(c, s) && Standing(s) && MayStart(c, s, e)
    ensures Standing(Step(c, s, e)) && Apart(s, e, Step(c, s, e))
  {
    hide Safe, Standing, Proceed, Begin, MayResume;
    if e.Resume? { ProceedStands(c, s, e.t, e.ch); }
    else if e.ReadStorage? { UsageStands(c, s, e.figure); }
    else { BeginStands(c, s, e); }
  }

  lemma {:induction false} RunStands(c: Config, s: State, es: seq<Event>)
    requires Safe(c, s) && Standing(s) && Legal(c, s, es)
    ensures Safe(c, After(c, s, es)) && Standing(After(c, s, es))
    decreases |es|
  {
    hide Safe, Standing, Step, MayStart;
    if es == [] {
    } else {
      StepSafe(c, s, es[0]); KeptIsSafe(c, s, Step(c, s, es[0]));
      StepStands(c, s, es[0]);
      RunStands(c, Step(c, s, es[0]), es[1..]);
    }
  }

  lemma KeptIsSafe(c: Config, s: State, w: State)
    requires Kept(c, s, w)
    ensures Safe(c, w)
  {
  }

  // ------------------------------------------------------------------
  // Results
  // ------------------------------------------------------------------

  /** An upload that some open room lists. */
  ghost predicate Registered(b: Board, u: Id) {
    exists r :: r in b.rooms && b.rooms[r].phase == Open && u in b.rooms[r].uploads
  }

  /**
   An upload that nobody will tear down: its init was granted after its room's cleanup had
   listed what to abort, or the cleanup was abandoned before it came to it.
   */
  predicate Stranded(b: Board, u: Id) {
    u in b.records
    && (b.records[u].stage == Leaked || (b.records[u].stage == Live && RoomAt(b, b.records[u].room).abandoned))
  }

  /**
   Whenever no task is suspended, the uploads with a reservation are exactly those an open
   room lists, and the stranded ones; whichever requests overlapped before.
   */
  lemma ReservedAtRest(c: Config, s: State, es: seq<Event>)
    requires s == START && Legal(c, s, es) && After(c, s, es).tasks == map[]
    ensures var w := After(c, s, es);
            forall u :: u in w.vault.ledger <==> Registered(w.board, u) || Stranded(w.board, u)
  {
    hide Safe, Standing, Registered, Stranded;
    StartSafe(c, s);
    StartStanding(s);
    RunStands(c, s, es);
    var w := After(c, s, es);
    forall u ensures u in w.vault.ledger <==> Registered(w.board, u) || Stranded(w.board, u) {
      AtRest(c, w, u);
    }
  }

  lemma StandsOf(s: State, u: Id)
    requires Standing(s) && u in s.board.records
    ensures Stands(See(s, u))
  {
  }

  lemma StartStanding(s: State)
    requires s == START
    ensures Standing(s)
  {
  }

  lemma AtRest(c: Config, s: State, u: Id)
    requires Safe(c, s) && Standing(s) && s.tasks == map[]
    ensures u in s.vault.ledger <==> Registered(s.board, u) || Stranded(s.board, u)
  {
    hide Sound, PartsOk, TasksOk;
    if Registered(s.board, u) {
      var r :| r in s.board.rooms && s.board.rooms[r].phase == Open && u in s.board.rooms[r].uploads;
      assert RoomOk(s.board, r) && ListedOk(s.board, r, u);
    }
    LedgerOnRecord(c, s);
    if u in s.board.records {
      assert Stands(See(s, u)) && Attended(s, s.board.records[u].room);
    }
  }

  lemma LedgerOnRecord(c: Config, s: State)
    requires Safe(c, s)
    ensures s.vault.ledger.Keys <= s.board.records.Keys
  {
  }
}
