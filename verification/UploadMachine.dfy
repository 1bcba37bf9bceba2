/**
 The upload server as a step system. A coroutine is a task; one step is the code
 between two suspension points, and any task may take the next step. Operations run
 by the storage threads (append, rename, remove, reading free space) take effect in a
 step of their own, before the coroutine that awaits them goes on.
 */
module UploadMachine {
  import opened Basics
  import opened Vault

  datatype Phase = Open | Closing | Cleaning | Closed

  /**
   History of an upload record: no step decides anything by it.
   Unhooked: taken out of its room, reservation not yet given back. Released: the
   reservation is gone, the part may still be there. Orphaned: deleting the part failed.
   Leaked: registered by an init that
   was granted after its room's cleanup had listed the room's uploads.
   */
  datatype Stage = Live | Unhooked | Released | Done | Orphaned | Leaked

  /**
   The last three fields are history: the stage, the coroutine that brought the record to it,
   and the last request that began on the upload.
   */
  datatype Record = Record(
    room: Id, file: Id, committed: nat, lastActivity: nat, aborted: bool, writing: bool,
    stage: Stage, owner: Id, client: Id)

  /**
   `dir` is the room's directory on the disk. The last three fields are history: the cleanup
   task, whether four removal attempts left the directory behind, and whether the cleanup ended
   early because a part could not be deleted.
   */
  datatype Room = Room(
    code: string, phase: Phase, uploads: set<Id>, files: map<Id, nat>,
    users: set<Id>, documents: set<Id>, dir: bool, cleaner: Id, survives: bool, abandoned: bool)

  /** codes is RoomManager's map; index is UploadService's; rooms and records are the objects. */
  datatype Board = Board(
    codes: map<string, Id>, rooms: map<Id, Room>, records: map<Id, Record>, index: map<Id, string>)

  datatype Why = Completed | Aborted | Breached

  /** Where a sweep is: when it began, the rooms and the uploads it has still to look at. */
  datatype Loop = Loop(start: nat, rooms: set<Id>, room: Id, todo: set<Id>)

  datatype Task =
    | MakingDirs(r: Id)
    | InitWaiting(r: Id, size: nat)
    | InitHolding(r: Id, size: nat)
    | Streaming(u: Id)
    | Appending(u: Id, n: nat)
    | Appended(u: Id, landed: nat)
    | Shrinking(u: Id, remaining: int)
    | Rechecking(u: Id)
    | Rechecked(u: Id, reading: int)
    | Sizing(u: Id)
    | Sized(u: Id, actual: nat)
    | Committing(u: Id)
    | Renamed(u: Id)
    | Releasing(u: Id, why: Why)
    | Discarding(u: Id, why: Why)
    | Sweeping(loop: Loop)
    | SweepReleasing(loop: Loop, u: Id)
    | SweepDiscarding(loop: Loop, u: Id)
    | CleanStart(r: Id)
    | CleanNext(r: Id, todo: set<Id>)
    | CleanReleasing(r: Id, todo: set<Id>, u: Id)
    | CleanDiscarding(r: Id, todo: set<Id>, u: Id)
    | CleanRemoving(r: Id, attempt: nat)
    | Unlinking(r: Id, f: Id)
  {
    /** `upload_chunk` and the `write_chunk` calls in it. */
    predicate IsPut() { Streaming? || Appending? || Appended? || Shrinking? || Rechecking? || Rechecked? }

    /** `complete`, and the second half of `abort`. */
    predicate IsEnd() { Sizing? || Sized? || Committing? || Renamed? || Releasing? || Discarding? }

    /** A request that resolved its upload and has not taken it out of its room. */
    predicate IsClient() { IsPut() || Sizing? || Sized? || Committing? || Renamed? }

    predicate IsSweep() { Sweeping? || SweepReleasing? || SweepDiscarding? }

    predicate IsClean() { CleanStart? || CleanNext? || CleanReleasing? || CleanDiscarding? || CleanRemoving? }

    /** The uploads a task refers to. */
    predicate Names(i: Id) {
      if IsPut() || IsEnd() then u == i
      else if SweepReleasing? || SweepDiscarding? then u == i || i in loop.todo
      else if CleanReleasing? || CleanDiscarding? then u == i || i in todo
      else if Sweeping? then i in loop.todo
      else CleanNext? && i in todo
    }
  }

  datatype State = State(board: Board, vault: Vault, tasks: map<Id, Task>, now: nat)

  /** What the environment decides about a step: a fresh or chosen id, a length, success. */
  datatype Choice = Choice(u: Id, f: Id, n: nat, flag: bool, gone: set<Path>)

  datatype Event =
    | Tick(dt: nat)
    | CreateRoom(t: Id, r: Id, code: string)
    | Populate(r: Id, users: set<Id>, documents: set<Id>)
    | CloseRoom(t: Id, r: Id)
    | InitStart(t: Id, r: Id, user: Id, size: nat)
    | PutStart(t: Id, u: Id, start: nat)
    | CompleteStart(t: Id, u: Id)
    | AbortStart(t: Id, u: Id)
    | SweepStart(t: Id)
    | DeleteFile(t: Id, r: Id, f: Id)
    | ReadStorage(figure: nat)
    | Resume(t: Id, ch: Choice)

  const START := State(Board(map[], map[], map[], map[]), EMPTY_VAULT, map[], 0)
  const MAX_ATTEMPTS := 4
  const NO_ROOM := Room("", Closed, {}, map[], {}, {}, false, 0, false, false)
  const NO_RECORD := Record(0, 0, 0, 0, true, false, Done, 0, 0)

  // ------------------------------------------------------------------
  // Updates of the board
  // ------------------------------------------------------------------

  function RoomAt(b: Board, r: Id): Room { if r in b.rooms then b.rooms[r] else NO_ROOM }
  function RecordAt(b: Board, u: Id): Record { if u in b.records then b.records[u] else NO_RECORD }
  function SetRoom(b: Board, r: Id, room: Room): Board { b.(rooms := b.rooms[r := room]) }
  function SetRecord(b: Board, u: Id, rec: Record): Board { b.(records := b.records[u := rec]) }
  function PartOf(b: Board, u: Id): Path { Part(RecordAt(b, u).room, u) }

  /** The history of a record when task t takes it out, gives back its space, deletes its part or fails to. */
  function Unhook(rec: Record, t: Id): Record {
    if rec.stage == Live || rec.stage == Leaked then rec.(stage := Unhooked, owner := t) else rec
  }
  function GiveBack(rec: Record, t: Id): Record {
    if rec.stage == Unhooked then rec.(stage := Released, owner := t) else rec
  }
  function Finish(rec: Record): Record {
    if rec.stage == Released || rec.stage == Orphaned then rec.(stage := Done) else rec
  }
  function Orphan(rec: Record): Record { if rec.stage == Released then rec.(stage := Orphaned) else rec }

  /** `room.uploads.pop(upload_id, None)` */
  function PopUpload(b: Board, u: Id, t: Id): Board {
    var rec := RecordAt(b, u);
    var room := RoomAt(b, rec.room);
    SetRecord(SetRoom(b, rec.room, room.(uploads := room.uploads - {u})), u, Unhook(rec, t))
  }

  /** Popped from the room and from the index, as `complete` does. */
  function Unlist(b: Board, u: Id, t: Id): Board {
    var w := PopUpload(b, u, t);
    w.(index := w.index - {u})
  }

  /** `UploadService.abort` up to its first await. */
  function AbortNow(b: Board, u: Id, t: Id): Board {
    var w := Unlist(b, u, t);
    SetRecord(w, u, RecordAt(w, u).(aborted := true))
  }

  /** `UploadService.init` after its reservation was granted. */
  function Register(b: Board, u: Id, rec: Record): Board {
    var room := RoomAt(b, rec.room);
    SetRecord(SetRoom(b.(index := b.index[u := room.code]), rec.room,
                      room.(uploads := room.uploads + {u})), u, rec)
  }

  function NewRecord(b: Board, r: Id, f: Id, now: nat, t: Id): Record {
    var phase := RoomAt(b, r).phase;
    Record(r, f, 0, now, false, false, if phase == Open || phase == Closing then Live else Leaked, t, t)
  }

  function StopWriting(b: Board, u: Id): Board { SetRecord(b, u, RecordAt(b, u).(writing := false)) }

  /** `UploadService.complete` after the rename. */
  function RecordFile(b: Board, u: Id, size: nat, t: Id): Board {
    var rec := RecordAt(b, u);
    var room := RoomAt(b, rec.room);
    Unlist(SetRoom(b, rec.room, room.(files := room.files[rec.file := size])), u, t)
  }

  /** `RoomManager.create`, up to the directories; `get_or_create` calls it unless the code's room is joinable. */
  function Bind(b: Board, r: Id, code: string): Board {
    SetRoom(b.(codes := b.codes[code := r]), r, Room(code, Open, {}, map[], {}, {}, false, 0, false, false))
  }

  /** `RoomInstance._on_empty_grace_elapsed` or `close_room_now`, with `_begin_closing`. */
  function Unbind(b: Board, r: Id, t: Id): Board {
    var room := RoomAt(b, r);
    var codes := if room.code in b.codes && b.codes[room.code] == r then b.codes - {room.code} else b.codes;
    SetRoom(b.(codes := codes), r, room.(phase := Closing, cleaner := t))
  }

  /** `UploadService.resolve`: the room of an upload a request may act on. */
  function Resolve(b: Board, u: Id): Option<Id> {
    if u in b.index && b.index[u] in b.codes then
      var r := b.codes[b.index[u]];
      if u in RoomAt(b, r).uploads && !RecordAt(b, u).aborted then Some(r) else None
    else None
  }

  // ------------------------------------------------------------------
  // Starting a task
  // ------------------------------------------------------------------

  function Go(s: State, t: Id, b: Board, v: Vault, task: Task): State {
    State(b, v, s.tasks[t := task], s.now)
  }
  function Stop(s: State, t: Id, b: Board, v: Vault): State { State(b, v, s.tasks - {t}, s.now) }

  ghost predicate MayStart(c: Config, s: State, e: Event) {
    var b := s.board;
    match e
    case Tick(_) => true
    case CreateRoom(t, r, code) =>
      && t !in s.tasks && r !in b.rooms
      && (code in b.codes ==> RoomAt(b, b.codes[code]).phase != Open)
      && (|b.codes| < c.maxRooms || code in b.codes)
    case Populate(r, _, _) => r in b.rooms && b.rooms[r].phase == Open
    case CloseRoom(t, r) => t !in s.tasks && r in b.rooms && b.rooms[r].phase == Open
    case InitStart(t, r, user, _) =>
      && t !in s.tasks && r in b.rooms && b.rooms[r].phase == Open
      && b.rooms[r].code in b.codes && b.codes[b.rooms[r].code] == r && user in b.rooms[r].users
    case PutStart(t, u, start) =>
      t !in s.tasks && Resolve(b, u).Some? && start == RecordAt(b, u).committed
    case CompleteStart(t, u) => t !in s.tasks && Resolve(b, u).Some?
    case AbortStart(t, u) => t !in s.tasks && Resolve(b, u).Some?
    case SweepStart(t) => t !in s.tasks
    case DeleteFile(t, r, f) => t !in s.tasks && r in b.rooms && f in b.rooms[r].files
    case ReadStorage(_) => s.vault.hold.Unlocked?
    case Resume(t, ch) => t in s.tasks && MayResume(s, s.tasks[t], ch)
  }

  function Begin(s: State, e: Event): State
    requires !e.Resume? && !e.ReadStorage?
  {
    var b, v := s.board, s.vault;
    match e
    case Tick(dt) => s.(now := s.now + dt)
    case CreateRoom(t, r, code) => Go(s, t, Bind(b, r, code), v, MakingDirs(r))
    case Populate(r, users, documents) =>
      s.(board := SetRoom(b, r, RoomAt(b, r).(users := users, documents := documents)))
    case CloseRoom(t, r) => Go(s, t, Unbind(b, r, t), v, CleanStart(r))
    case InitStart(t, r, _, size) => Go(s, t, b, v, InitWaiting(r, size))
    case PutStart(t, u, _) =>
      Go(s, t, SetRecord(b, u, RecordAt(b, u).(writing := true, client := t)), v, Streaming(u))
    case CompleteStart(t, u) => Go(s, t, SetRecord(b, u, RecordAt(b, u).(client := t)), v, Sizing(u))
    case AbortStart(t, u) => Go(s, t, AbortNow(b, u, t), v, Releasing(u, Aborted))
    case SweepStart(t) => Go(s, t, b, v, Sweeping(Loop(s.now, b.codes.Values, 0, {})))
    case DeleteFile(t, r, f) =>
      var room := RoomAt(b, r);
      Go(s, t, SetRoom(b, r, room.(files := room.files - {f})), v, Unlinking(r, f))
  }

  // ------------------------------------------------------------------
  // Going on with a task
  // ------------------------------------------------------------------

  predicate WantsLock(task: Task) {
    task.InitWaiting? || task.Shrinking? || task.Releasing? || task.SweepReleasing? || task.CleanReleasing?
  }

  /** Tasks that want the ledger's lock wait for it; ids are fresh; loops pick a pending item. */
  ghost predicate MayResume(s: State, task: Task, ch: Choice) {
    match task
    case InitHolding(_, _) =>
      && !s.vault.hold.Unlocked?
      && ch.u !in s.board.records && ch.u !in s.vault.terms
      && (forall w | w in s.board.records :: s.board.records[w].file != ch.f)
    case Sweeping(l) => if l.todo != {} then ch.u in l.todo else l.rooms != {} ==> ch.u in l.rooms
    case CleanNext(_, todo) => todo != {} ==> ch.u in todo
    case _ => WantsLock(task) ==> s.vault.hold.Unlocked?
  }

  /** `UploadService.init` once the lock is held. */
  ghost function HoldStep(c: Config, s: State, t: Id, r: Id, size: nat, ch: Choice): State {
    var b, v := s.board, s.vault;
    match v.hold
    case Probing(_) => s.(vault := ReadVolume(c, v))
    case ReadFree(_, _) => s.(vault := ReadUsage(c, v, s.now, ch.n))
    case Ready(_, _, _, _) =>
      var w := Decide(c, v, ch.u, size);
      if Grants(c, v, size) then Stop(s, t, Register(b, ch.u, NewRecord(b, r, ch.f, s.now, t)), w)
      else Stop(s, t, b, w)
    case Unlocked => s
  }

  /** `upload_chunk` and `UploadService.write_chunk`. */
  ghost function PutStep(c: Config, s: State, t: Id, task: Task, ch: Choice): State
    requires task.IsPut()
  {
    var b, v, u := s.board, s.vault, task.u;
    var rec := RecordAt(b, u);
    match task
    case Streaming(_) =>
      if ch.n == 0 || rec.committed + ch.n > TermsOf(v, u).declared then Stop(s, t, StopWriting(b, u), v)
      else Go(s, t, b, v, Appending(u, ch.n))
    case Appending(_, n) =>
      if !ch.flag || !RoomAt(b, rec.room).dir then Stop(s, t, StopWriting(b, u), v)
      else Go(s, t, b, Append(v, PartOf(b, u), u, n), Appended(u, SizeAt(v, PartOf(b, u)) + n))
    case Appended(_, size) =>
      Go(s, t, SetRecord(b, u, rec.(committed := size, lastActivity := s.now)), v,
         Shrinking(u, TermsOf(v, u).declared - size))
    case Shrinking(_, remaining) =>
      Go(s, t, b, Shrink(v, u, remaining), if ch.flag then Rechecking(u) else Streaming(u))
    case Rechecking(_) =>
      Go(s, t, b, WithUsage(c, v, s.now, ch.n),
         Rechecked(u, Reading(c, Free(c, v), Measured(c, v, s.now, ch.n).bytes)))
    case Rechecked(_, reading) =>
      if reading < c.headroom then Go(s, t, AbortNow(b, u, t), v, Releasing(u, Breached))
      else Go(s, t, b, v, Streaming(u))
  }

  /** `UploadService.complete` and the tail of `abort`; storage may fail. */
  function EndStep(s: State, t: Id, task: Task, ch: Choice): State
    requires task.IsEnd()
  {
    var b, v, u := s.board, s.vault, task.u;
    var rec := RecordAt(b, u);
    match task
    case Sizing(_) => Go(s, t, b, v, Sized(u, SizeAt(v, PartOf(b, u))))
    case Sized(_, actual) =>
      if actual != TermsOf(v, u).declared then Stop(s, t, b, v) else Go(s, t, b, v, Committing(u))
    case Committing(_) =>
      if PartOf(b, u) !in v.disk || !ch.flag then Stop(s, t, b, v)
      else Go(s, t, b, Rename(v, PartOf(b, u), Stored(rec.room, rec.file)), Renamed(u))
    case Renamed(_) => Go(s, t, RecordFile(b, u, TermsOf(v, u).declared, t), v, Releasing(u, Completed))
    case Releasing(_, why) =>
      if why == Completed then Stop(s, t, SetRecord(b, u, Finish(GiveBack(rec, t))), Release(v, u))
      else Go(s, t, SetRecord(b, u, GiveBack(rec, t)), Release(v, u), Discarding(u, why))
    case Discarding(_, why) =>
      var writing := rec.writing && why != Breached;
      if ch.flag then Stop(s, t, SetRecord(b, u, Finish(rec).(writing := writing)), Remove(v, {PartOf(b, u)}))
      else Stop(s, t, SetRecord(b, u, Orphan(rec).(writing := writing)), v)
  }

  /** Idle for too long, and not in the middle of a write. */
  predicate IsStale(writing: bool, lastActivity: nat, now: nat, staleMs: nat) {
    !writing && now - lastActivity >= staleMs
  }

  predicate SweepSkips(c: Config, b: Board, l: Loop, u: Id) {
    !IsStale(RecordAt(b, u).writing, RecordAt(b, u).lastActivity, l.start, c.staleMs)
  }

  /** `UploadReaper.sweep_once`. A part that cannot be deleted ends the sweep. */
  function SweepStep(c: Config, s: State, t: Id, task: Task, ch: Choice): State
    requires task.IsSweep()
  {
    var b, v, l := s.board, s.vault, task.loop;
    match task
    case Sweeping(_) =>
      if l.todo != {} then
        var rest := l.(todo := l.todo - {ch.u});
        if SweepSkips(c, b, l, ch.u) then Go(s, t, b, v, Sweeping(rest))
        else Go(s, t, PopUpload(b, ch.u, t), v, SweepReleasing(rest, ch.u))
      else if l.rooms != {} then
        Go(s, t, b, v, Sweeping(Loop(l.start, l.rooms - {ch.u}, ch.u, RoomAt(b, ch.u).uploads)))
      else Stop(s, t, b, v)
    case SweepReleasing(_, u) =>
      Go(s, t, SetRecord(b, u, GiveBack(RecordAt(b, u), t)), Release(v, u), SweepDiscarding(l, u))
    case SweepDiscarding(_, u) =>
      if ch.flag then Go(s, t, SetRecord(b, u, Finish(RecordAt(b, u))), Remove(v, {PartOf(b, u)}), Sweeping(l))
      else Stop(s, t, SetRecord(b, u, Orphan(RecordAt(b, u))), v)
  }

  function CloseOff(b: Board, r: Id, room: Room): Board {
    SetRoom(b, r, room.(users := {}, files := map[], phase := Closed))
  }

  /** A part of the room could not be deleted, and the error ended its cleanup. */
  function Abandon(b: Board, r: Id, u: Id): Board {
    SetRoom(SetRecord(b, u, Orphan(RecordAt(b, u))), r, RoomAt(b, r).(abandoned := true))
  }

  /** `RoomCleaner.clean`. A failed removal may have deleted any of the room's files. */
  function CleanStep(s: State, t: Id, task: Task, ch: Choice): State
    requires task.IsClean()
  {
    var b, v, r := s.board, s.vault, task.r;
    var room := RoomAt(b, r);
    match task
    case CleanStart(_) => Go(s, t, SetRoom(b, r, room.(phase := Cleaning)), v, CleanNext(r, room.uploads))
    case CleanNext(_, todo) =>
      if todo == {} then
        Go(s, t, SetRoom(b, r, room.(uploads := {}, documents := {})), v, CleanRemoving(r, 0))
      else
        Go(s, t, SetRecord(b, ch.u, Unhook(RecordAt(b, ch.u), t).(aborted := true)), v,
           CleanReleasing(r, todo - {ch.u}, ch.u))
    case CleanReleasing(_, todo, u) =>
      Go(s, t, SetRecord(b, u, GiveBack(RecordAt(b, u), t)), Release(v, u), CleanDiscarding(r, todo, u))
    case CleanDiscarding(_, todo, u) =>
      if ch.flag then Go(s, t, SetRecord(b, u, Finish(RecordAt(b, u))), Remove(v, {PartOf(b, u)}), CleanNext(r, todo))
      else Stop(s, t, Abandon(b, r, u), v)
    case CleanRemoving(_, attempt) =>
      if ch.flag then
        Stop(s, t, CloseOff(b, r, room.(dir := false)), Remove(v, InRoom(v.disk, r)))
      else
        var w := Remove(v, InRoom(v.disk, r) * ch.gone);
        if attempt + 1 < MAX_ATTEMPTS then Go(s, t, b, w, CleanRemoving(r, attempt + 1))
        else Stop(s, t, CloseOff(b, r, room.(survives := true)), w)
  }

  ghost function Proceed(c: Config, s: State, t: Id, ch: Choice): State
    requires t in s.tasks
  {
    var task, b, v := s.tasks[t], s.board, s.vault;
    if task.IsPut() then PutStep(c, s, t, task, ch)
    else if task.IsEnd() then EndStep(s, t, task, ch)
    else if task.IsSweep() then SweepStep(c, s, t, task, ch)
    else if task.IsClean() then CleanStep(s, t, task, ch)
    else match task
      case MakingDirs(r) => Stop(s, t, SetRoom(b, r, RoomAt(b, r).(dir := RoomAt(b, r).dir || ch.flag)), v)
      case InitWaiting(r, size) => Go(s, t, b, Acquire(v, t), InitHolding(r, size))
      case InitHolding(r, size) => HoldStep(c, s, t, r, size, ch)
      case Unlinking(r, f) => Stop(s, t, b, if ch.flag then Remove(v, {Stored(r, f)}) else v)
  }

  ghost function Step(c: Config, s: State, e: Event): State
    requires MayStart(c, s, e)
  {
    if e.Resume? then Proceed(c, s, e.t, e.ch)
    else if e.ReadStorage? then s.(vault := WithUsage(c, s.vault, s.now, e.figure))
    else Begin(s, e)
  }

  // ------------------------------------------------------------------
  // Runs
  // ------------------------------------------------------------------

  ghost predicate Legal(c: Config, s: State, es: seq<Event>)
    decreases |es|
  {
    es != [] ==> MayStart(c, s, es[0]) && Legal(c, Step(c, s, es[0]), es[1..])
  }

  ghost function After(c: Config, s: State, es: seq<Event>): State
    requires Legal(c, s, es)
    decreases |es|
  {
    if es == [] then s else After(c, Step(c, s, es[0]), es[1..])
  }
}
