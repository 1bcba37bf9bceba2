/**
 The life of one room instance: joins, resumes, lost sockets, departures and the two grace
 timers. Between two suspension points every operation is a function of the instance; a
 world adds the sockets' sessions, the users that are gone, and the clock.
 */
module RoomLifecycle {
  import opened Basics

  datatype Limits = Limits(emptyGraceMs: nat, userGraceMs: nat, maxUsers: nat)

  datatype Phase = Active | EmptyGrace | Closing | Closed

  /**
   `conn` is the socket that messages go to. The last two fields are history: the socket
   bound last, and when the user was last marked disconnected.
   */
  datatype User = User(
    clientId: nat, token: Id, conn: Option<Id>, connected: bool, timer: Option<Id>,
    bound: Id, since: nat)

  datatype Callback = Elapse | Expire(user: Id)
  datatype Alarm = Alarm(due: nat, callback: Callback)

  /** What a room holds besides its users. */
  datatype Shelf = Shelf(files: map<Id, nat>, uploads: set<Id>, documents: set<Id>)

  const EMPTY_SHELF := Shelf(map[], {}, {})

  /** `alarms` are the timers that are neither cancelled nor fired; `nextAlarm` names the next one. */
  datatype Room = Room(
    phase: Phase, users: map<Id, User>, joinSeq: nat,
    emptyTimer: Option<Id>, alarms: map<Id, Alarm>, nextAlarm: Id, shelf: Shelf)

  const FRESH_ROOM := Room(Active, map[], 0, None, map[], 0, EMPTY_SHELF)

  predicate Joinable(r: Room) { r.phase == Active || r.phase == EmptyGrace }

  function Connected(r: Room): set<Id> { set i | i in r.users && r.users[i].connected }

  // ------------------------------------------------------------------
  // The operations of an instance
  // ------------------------------------------------------------------

  function Cancel(r: Room, timer: Option<Id>): Room {
    if timer.Some? then r.(alarms := r.alarms - {timer.value}) else r
  }

  function CancelEmptyGrace(r: Room): Room { Cancel(r, r.emptyTimer).(emptyTimer := None) }

  /** `_maybe_start_empty_grace` */
  function MaybeStartEmptyGrace(c: Limits, r: Room, now: nat): Room {
    if r.phase == Active && Connected(r) == {} then
      r.(phase := EmptyGrace, emptyTimer := Some(r.nextAlarm), nextAlarm := r.nextAlarm + 1,
         alarms := r.alarms[r.nextAlarm := Alarm(now + c.emptyGraceMs, Elapse)])
    else r
  }

  /** The user a session token belongs to, if there is one. */
  ghost predicate Finds(r: Room, token: Option<Id>, found: Option<Id>) {
    match found
    case Some(i) => token.Some? && i in r.users && r.users[i].token == token.value
    case None => token.Some? ==> forall i | i in r.users :: r.users[i].token != token.value
  }

  datatype Joining = NotJoinable | Full | Admitted | Resumed(user: Id)

  /** What `join` answers. */
  function Answer(c: Limits, r: Room, found: Option<Id>): Joining {
    if !Joinable(r) then NotJoinable
    else if found.Some? then Resumed(found.value)
    else if |Connected(r)| >= c.maxUsers then Full
    else Admitted
  }

  function Rebind(r: Room, i: Id, conn: Id): Room
    requires i in r.users
  {
    var u := r.users[i];
    Cancel(CancelEmptyGrace(r), u.timer).(
      phase := Active,
      users := r.users[i := u.(timer := None, conn := Some(conn), connected := true, bound := conn)])
  }

  function Admit(r: Room, i: Id, token: Id, conn: Id): Room {
    CancelEmptyGrace(r).(
      phase := Active, joinSeq := r.joinSeq + 1,
      users := r.users[i := User(r.joinSeq + 1, token, Some(conn), true, None, conn, 0)])
  }

  /** `join`: note that a refusal for want of room comes after the empty-grace timer was cancelled. */
  function Join(c: Limits, r: Room, conn: Id, found: Option<Id>, i: Id, token: Id): Room
    requires found.Some? ==> found.value in r.users
  {
    match Answer(c, r, found)
    case NotJoinable => r
    case Resumed(u) => Rebind(r, u, conn)
    case Full => CancelEmptyGrace(r)
    case Admitted => Admit(r, i, token, conn)
  }

  /** Another socket has taken this user over. */
  predicate Superseded(u: User, conn: Id) { u.conn.Some? && u.conn.value != conn }

  /** The user without a socket, and a removal scheduled. */
  function Detach(c: Limits, r: Room, i: Id, now: nat): Room
    requires i in r.users
  {
    var u := r.users[i];
    var q := Cancel(r, u.timer);
    q.(users := r.users[i := u.(conn := None, connected := false, timer := Some(r.nextAlarm), since := now)],
       alarms := q.alarms[r.nextAlarm := Alarm(now + c.userGraceMs, Expire(i))],
       nextAlarm := r.nextAlarm + 1)
  }

  /** `mark_disconnected` */
  function MarkDisconnected(c: Limits, r: Room, i: Id, conn: Id, now: nat): Room {
    if i !in r.users || Superseded(r.users[i], conn) then r
    else MaybeStartEmptyGrace(c, Detach(c, r, i, now), now)
  }

  function Pop(r: Room, i: Id): Room { r.(users := r.users - {i}) }

  /** `remove_user` */
  function RemoveUser(c: Limits, r: Room, i: Id, now: nat): Room {
    MaybeStartEmptyGrace(c, Pop(if i in r.users then Cancel(r, r.users[i].timer) else r, i), now)
  }

  /** `_on_empty_grace_elapsed`, the one-way door. */
  function OnEmptyGraceElapsed(r: Room): Room {
    if r.phase == EmptyGrace then r.(emptyTimer := None, phase := Closing) else r
  }

  /** Does the callback of `mark_disconnected` take its user out? */
  predicate Expires(r: Room, i: Id) { i in r.users && !r.users[i].connected }

  /** Some users' removal timers cancelled. */
  function CancelTimersOf(r: Room, some: set<Id>): Room {
    r.(alarms := map k | k in r.alarms && (forall i | i in some && i in r.users :: r.users[i].timer != Some(k)) ::
                   r.alarms[k],
       users := map i | i in r.users :: if i in some then r.users[i].(timer := None) else r.users[i])
  }

  /** `cancel_all_timers` */
  function CancelAllTimers(r: Room): Room { CancelTimersOf(CancelEmptyGrace(r), r.users.Keys) }

  /** What closing a user's socket does during cleanup: the user loses it and is otherwise as before. */
  function Disown(r: Room, i: Id): Room
    requires i in r.users
  {
    r.(users := r.users[i := r.users[i].(conn := None)])
  }

  // ------------------------------------------------------------------
  // The world around it
  // ------------------------------------------------------------------

  /** A socket's session: the user it joined as, and whether `leave` has run. */
  datatype Session = Session(user: Id, left: bool)

  /** How a user went, and when: a history of `departed`. */
  datatype Parting = Left | Expired(at: nat) | Swept

  datatype Departed = Departed(user: User, how: Parting)

  /** `settling` counts removals that still await their announcement. */
  datatype World = World(
    room: Room, sessions: map<Id, Session>, departed: map<Id, Departed>, settling: nat, now: nat)

  const START := World(FRESH_ROOM, map[], map[], 0, 0)

  datatype Event =
    | Tick(dt: nat)
    | JoinBy(conn: Id, token: Option<Id>, found: Option<Id>, user: Id, newToken: Id)
    | SocketLost(conn: Id)
    | LeaveBy(conn: Id)
    | Fire(alarm: Id)
    | Settle
    | Store(shelf: Shelf)
    | ForceClose
    | CancelTimers
    | CloseSocket(user: Id)
    | CleanUp

  predicate Known(w: World, i: Id) { i in w.room.users || i in w.departed }

  /** The user object that sessions of user i hold, whether or not it is still in the room. */
  function Person(w: World, i: Id): User
    requires Known(w, i)
  {
    if i in w.room.users then w.room.users[i] else w.departed[i].user
  }

  ghost predicate May(w: World, e: Event) {
    match e
    case Tick(_) => true
    case JoinBy(conn, token, found, i, newToken) =>
      && conn !in w.sessions && Finds(w.room, token, found)
      && !Known(w, i) && (forall j | Known(w, j) :: Person(w, j).token != newToken)
    case SocketLost(conn) => conn in w.sessions && Known(w, w.sessions[conn].user)
    case LeaveBy(conn) => conn in w.sessions && Known(w, w.sessions[conn].user)
    case Fire(k) => k in w.room.alarms && w.room.alarms[k].due <= w.now
    case Settle => w.settling > 0
    case Store(_) => w.room.joinSeq > 0
    case ForceClose => Joinable(w.room)
    case CancelTimers => w.room.phase == Closing
    case CloseSocket(i) => w.room.phase == Closing && i in w.room.users && w.room.users[i].conn.Some?
    case CleanUp => w.room.phase == Closing
  }

  function Depart(w: World, gone: set<Id>, how: Parting): World {
    w.(departed := map i | i in w.departed.Keys + (gone * w.room.users.Keys) ::
                     if i in w.room.users && i in gone then Departed(w.room.users[i], how) else w.departed[i])
  }

  function MarkLeft(w: World, conn: Id): World
    requires conn in w.sessions
  {
    w.(sessions := w.sessions[conn := w.sessions[conn].(left := true)])
  }

  /** `Session.handle_join` up to its first await after the join. */
  function JoinStep(c: Limits, w: World, e: Event): World
    requires e.JoinBy? && (e.found.Some? ==> e.found.value in w.room.users)
  {
    var v := w.(room := Join(c, w.room, e.conn, e.found, e.user, e.newToken));
    match Answer(c, w.room, e.found)
    case Resumed(i) => v.(sessions := w.sessions[e.conn := Session(i, false)])
    case Admitted => v.(sessions := w.sessions[e.conn := Session(e.user, false)])
    case _ => v
  }

  /** `Session.leave`, which acts once. */
  function LeaveStep(c: Limits, w: World, conn: Id, explicit: bool): World
    requires conn in w.sessions && Known(w, w.sessions[conn].user)
  {
    var s := w.sessions[conn];
    var v := MarkLeft(w, conn);
    if s.left then w
    else if !explicit then v.(room := MarkDisconnected(c, w.room, s.user, conn, w.now))
    else if Superseded(Person(w, s.user), conn) then v
    else Depart(v, {s.user}, Left).(room := RemoveUser(c, w.room, s.user, w.now))
  }

  /** A timer's callback up to its first await. */
  function FireStep(c: Limits, w: World, k: Id): World
    requires k in w.room.alarms
  {
    var r := w.room.(alarms := w.room.alarms - {k});
    match w.room.alarms[k].callback
    case Elapse => w.(room := OnEmptyGraceElapsed(r))
    case Expire(i) =>
      if Expires(r, i) then Depart(w, {i}, Expired(w.now)).(room := Pop(r, i), settling := w.settling + 1)
      else w.(room := r)
  }

  ghost function Step(c: Limits, w: World, e: Event): World
    requires May(w, e)
  {
    match e
    case Tick(dt) => w.(now := w.now + dt)
    case JoinBy(_, _, _, _, _) => JoinStep(c, w, e)
    case SocketLost(conn) => LeaveStep(c, w, conn, false)
    case LeaveBy(conn) => LeaveStep(c, w, conn, true)
    case Fire(k) => FireStep(c, w, k)
    case Settle => w.(settling := w.settling - 1, room := MaybeStartEmptyGrace(c, w.room, w.now))
    case Store(shelf) => w.(room := w.room.(shelf := shelf))
    case ForceClose => w.(room := CancelAllTimers(w.room).(phase := Closing))
    case CancelTimers => w.(room := CancelAllTimers(w.room))
    case CloseSocket(i) => w.(room := Disown(w.room, i))
    case CleanUp =>
      Depart(w, w.room.users.Keys, Swept).(
        room := w.room.(users := map[], phase := Closed, shelf := EMPTY_SHELF))
  }

  ghost predicate Legal(c: Limits, w: World, es: seq<Event>)
    decreases |es|
  {
    es != [] ==> May(w, es[0]) && Legal(c, Step(c, w, es[0]), es[1..])
  }

  ghost function After(c: Limits, w: World, es: seq<Event>): World
    requires Legal(c, w, es)
    decreases |es|
  {
    if es == [] then w else After(c, Step(c, w, es[0]), es[1..])
  }
}
