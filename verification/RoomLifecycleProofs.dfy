/** What every run of a room keeps, and the results about grace windows, identity and sockets. */
module RoomLifecycleProofs {
  import opened Basics
  import opened RoomLifecycle

  // ------------------------------------------------------------------
  // The instance
  // ------------------------------------------------------------------

  /** A timer is pending exactly when the field that holds it says so. */
  predicate AlarmOk(r: Room, k: Id)
    requires k in r.alarms
  {
    && k < r.nextAlarm
    && match r.alarms[k].callback
       case Elapse => r.emptyTimer == Some(k)
       case Expire(i) => r.phase != Closed ==> i in r.users && r.users[i].timer == Some(k)
  }

  /**
   Whoever has a socket is CONNECTED, through the one bound last. In a joinable room CONNECTED
   users have one, and the others have a removal pending; a cleanup takes sockets away.
   */
  predicate UserOk(c: Limits, r: Room, i: Id)
    requires i in r.users
  {
    var u := r.users[i];
    && (u.conn.Some? ==> u.connected && u.conn == Some(u.bound))
    && (u.connected ==> u.timer == None)
    && (Joinable(r) ==> (u.connected <==> u.conn.Some?) && (!u.connected ==> u.timer.Some?))
    && (u.timer.Some? ==>
          u.timer.value in r.alarms && r.alarms[u.timer.value] == Alarm(u.since + c.userGraceMs, Expire(i)))
  }

  /** EMPTY_GRACE iff the empty-grace timer is pending; then nobody is connected. */
  predicate GraceOk(r: Room) {
    && (r.phase == EmptyGrace <==> r.emptyTimer.Some?)
    && (r.emptyTimer.Some? ==> r.emptyTimer.value in r.alarms && r.alarms[r.emptyTimer.value].callback == Elapse)
    && (r.phase == EmptyGrace ==> Connected(r) == {})
    && (r.joinSeq == 0 ==> r.users == map[])
  }

  /** An active room that was ever joined has somebody connected. */
  predicate Attended(r: Room) { r.phase == Active ==> r.joinSeq == 0 || Connected(r) != {} }

  predicate RoomOk(c: Limits, r: Room) {
    && (forall k | k in r.alarms :: AlarmOk(r, k))
    && (forall i | i in r.users :: UserOk(c, r, i))
    && GraceOk(r) && Attended(r)
  }

  /** The same without what `_maybe_start_empty_grace` restores. */
  predicate Unsettled(c: Limits, r: Room) {
    && (forall k | k in r.alarms :: AlarmOk(r, k))
    && (forall i | i in r.users :: UserOk(c, r, i))
    && GraceOk(r)
  }

  lemma MaybeStartOk(c: Limits, r: Room, now: nat)
    requires Unsettled(c, r)
    ensures RoomOk(c, MaybeStartEmptyGrace(c, r, now))
    ensures RoomOk(c, r) && r.joinSeq > 0 ==> MaybeStartEmptyGrace(c, r, now) == r
  {
    var w := MaybeStartEmptyGrace(c, r, now);
    assert forall i | i in r.users && r.users[i].connected :: i in Connected(r);
    forall k | k in w.alarms ensures AlarmOk(w, k) { assert k in r.alarms ==> AlarmOk(r, k); }
    forall i | i in w.users ensures UserOk(c, w, i) { assert UserOk(c, r, i); }
    assert Connected(w) == Connected(r);
  }

  lemma CancelEmptyGraceOk(c: Limits, r: Room)
    requires RoomOk(c, r) && Joinable(r)
    ensures var q := CancelEmptyGrace(r).(phase := Active);
            && (forall k | k in q.alarms :: AlarmOk(q, k) && q.alarms[k].callback.Expire?)
            && (forall i | i in q.users :: UserOk(c, q, i))
  {
    var q := CancelEmptyGrace(r).(phase := Active);
    forall k | k in q.alarms ensures AlarmOk(q, k) && q.alarms[k].callback.Expire? { assert AlarmOk(r, k); }
    forall i | i in q.users ensures UserOk(c, q, i) { assert UserOk(c, r, i); }
  }

  lemma RebindOk(c: Limits, r: Room, i: Id, conn: Id)
    requires RoomOk(c, r) && Joinable(r) && i in r.users
    ensures RoomOk(c, Rebind(r, i, conn))
  {
    var w, q := Rebind(r, i, conn), CancelEmptyGrace(r).(phase := Active);
    CancelEmptyGraceOk(c, r);
    assert i in Connected(w);
    assert UserOk(c, q, i);
    forall k | k in w.alarms ensures AlarmOk(w, k) { assert AlarmOk(q, k); }
    forall j | j in w.users ensures UserOk(c, w, j) { assert UserOk(c, q, j); }
  }

  lemma AdmitOk(c: Limits, r: Room, i: Id, token: Id, conn: Id)
    requires RoomOk(c, r) && Joinable(r) && i !in r.users
    ensures RoomOk(c, Admit(r, i, token, conn))
  {
    var w, q := Admit(r, i, token, conn), CancelEmptyGrace(r).(phase := Active);
    CancelEmptyGraceOk(c, r);
    assert i in Connected(w);
    forall k | k in w.alarms ensures AlarmOk(w, k) { assert AlarmOk(q, k); }
    forall j | j in w.users ensures UserOk(c, w, j) { assert j != i ==> UserOk(c, q, j); }
  }

  /** With room for at least one user, a join is refused for want of room only when nothing changes. */
  lemma FullOk(c: Limits, r: Room, found: Option<Id>)
    requires RoomOk(c, r) && c.maxUsers >= 1 && Answer(c, r, found) == Full
    ensures r.phase == Active && CancelEmptyGrace(r) == r
  {
  }

  lemma JoinOk(c: Limits, r: Room, conn: Id, found: Option<Id>, i: Id, token: Id)
    requires RoomOk(c, r) && c.maxUsers >= 1 && i !in r.users && (found.Some? ==> found.value in r.users)
    ensures RoomOk(c, Join(c, r, conn, found, i, token))
  {
    match Answer(c, r, found)
    case NotJoinable =>
    case Resumed(u) => RebindOk(c, r, u, conn);
    case Full => FullOk(c, r, found);
    case Admitted => AdmitOk(c, r, i, token, conn);
  }

  lemma MarkDisconnectedOk(c: Limits, r: Room, i: Id, conn: Id, now: nat)
    requires RoomOk(c, r) && r.phase != Closed
    ensures RoomOk(c, MarkDisconnected(c, r, i, conn, now))
  {
    if i in r.users && !Superseded(r.users[i], conn) {
      DetachUnsettled(c, r, i, now);
      MaybeStartOk(c, Detach(c, r, i, now), now);
    }
  }

  lemma DetachUnsettled(c: Limits, r: Room, i: Id, now: nat)
    requires RoomOk(c, r) && r.phase != Closed && i in r.users
    ensures Unsettled(c, Detach(c, r, i, now))
  {
    var q := Detach(c, r, i, now);
    assert UserOk(c, r, i);
    forall k | k in q.alarms ensures AlarmOk(q, k) { assert k in r.alarms ==> AlarmOk(r, k); }
    forall j | j in q.users ensures UserOk(c, q, j) { assert UserOk(c, r, j); }
    assert Connected(q) <= Connected(r);
  }

  lemma PopUnsettled(c: Limits, r: Room, i: Id)
    requires RoomOk(c, r)
    ensures Unsettled(c, Pop(if i in r.users then Cancel(r, r.users[i].timer) else r, i))
  {
    var q := Pop(if i in r.users then Cancel(r, r.users[i].timer) else r, i);
    if i in r.users { assert UserOk(c, r, i); }
    forall k | k in q.alarms ensures AlarmOk(q, k) { assert AlarmOk(r, k); }
    forall j | j in q.users ensures UserOk(c, q, j) { assert UserOk(c, r, j); }
    assert Connected(q) <= Connected(r);
  }

  lemma RemoveUserOk(c: Limits, r: Room, i: Id, now: nat)
    requires RoomOk(c, r)
    ensures RoomOk(c, RemoveUser(c, r, i, now))
  {
    PopUnsettled(c, r, i);
    MaybeStartOk(c, Pop(if i in r.users then Cancel(r, r.users[i].timer) else r, i), now);
  }

  lemma ElapseOk(c: Limits, r: Room, k: Id)
    requires RoomOk(c, r) && k in r.alarms && r.alarms[k].callback == Elapse
    ensures r.phase == EmptyGrace && r.emptyTimer == Some(k)
    ensures RoomOk(c, OnEmptyGraceElapsed(r.(alarms := r.alarms - {k})))
  {
    var w := OnEmptyGraceElapsed(r.(alarms := r.alarms - {k}));
    assert AlarmOk(r, k);
    forall j | j in w.alarms ensures AlarmOk(w, j) { assert AlarmOk(r, j); }
    forall i | i in w.users ensures UserOk(c, w, i) { assert UserOk(c, r, i); }
  }

  /** A removal timer that fires finds its user disconnected: `_remove` never backs out. */
  lemma ExpireOk(c: Limits, r: Room, k: Id, i: Id)
    requires RoomOk(c, r) && r.phase != Closed && k in r.alarms && r.alarms[k].callback == Expire(i)
    ensures Expires(r, i) && RoomOk(c, Pop(r.(alarms := r.alarms - {k}), i))
    ensures r.alarms[k].due == r.users[i].since + c.userGraceMs && r.joinSeq > 0
  {
    var w := Pop(r.(alarms := r.alarms - {k}), i);
    assert AlarmOk(r, k) && UserOk(c, r, i);
    forall j | j in w.alarms ensures AlarmOk(w, j) { assert AlarmOk(r, j); }
    forall j | j in w.users ensures UserOk(c, w, j) { assert UserOk(c, r, j); }
    assert Connected(w) == Connected(r);
  }

  lemma CancelAllTimersOk(c: Limits, r: Room, phase: Phase)
    requires RoomOk(c, r) && r.phase != Closed && phase == Closing
    ensures RoomOk(c, CancelAllTimers(r).(phase := phase)) && CancelAllTimers(r).alarms == map[]
  {
    var w := CancelAllTimers(r).(phase := phase);
    assert forall k | k in r.alarms :: AlarmOk(r, k);
    assert w.alarms == map[];
    forall i | i in w.users ensures UserOk(c, w, i) { assert UserOk(c, r, i); }
  }

  // ------------------------------------------------------------------
  // The world
  // ------------------------------------------------------------------

  function Everyone(w: World): set<Id> { w.room.users.Keys + w.departed.Keys }

  /** Users past and present: as many as were ever admitted, with different client ids and tokens. */
  ghost predicate PeopleOk(w: World) {
    && w.room.users.Keys !! w.departed.Keys
    && |Everyone(w)| == w.room.joinSeq
    && (forall i | Known(w, i) :: 1 <= Person(w, i).clientId <= w.room.joinSeq)
    && Distinct(w)
  }

  ghost predicate Distinct(w: World) {
    forall i, j | Known(w, i) && Known(w, j) && i != j ::
      Person(w, i).clientId != Person(w, j).clientId && Person(w, i).token != Person(w, j).token
  }

  /** A socket in use is open; in a joinable room a user is CONNECTED iff the socket bound last is. */
  ghost predicate SocketsOk(w: World) {
    && (forall k | k in w.sessions :: Known(w, w.sessions[k].user))
    && (forall i | i in w.room.users ::
          && w.room.users[i].bound in w.sessions && w.sessions[w.room.users[i].bound].user == i
          && (w.room.users[i].conn.Some? ==> !w.sessions[w.room.users[i].bound].left)
          && (Joinable(w.room) ==> (w.room.users[i].connected <==> !w.sessions[w.room.users[i].bound].left)))
  }

  /** Nobody was taken out by a timer before the reconnect grace had passed since their last close. */
  predicate PartingsOk(c: Limits, w: World) {
    && (forall i | i in w.departed && w.departed[i].how.Swept? :: w.room.phase == Closed)
    && (forall i | i in w.room.users :: w.room.users[i].since <= w.now)
    && (forall i | i in w.departed && w.departed[i].how.Expired? ::
          !w.departed[i].user.connected && w.departed[i].user.since + c.userGraceMs <= w.departed[i].how.at)
  }

  ghost predicate Good(c: Limits, w: World) {
    RoomOk(c, w.room) && PeopleOk(w) && SocketsOk(w) && PartingsOk(c, w)
    && (w.room.phase == Closed ==> w.room.users == map[])
    && (w.settling > 0 ==> w.room.joinSeq > 0)
  }

  /** The same users with the same identities. */
  ghost predicate SameIds(a: map<Id, User>, b: map<Id, User>) {
    && b.Keys == a.Keys
    && (forall i | i in a :: b[i].clientId == a[i].clientId && b[i].token == a[i].token)
  }

  /** Nobody came and identities are as they were; some may have left. */
  ghost predicate SamePeople(w: World, v: World) {
    && v.room.joinSeq == w.room.joinSeq && Everyone(v) == Everyone(w)
    && v.room.users.Keys !! v.departed.Keys
    && (forall i | Known(w, i) ::
          Known(v, i) && Person(v, i).clientId == Person(w, i).clientId && Person(v, i).token == Person(w, i).token)
  }

  lemma SamePeopleOk(w: World, v: World)
    requires PeopleOk(w) && SamePeople(w, v)
    ensures PeopleOk(v)
  {
    assert forall i :: Known(v, i) <==> i in Everyone(v);
    assert forall i :: Known(w, i) <==> i in Everyone(w);
  }

  lemma PeopleKept(w: World, v: World)
    requires PeopleOk(w) && SameIds(w.room.users, v.room.users)
    requires v.departed == w.departed && v.room.joinSeq == w.room.joinSeq
    ensures PeopleOk(v)
  {
    SamePeopleOk(w, v);
  }

  lemma DepartEffect(w: World, gone: set<Id>, how: Parting)
    requires w.room.users.Keys !! w.departed.Keys
    ensures var d := Depart(w, gone, how).departed;
            && d.Keys == w.departed.Keys + (gone * w.room.users.Keys)
            && (forall i | i in w.departed :: d[i] == w.departed[i])
            && (forall i | i in gone && i in w.room.users :: d[i] == Departed(w.room.users[i], how))
  {
  }

  lemma Disjoint(w: World)
    requires PeopleOk(w)
    ensures w.room.users.Keys !! w.departed.Keys
  {
  }

  lemma DepartSame(w: World, v: World, gone: set<Id>, how: Parting)
    requires v.room == w.room && v.departed == w.departed
    ensures Depart(v, gone, how).departed == Depart(w, gone, how).departed
  {
  }

  /** Some of the users go. */
  lemma Going(w: World, gone: set<Id>, how: Parting, v: World)
    requires w.room.users.Keys !! w.departed.Keys
    requires v.room.users == w.room.users - gone && v.room.joinSeq == w.room.joinSeq
    requires v.departed == Depart(w, gone, how).departed
    ensures SamePeople(w, v)
  {
    hide Depart;
    DepartEffect(w, gone, how);
    forall i ensures i in v.room.users <==> i in w.room.users && i !in gone {}
    forall i ensures i in v.departed <==> i in w.departed || (i in gone && i in w.room.users) {}
    assert forall i | Known(w, i) :: Known(v, i) && Person(v, i) == Person(w, i);
    assert Everyone(v) == Everyone(w);
  }

  lemma PeopleGo(w: World, gone: set<Id>, how: Parting, v: World)
    requires PeopleOk(w) && v.room.users == w.room.users - gone && v.room.joinSeq == w.room.joinSeq
    requires v.departed == Depart(w, gone, how).departed
    ensures PeopleOk(v)
  {
    hide Depart, SamePeople;
    Going(w, gone, how, v);
    SamePeopleOk(w, v);
  }

  // Joining

  lemma PeopleGrow(w: World, v: World, i: Id, u: User)
    requires PeopleOk(w) && !Known(w, i) && v.departed == w.departed
    requires v.room.users == w.room.users[i := u] && v.room.joinSeq == w.room.joinSeq + 1
    requires u.clientId == v.room.joinSeq && forall j | Known(w, j) :: Person(w, j).token != u.token
    ensures PeopleOk(v)
  {
    hide Distinct;
    GrowEveryone(w, v, i, u); GrowPersons(w, v, i, u);
    GrowDistinct(w, v, i, u);
  }

  lemma GrowEveryone(w: World, v: World, i: Id, u: User)
    requires !Known(w, i) && v.departed == w.departed && v.room.users == w.room.users[i := u]
    ensures Everyone(v) == Everyone(w) + {i} && |Everyone(v)| == |Everyone(w)| + 1
  {
    assert i !in Everyone(w);
  }

  lemma GrowPersons(w: World, v: World, i: Id, u: User)
    requires !Known(w, i) && v.departed == w.departed && v.room.users == w.room.users[i := u]
    ensures w.room.users.Keys !! w.departed.Keys ==> v.room.users.Keys !! v.departed.Keys
    ensures forall a | Known(v, a) && a != i :: Known(w, a) && Person(v, a) == Person(w, a)
  {
  }

  lemma GrowDistinct(w: World, v: World, i: Id, u: User)
    requires Distinct(w) && !Known(w, i) && v.departed == w.departed && v.room.users == w.room.users[i := u]
    requires forall j | Known(w, j) :: Person(w, j).token != u.token && Person(w, j).clientId < u.clientId
    ensures Distinct(v)
  {
    assert forall a | Known(v, a) && a != i :: Known(w, a) && Person(v, a) == Person(w, a);
  }

  lemma AdmittedPeople(c: Limits, w: World, e: Event)
    requires PeopleOk(w) && e.JoinBy? && May(w, e) && Answer(c, w.room, e.found) == Admitted
    ensures PeopleOk(JoinStep(c, w, e))
  {
    hide PeopleOk;
    PeopleGrow(w, JoinStep(c, w, e), e.user, JoinStep(c, w, e).room.users[e.user]);
  }

  lemma AdmittedSockets(c: Limits, w: World, e: Event)
    requires SocketsOk(w) && e.JoinBy? && May(w, e) && Answer(c, w.room, e.found) == Admitted
    ensures SocketsOk(JoinStep(c, w, e))
  {
    var v := JoinStep(c, w, e);
    assert v.room.users == w.room.users[e.user := v.room.users[e.user]];
  }

  lemma ResumedSockets(c: Limits, w: World, e: Event)
    requires SocketsOk(w) && e.JoinBy? && May(w, e) && Answer(c, w.room, e.found).Resumed?
    ensures SocketsOk(JoinStep(c, w, e)) && SameIds(w.room.users, JoinStep(c, w, e).room.users)
  {
    var v, i := JoinStep(c, w, e), e.found.value;
    assert v.room.users == w.room.users[i := v.room.users[i]];
  }

  lemma JoinedPartings(c: Limits, w: World, e: Event)
    requires PartingsOk(c, w) && e.JoinBy? && May(w, e)
    ensures PartingsOk(c, JoinStep(c, w, e))
  {
  }

  lemma JoinStepOk(c: Limits, w: World, e: Event)
    requires Good(c, w) && c.maxUsers >= 1 && e.JoinBy? && May(w, e)
    ensures Good(c, JoinStep(c, w, e))
  {
    hide RoomOk, PeopleOk, SocketsOk, PartingsOk;
    if Answer(c, w.room, e.found) == Full { FullOk(c, w.room, e.found); assert JoinStep(c, w, e) == w; }
    else if Answer(c, w.room, e.found) == NotJoinable { assert JoinStep(c, w, e) == w; }
    else {
      JoinOk(c, w.room, e.conn, e.found, e.user, e.newToken);
      JoinedPartings(c, w, e);
      if Answer(c, w.room, e.found) == Admitted { AdmittedPeople(c, w, e); AdmittedSockets(c, w, e); }
      else { ResumedSockets(c, w, e); PeopleKept(w, JoinStep(c, w, e)); }
    }
  }

  // A socket that is lost

  /** What the others see of `mark_disconnected`. */
  lemma MarkEffect(c: Limits, r: Room, i: Id, conn: Id, now: nat)
    ensures var q := MarkDisconnected(c, r, i, conn, now);
            && q.joinSeq == r.joinSeq && SameIds(r.users, q.users)
            && (q.phase == Closed <==> r.phase == Closed) && (Joinable(q) <==> Joinable(r))
            && (forall j | j in r.users && j != i :: q.users[j] == r.users[j])
            && (i in r.users ==> q.users[i].bound == r.users[i].bound)
            && (i in r.users && Superseded(r.users[i], conn) ==> q == r)
            && (i in r.users && !Superseded(r.users[i], conn) ==>
                  !q.users[i].connected && q.users[i].conn == None && q.users[i].since == now)
  {
  }

  lemma LostSockets(c: Limits, w: World, conn: Id)
    requires RoomOk(c, w.room) && SocketsOk(w) && May(w, SocketLost(conn))
    ensures SocketsOk(LeaveStep(c, w, conn, false))
  {
    hide RoomOk, MarkDisconnected;
    var v, i := LeaveStep(c, w, conn, false), w.sessions[conn].user;
    BoundIsConn(c, w.room);
    MarkEffect(c, w.room, i, conn, w.now);
    assert v.departed == w.departed;
  }

  lemma LostPartings(c: Limits, w: World, conn: Id)
    requires PartingsOk(c, w) && May(w, SocketLost(conn))
    ensures PartingsOk(c, LeaveStep(c, w, conn, false))
  {
    hide MarkDisconnected;
    MarkEffect(c, w.room, w.sessions[conn].user, conn, w.now);
  }

  lemma LostStepOk(c: Limits, w: World, conn: Id)
    requires Good(c, w) && May(w, SocketLost(conn))
    ensures Good(c, LeaveStep(c, w, conn, false))
  {
    hide RoomOk, PeopleOk, SocketsOk, PartingsOk, MarkDisconnected, SameIds;
    LostSockets(c, w, conn);
    LostPartings(c, w, conn);
    if !w.sessions[conn].left {
      MarkEffect(c, w.room, w.sessions[conn].user, conn, w.now);
      PeopleKept(w, LeaveStep(c, w, conn, false));
      if w.room.phase != Closed { MarkDisconnectedOk(c, w.room, w.sessions[conn].user, conn, w.now); }
      else { NobodyToMark(c, w.room, w.sessions[conn].user, conn, w.now); }
    }
  }

  lemma NobodyToMark(c: Limits, r: Room, i: Id, conn: Id, now: nat)
    requires r.users == map[]
    ensures MarkDisconnected(c, r, i, conn, now) == r
  {
  }

  lemma BoundIsConn(c: Limits, r: Room)
    requires RoomOk(c, r)
    ensures forall i | i in r.users ::
              && (r.users[i].conn.Some? ==> r.users[i].connected && r.users[i].conn == Some(r.users[i].bound))
              && (Joinable(r) ==> (r.users[i].connected <==> r.users[i].conn.Some?))
  {
    assert forall i | i in r.users :: UserOk(c, r, i);
  }

  // Leaving

  lemma RemoveEffect(c: Limits, r: Room, i: Id, now: nat)
    ensures var q := RemoveUser(c, r, i, now);
            && q.joinSeq == r.joinSeq && q.users == r.users - {i} && (q.phase == Closed <==> r.phase == Closed)
            && (Joinable(q) <==> Joinable(r))
  {
  }

  lemma GoneSockets(w: World, v: World, gone: set<Id>, how: Parting)
    requires SocketsOk(w) && v.room.users == w.room.users - gone && v.departed == Depart(w, gone, how).departed
    requires v.sessions.Keys == w.sessions.Keys && (Joinable(v.room) ==> Joinable(w.room))
    requires forall k | k in w.sessions :: v.sessions[k].user == w.sessions[k].user
    requires forall k | k in w.sessions && w.sessions[k].user !in gone :: v.sessions[k] == w.sessions[k]
    ensures SocketsOk(v)
  {
    forall k | k in v.sessions ensures Known(v, v.sessions[k].user) {
      assert Known(w, w.sessions[k].user);
    }
  }

  lemma GonePartings(c: Limits, w: World, v: World, gone: set<Id>, how: Parting)
    requires PartingsOk(c, w) && v.room.users == w.room.users - gone && v.departed == Depart(w, gone, how).departed
    requires v.now == w.now && (w.room.phase == Closed || how.Swept? ==> v.room.phase == Closed)
    requires how.Expired? ==> how.at == w.now && forall i | i in gone && i in w.room.users ::
               !w.room.users[i].connected && w.room.users[i].since + c.userGraceMs <= w.now
    ensures PartingsOk(c, v)
  {
  }

  lemma LeftSockets(w: World, conn: Id)
    requires SocketsOk(w) && conn in w.sessions && Superseded(Person(w, w.sessions[conn].user), conn)
    requires forall i | i in w.room.users ::
               w.room.users[i].conn.Some? ==> w.room.users[i].conn.value == w.room.users[i].bound
    ensures SocketsOk(MarkLeft(w, conn))
  {
    var v := MarkLeft(w, conn);
    assert v.departed == w.departed && v.room == w.room;
    forall i | i in v.room.users ensures v.room.users[i].bound != conn {
      assert w.sessions[w.room.users[i].bound].user == i;
    }
  }

  lemma LeaveStepOk(c: Limits, w: World, conn: Id)
    requires Good(c, w) && May(w, LeaveBy(conn))
    ensures Good(c, LeaveStep(c, w, conn, true))
  {
    hide RoomOk, PeopleOk, SocketsOk, PartingsOk, RemoveUser, SameIds;
    var v, i := LeaveStep(c, w, conn, true), w.sessions[conn].user;
    if w.sessions[conn].left {
    } else if Superseded(Person(w, i), conn) {
      BoundIsConn(c, w.room);
      LeftSockets(w, conn);
      PeopleSame(w, v);
      PartingsSame(c, w, v);
    } else {
      RemoveEffect(c, w.room, i, w.now); RemoveUserOk(c, w.room, i, w.now);
      GoneSockets(w, v, {i}, Left); GonePartings(c, w, v, {i}, Left);
      PeopleGo(w, {i}, Left, v);
    }
  }

  lemma PeopleSame(w: World, v: World)
    requires PeopleOk(w) && v.room == w.room && v.departed == w.departed
    ensures PeopleOk(v)
  {
    SamePeopleOk(w, v);
  }

  lemma PartingsSame(c: Limits, w: World, v: World)
    requires PartingsOk(c, w) && v.room.users == w.room.users && v.departed == w.departed && w.now <= v.now
    requires w.room.phase == Closed ==> v.room.phase == Closed
    ensures PartingsOk(c, v)
  {
  }

  lemma SocketsSame(w: World, v: World)
    requires SocketsOk(w) && v.departed == w.departed && v.sessions == w.sessions
    requires v.room.users.Keys == w.room.users.Keys
    requires forall i | i in w.room.users ::
      && v.room.users[i].bound == w.room.users[i].bound && v.room.users[i].connected == w.room.users[i].connected
      && (v.room.users[i].conn.Some? ==> w.room.users[i].conn.Some?)
    requires Joinable(v.room) ==> Joinable(w.room)
    ensures SocketsOk(v)
  {
    assert forall i :: Known(v, i) <==> Known(w, i);
  }

  // Timers

  lemma FireStepOk(c: Limits, w: World, k: Id)
    requires Good(c, w) && May(w, Fire(k))
    ensures Good(c, FireStep(c, w, k))
  {
    hide RoomOk, PeopleOk, SocketsOk, PartingsOk;
    var v, r := FireStep(c, w, k), w.room.(alarms := w.room.alarms - {k});
    match w.room.alarms[k].callback
    case Elapse =>
      ElapseOk(c, w.room, k);
      SocketsSame(w, v); PartingsSame(c, w, v); PeopleKept(w, v);
    case Expire(i) =>
      if w.room.phase == Closed {
        ClosedAlarm(c, w.room, k);
        SocketsSame(w, v); PartingsSame(c, w, v); PeopleKept(w, v);
      } else {
        ExpireOk(c, w.room, k, i);
        GoneSockets(w, v, {i}, Expired(w.now)); GonePartings(c, w, v, {i}, Expired(w.now));
        PeopleGo(w, {i}, Expired(w.now), v);
      }
  }

  lemma ClosedAlarm(c: Limits, r: Room, k: Id)
    requires RoomOk(c, r) && r.phase == Closed && r.users == map[] && k in r.alarms && r.alarms[k].callback.Expire?
    ensures RoomOk(c, r.(alarms := r.alarms - {k}))
  {
    var q := r.(alarms := r.alarms - {k});
    forall j | j in q.alarms ensures AlarmOk(q, j) { assert AlarmOk(r, j); }
  }

  lemma SettleStepOk(c: Limits, w: World)
    requires Good(c, w) && May(w, Settle)
    ensures Good(c, Step(c, w, Settle)) && Step(c, w, Settle).room == w.room
  {
    hide PeopleOk, SocketsOk, PartingsOk, MaybeStartEmptyGrace, AlarmOk, UserOk;
    assert Unsettled(c, w.room);
    MaybeStartOk(c, w.room, w.now);
    var v := Step(c, w, Settle);
    SocketsSame(w, v); PartingsSame(c, w, v); PeopleSame(w, v);
  }

  // Closing

  lemma CancelStepOk(c: Limits, w: World, e: Event)
    requires Good(c, w) && May(w, e) && (e.ForceClose? || e.CancelTimers?)
    ensures Good(c, Step(c, w, e))
  {
    hide RoomOk, PeopleOk, SocketsOk, PartingsOk;
    var v := Step(c, w, e);
    CancelAllTimersOk(c, w.room, Closing);
    SocketsSame(w, v); PartingsCancelled(c, w, v); PeopleKept(w, v);
  }

  lemma CloseSocketOk(c: Limits, w: World, i: Id)
    requires Good(c, w) && May(w, CloseSocket(i))
    ensures Good(c, Step(c, w, CloseSocket(i)))
  {
    hide RoomOk, PeopleOk, SocketsOk, PartingsOk;
    var v := Step(c, w, CloseSocket(i));
    DisownOk(c, w.room, i);
    SocketsSame(w, v); PartingsDisowned(c, w, v, i); PeopleKept(w, v);
  }

  lemma DisownOk(c: Limits, r: Room, i: Id)
    requires RoomOk(c, r) && r.phase == Closing && i in r.users
    ensures RoomOk(c, Disown(r, i))
  {
    var q := Disown(r, i);
    forall k | k in q.alarms ensures AlarmOk(q, k) { assert AlarmOk(r, k); }
    forall j | j in q.users ensures UserOk(c, q, j) { assert UserOk(c, r, j); }
    assert Connected(q) == Connected(r);
  }

  lemma PartingsDisowned(c: Limits, w: World, v: World, i: Id)
    requires PartingsOk(c, w) && i in w.room.users && v == w.(room := Disown(w.room, i))
    ensures PartingsOk(c, v)
  {
  }

  lemma PartingsCancelled(c: Limits, w: World, v: World)
    requires PartingsOk(c, w) && v.departed == w.departed && v.now == w.now && w.room.phase != Closed
    requires v.room.users == CancelAllTimers(w.room).users
    ensures PartingsOk(c, v)
  {
  }

  lemma CleanUpOk(c: Limits, w: World)
    requires Good(c, w) && May(w, CleanUp)
    ensures Good(c, Step(c, w, CleanUp))
  {
    hide RoomOk, PeopleOk, SocketsOk, PartingsOk;
    var v, all := Step(c, w, CleanUp), w.room.users.Keys;
    assert w.room.users - all == map[];
    GoneSockets(w, v, all, Swept); GonePartings(c, w, v, all, Swept);
    PeopleGo(w, all, Swept, v);
    SweptRoom(c, w.room);
  }

  lemma SweptRoom(c: Limits, r: Room)
    requires RoomOk(c, r) && r.phase == Closing
    ensures RoomOk(c, r.(users := map[], phase := Closed, shelf := EMPTY_SHELF))
  {
    var q := r.(users := map[], phase := Closed, shelf := EMPTY_SHELF);
    forall k | k in q.alarms ensures AlarmOk(q, k) { assert AlarmOk(r, k); }
  }

  // ------------------------------------------------------------------
  // Runs
  // ------------------------------------------------------------------

  lemma StepOk(c: Limits, w: World, e: Event)
    requires Good(c, w) && c.maxUsers >= 1 && May(w, e)
    ensures Good(c, Step(c, w, e))
  {
    hide Good, RoomOk, PeopleOk, SocketsOk, PartingsOk, JoinStep, LeaveStep, FireStep;
    match e
    case Tick(dt) => TickOk(c, w, dt);
    case JoinBy(_, _, _, _, _) => JoinStepOk(c, w, e);
    case SocketLost(conn) => LostStepOk(c, w, conn);
    case LeaveBy(conn) => LeaveStepOk(c, w, conn);
    case Fire(k) => FireStepOk(c, w, k);
    case Settle => SettleStepOk(c, w);
    case Store(shelf) => StoreOk(c, w, shelf);
    case ForceClose => CancelStepOk(c, w, e);
    case CancelTimers => CancelStepOk(c, w, e);
    case CloseSocket(i) => CloseSocketOk(c, w, i);
    case CleanUp => CleanUpOk(c, w);
  }

  lemma StoreOk(c: Limits, w: World, shelf: Shelf)
    requires Good(c, w)
    ensures Good(c, w.(room := w.room.(shelf := shelf)))
  {
    hide PeopleOk, SocketsOk, PartingsOk;
    var v := w.(room := w.room.(shelf := shelf));
    forall k | k in v.room.alarms ensures AlarmOk(v.room, k) { assert AlarmOk(w.room, k); }
    forall i | i in v.room.users ensures UserOk(c, v.room, i) { assert UserOk(c, w.room, i); }
    assert Connected(v.room) == Connected(w.room);
    SocketsSame(w, v); PartingsSame(c, w, v); PeopleKept(w, v);
  }

  lemma TickOk(c: Limits, w: World, dt: nat)
    requires Good(c, w)
    ensures Good(c, w.(now := w.now + dt))
  {
    hide RoomOk, PeopleOk, SocketsOk, PartingsOk;
    var v := w.(now := w.now + dt);
    SocketsSame(w, v); PartingsSame(c, w, v); PeopleSame(w, v);
  }

  lemma {:induction false} RunOk(c: Limits, w: World, es: seq<Event>)
    requires Good(c, w) && c.maxUsers >= 1 && Legal(c, w, es)
    ensures Good(c, After(c, w, es))
    decreases |es|
  {
    hide Good, Step, May;
    if es == [] {
    } else {
      StepOk(c, w, es[0]);
      RunOk(c, Step(c, w, es[0]), es[1..]);
    }
  }

  lemma Reaches(c: Limits, w: World, es: seq<Event>)
    requires w == START && c.maxUsers >= 1 && Legal(c, w, es)
    ensures Good(c, After(c, w, es))
  {
    RunOk(c, w, es);
  }

  // ------------------------------------------------------------------
  // Results: phases and timers
  // ------------------------------------------------------------------

  /** What is true of a room that can be joined, in every run. */
  lemma JoinableInvariant(c: Limits, w: World, es: seq<Event>)
    requires w == START && c.maxUsers >= 1 && Legal(c, w, es) && Joinable(After(c, w, es).room)
    ensures var r := After(c, w, es).room;
            && (r.phase == EmptyGrace <==> exists k :: k in r.alarms && r.alarms[k].callback == Elapse)
            && (r.phase == EmptyGrace ==> Connected(r) == {})
            && (r.phase == Active ==> (r.joinSeq > 0 <==> Connected(r) != {}))
            && (forall i | i in r.users ::
                  && (r.users[i].connected <==> r.users[i].conn.Some?)
                  && (!r.users[i].connected <==> exists k :: k in r.alarms && r.alarms[k].callback == Expire(i)))
  {
    hide Good;
    Reaches(c, w, es);
    RoomIsOk(c, After(c, w, es));
    RoomMeans(c, After(c, w, es).room);
  }

  lemma RoomIsOk(c: Limits, w: World)
    requires Good(c, w)
    ensures RoomOk(c, w.room)
  {
  }

  lemma RoomMeans(c: Limits, r: Room)
    requires RoomOk(c, r) && Joinable(r)
    ensures r.phase == EmptyGrace <==> exists k :: k in r.alarms && r.alarms[k].callback == Elapse
    ensures r.phase == EmptyGrace ==> Connected(r) == {}
    ensures r.phase == Active ==> (r.joinSeq > 0 <==> Connected(r) != {})
    ensures forall i | i in r.users ::
              && (r.users[i].connected <==> r.users[i].conn.Some?)
              && (!r.users[i].connected <==> exists k :: k in r.alarms && r.alarms[k].callback == Expire(i))
  {
    assert forall k | k in r.alarms :: AlarmOk(r, k);
    assert forall i | i in r.users :: UserOk(c, r, i);
  }

  /** A join that is refused for want of room changes nothing; it never happens in EMPTY_GRACE. */
  lemma RefusalChangesNothing(c: Limits, w: World, es: seq<Event>, e: Event)
    requires w == START && c.maxUsers >= 1 && Legal(c, w, es)
    requires e.JoinBy? && May(After(c, w, es), e) && Answer(c, After(c, w, es).room, e.found) == Full
    ensures Step(c, After(c, w, es), e) == After(c, w, es) && After(c, w, es).room.phase == Active
  {
    hide Good;
    Reaches(c, w, es);
    RoomIsOk(c, After(c, w, es));
    FullOk(c, After(c, w, es).room, e.found);
  }

  // The full grace window

  /** Any pending empty-grace timer was armed at t0 or later. */
  predicate ArmedSince(c: Limits, w: World, t0: nat) {
    && t0 <= w.now
    && (forall k | k in w.room.alarms && w.room.alarms[k].callback == Elapse ::
          t0 + c.emptyGraceMs <= w.room.alarms[k].due)
  }

  lemma ArmedStep(c: Limits, w: World, e: Event, t0: nat)
    requires ArmedSince(c, w, t0) && May(w, e)
    ensures ArmedSince(c, Step(c, w, e), t0)
  {
    hide JoinStep, LeaveStep, FireStep;
    match e
    case JoinBy(_, _, _, _, _) => ArmedJoin(c, w, e, t0);
    case SocketLost(conn) => ArmedLeave(c, w, conn, false, t0);
    case LeaveBy(conn) => ArmedLeave(c, w, conn, true, t0);
    case Fire(k) => ArmedFire(c, w, k, t0);
    case _ =>
  }

  lemma ArmedJoin(c: Limits, w: World, e: Event, t0: nat)
    requires ArmedSince(c, w, t0) && May(w, e) && e.JoinBy?
    ensures ArmedSince(c, JoinStep(c, w, e), t0)
  {
  }

  lemma ArmedLeave(c: Limits, w: World, conn: Id, explicit: bool, t0: nat)
    requires ArmedSince(c, w, t0) && conn in w.sessions && Known(w, w.sessions[conn].user)
    ensures ArmedSince(c, LeaveStep(c, w, conn, explicit), t0)
  {
  }

  lemma ArmedFire(c: Limits, w: World, k: Id, t0: nat)
    requires ArmedSince(c, w, t0) && k in w.room.alarms
    ensures ArmedSince(c, FireStep(c, w, k), t0)
  {
  }

  lemma {:induction false} ArmedRun(c: Limits, w: World, es: seq<Event>, t0: nat)
    requires ArmedSince(c, w, t0) && Legal(c, w, es)
    ensures ArmedSince(c, After(c, w, es), t0)
    decreases |es|
  {
    hide ArmedSince, Step, May;
    if es == [] {
    } else {
      ArmedStep(c, w, es[0], t0);
      ArmedRun(c, Step(c, w, es[0]), es[1..], t0);
    }
  }

  /**
   If a timer closes the room, nobody was connected at any earlier moment of the run that lies
   within the grace window, however many joins and lost sockets there were.
   */
  lemma FullGrace(c: Limits, w: World, es: seq<Event>, fs: seq<Event>, k: Id)
    requires w == START && c.maxUsers >= 1 && Legal(c, w, es) && Legal(c, After(c, w, es), fs)
    requires Connected(After(c, w, es).room) != {}
    requires May(After(c, After(c, w, es), fs), Fire(k))
    requires After(c, After(c, w, es), fs).room.phase != Closing
    requires Step(c, After(c, After(c, w, es), fs), Fire(k)).room.phase == Closing
    ensures After(c, w, es).now + c.emptyGraceMs <= After(c, After(c, w, es), fs).now
  {
    hide Good, Legal, After, Step, May;
    var m := After(c, w, es);
    Reaches(c, w, es);
    RoomIsOk(c, m);
    BusyIsUnarmed(c, m);
    ArmedRun(c, m, fs, m.now);
    ClosesLate(c, After(c, m, fs), k, m.now);
  }

  lemma BusyIsUnarmed(c: Limits, w: World)
    requires RoomOk(c, w.room) && Connected(w.room) != {}
    ensures ArmedSince(c, w, w.now)
  {
    assert forall k | k in w.room.alarms :: AlarmOk(w.room, k);
  }

  lemma ClosesLate(c: Limits, w: World, k: Id, t0: nat)
    requires ArmedSince(c, w, t0) && May(w, Fire(k)) && w.room.phase != Closing
    requires Step(c, w, Fire(k)).room.phase == Closing
    ensures t0 + c.emptyGraceMs <= w.now
  {
  }

  /** A room that nobody has joined stays active and sets no timer, until it is closed by force. */
  lemma {:induction false} NeverJoined(c: Limits, w: World, es: seq<Event>)
    requires w.room == FRESH_ROOM && w.sessions == map[] && w.settling == 0 && Legal(c, w, es)
    requires forall e | e in es :: !e.ForceClose? && !e.JoinBy?
    ensures After(c, w, es).room == FRESH_ROOM
    decreases |es|
  {
    if es == [] {
    } else {
      assert es[0] in es;
      NeverJoined(c, Step(c, w, es[0]), es[1..]);
    }
  }

  // ------------------------------------------------------------------
  // Results: identity
  // ------------------------------------------------------------------

  /** Everybody ever admitted keeps their client id and their token, in the room or gone. */
  ghost predicate IdsStable(w: World, v: World) {
    forall i | Known(w, i) ::
      Known(v, i) && Person(v, i).clientId == Person(w, i).clientId && Person(v, i).token == Person(w, i).token
  }

  lemma IdsStep(c: Limits, w: World, e: Event)
    requires Good(c, w) && May(w, e)
    ensures IdsStable(w, Step(c, w, e))
  {
    hide RoomOk, SocketsOk, PartingsOk, MarkDisconnected, RemoveUser, Distinct, Depart, PeopleOk;
    Disjoint(w);
    match e
    case SocketLost(conn) => MarkEffect(c, w.room, w.sessions[conn].user, conn, w.now);
    case LeaveBy(conn) =>
      RemoveEffect(c, w.room, w.sessions[conn].user, w.now);
      DepartSame(w, MarkLeft(w, conn), {w.sessions[conn].user}, Left);
      if !w.sessions[conn].left && !Superseded(Person(w, w.sessions[conn].user), conn) {
        Going(w, {w.sessions[conn].user}, Left, Step(c, w, e));
      }
    case Fire(k) =>
      if w.room.alarms[k].callback.Expire? && Expires(w.room, w.room.alarms[k].callback.user) {
        Going(w, {w.room.alarms[k].callback.user}, Expired(w.now), Step(c, w, e));
      }
    case CleanUp =>
      assert w.room.users - w.room.users.Keys == map[];
      Going(w, w.room.users.Keys, Swept, Step(c, w, e));
    case _ =>
  }

  lemma {:induction false} IdsRun(c: Limits, w: World, es: seq<Event>)
    requires Good(c, w) && c.maxUsers >= 1 && Legal(c, w, es)
    ensures IdsStable(w, After(c, w, es))
    decreases |es|
  {
    hide Good, Step, May;
    if es == [] {
    } else {
      StepOk(c, w, es[0]);
      IdsStep(c, w, es[0]);
      IdsRun(c, Step(c, w, es[0]), es[1..]);
    }
  }

  /** Client ids are handed out as 1, 2, 3, ... to fresh joins, and nobody's ever changes or is used again. */
  lemma ClientIdsInOrder(c: Limits, w: World, es: seq<Event>, e: Event, fs: seq<Event>)
    requires w == START && c.maxUsers >= 1 && Legal(c, w, es)
    requires e.JoinBy? && May(After(c, w, es), e) && Answer(c, After(c, w, es).room, e.found) == Admitted
    requires Legal(c, Step(c, After(c, w, es), e), fs)
    ensures var m := After(c, w, es);
            var v := After(c, Step(c, m, e), fs);
            && Known(v, e.user) && Person(v, e.user).clientId == |Everyone(m)| + 1
            && (forall i | Known(v, i) && i != e.user :: Person(v, i).clientId != |Everyone(m)| + 1)
  {
    hide Good, Legal, After, May;
    var m := After(c, w, es);
    Reaches(c, w, es);
    StepOk(c, m, e);
    NewId(c, m, e);
    hide Step;
    IdsRun(c, Step(c, m, e), fs);
    RunOk(c, Step(c, m, e), fs);
    IdsDiffer(c, After(c, Step(c, m, e), fs), e.user);
  }

  lemma NewId(c: Limits, w: World, e: Event)
    requires Good(c, w) && e.JoinBy? && May(w, e) && Answer(c, w.room, e.found) == Admitted
    ensures Known(Step(c, w, e), e.user) && Person(Step(c, w, e), e.user).clientId == |Everyone(w)| + 1
  {
  }

  lemma IdsDiffer(c: Limits, w: World, i: Id)
    requires Good(c, w) && Known(w, i)
    ensures forall j | Known(w, j) && j != i :: Person(w, j).clientId != Person(w, i).clientId
  {
  }

  /**
   A token brings back its user, with the same user id and client id, exactly when that user
   has neither left explicitly nor been taken out once the reconnect grace had passed since
   their socket was last marked lost.
   */
  lemma TokenResumes(c: Limits, w: World, es: seq<Event>, e: Event, i: Id)
    requires w == START && c.maxUsers >= 1 && Legal(c, w, es)
    requires var m := After(c, w, es);
             && Joinable(m.room) && e.JoinBy? && May(m, e)
             && Known(m, i) && e.token == Some(Person(m, i).token)
    ensures var m := After(c, w, es);
            var gone := i in m.departed && (m.departed[i].how == Left
              || (m.departed[i].how.Expired? && m.departed[i].user.since + c.userGraceMs <= m.departed[i].how.at));
            && (Answer(c, m.room, e.found) == Resumed(i) <==> !gone)
            && (!gone ==>
                  && i in Step(c, m, e).room.users && Step(c, m, e).room.users[i].conn == Some(e.conn)
                  && Step(c, m, e).room.users[i].clientId == m.room.users[i].clientId)
  {
    hide Good, Step, Legal, After;
    Reaches(c, w, es);
    TokenAnswer(c, After(c, w, es), e, i);
  }

  lemma TokenAnswer(c: Limits, w: World, e: Event, i: Id)
    requires Good(c, w) && Joinable(w.room) && e.JoinBy? && May(w, e)
    requires Known(w, i) && e.token == Some(Person(w, i).token)
    ensures var gone := i in w.departed && (w.departed[i].how == Left
              || (w.departed[i].how.Expired? && w.departed[i].user.since + c.userGraceMs <= w.departed[i].how.at));
            && (Answer(c, w.room, e.found) == Resumed(i) <==> !gone)
            && (!gone ==>
                  && i in Step(c, w, e).room.users && Step(c, w, e).room.users[i].conn == Some(e.conn)
                  && Step(c, w, e).room.users[i].clientId == w.room.users[i].clientId)
  {
    hide RoomOk, SocketsOk;
    assert e.found.Some? ==> Known(w, e.found.value) && Person(w, e.found.value) == w.room.users[e.found.value];
  }

  /** When timers fire as soon as they are due, a user without a socket is retained for the grace and no longer. */
  lemma RetainedForGrace(c: Limits, w: World, es: seq<Event>, i: Id)
    requires w == START && c.maxUsers >= 1 && Legal(c, w, es)
    requires var m := After(c, w, es);
             Joinable(m.room) && (forall k | k in m.room.alarms :: m.now <= m.room.alarms[k].due)
             && i in m.room.users && !m.room.users[i].connected
    ensures After(c, w, es).now <= After(c, w, es).room.users[i].since + c.userGraceMs
  {
    hide Good;
    var m := After(c, w, es);
    Reaches(c, w, es);
    RoomIsOk(c, m);
    assert UserOk(c, m.room, i);
  }

  /** The empty-grace timer is pending, due at this moment. */
  ghost predicate DueAt(w: World, due: nat) {
    && w.room.phase == EmptyGrace && w.room.emptyTimer.Some? && w.room.emptyTimer.value in w.room.alarms
    && w.room.alarms[w.room.emptyTimer.value] == Alarm(due, Elapse)
  }

  /** Emptying a room arms the timer for the grace from that moment. */
  lemma GraceArmed(c: Limits, w: World, e: Event)
    requires May(w, e) && w.room.phase == Active && Step(c, w, e).room.phase == EmptyGrace
    ensures DueAt(Step(c, w, e), w.now + c.emptyGraceMs)
  {
    hide May, JoinStep;
    if e.JoinBy? { JoinStaysActive(c, w, e); }
  }

  lemma JoinStaysActive(c: Limits, w: World, e: Event)
    requires May(w, e) && e.JoinBy? && w.room.phase == Active
    ensures Step(c, w, e).room.phase == Active
  {
  }

  /** While nobody joins the timer is let alone: it stays pending, or it has fired, or the room was closed by force. */
  lemma GraceKept(c: Limits, w: World, e: Event, due: nat)
    requires Good(c, w) && May(w, e) && DueAt(w, due) && !e.JoinBy?
    ensures DueAt(Step(c, w, e), due) || !Joinable(Step(c, w, e).room)
  {
    hide PeopleOk, SocketsOk, PartingsOk;
    assert forall k | k in w.room.alarms :: AlarmOk(w.room, k);
    assert forall i | i in w.room.users :: UserOk(c, w.room, i);
  }

  lemma {:induction false} GraceRun(c: Limits, w: World, es: seq<Event>, due: nat)
    requires Good(c, w) && c.maxUsers >= 1 && Legal(c, w, es) && (DueAt(w, due) || !Joinable(w.room))
    requires forall e | e in es :: !e.JoinBy?
    ensures DueAt(After(c, w, es), due) || !Joinable(After(c, w, es).room)
    decreases |es|
  {
    hide Good, Step, May, DueAt;
    if es == [] {
    } else {
      assert es[0] in es;
      StepOk(c, w, es[0]);
      if DueAt(w, due) { GraceKept(c, w, es[0], due); } else { ShutStaysShut(c, w, es[0]); }
      GraceRun(c, Step(c, w, es[0]), es[1..], due);
    }
  }

  lemma ShutStaysShut(c: Limits, w: World, e: Event)
    requires May(w, e) && !Joinable(w.room)
    ensures !Joinable(Step(c, w, e).room)
  {
  }

  /**
   And the grace window is no longer than it should be: when timers fire as soon as they are due, a room
   that nobody has joined since it became empty waits for the grace from that moment and no longer.
   */
  lemma ClosedAfterGrace(c: Limits, w: World, es: seq<Event>, e: Event, fs: seq<Event>)
    requires w == START && c.maxUsers >= 1 && Legal(c, w, es) && May(After(c, w, es), e)
    requires After(c, w, es).room.phase == Active && Step(c, After(c, w, es), e).room.phase == EmptyGrace
    requires Legal(c, Step(c, After(c, w, es), e), fs) && forall f | f in fs :: !f.JoinBy?
    requires var v := After(c, Step(c, After(c, w, es), e), fs);
             Joinable(v.room) && forall k | k in v.room.alarms :: v.now <= v.room.alarms[k].due
    ensures After(c, Step(c, After(c, w, es), e), fs).now <= After(c, w, es).now + c.emptyGraceMs
  {
    hide Good, Legal, After, May, Step;
    var m := After(c, w, es);
    Reaches(c, w, es);
    StepOk(c, m, e);
    GraceArmed(c, m, e);
    GraceRun(c, Step(c, m, e), fs, m.now + c.emptyGraceMs);
  }

  // ------------------------------------------------------------------
  // Results: what a join comes to
  // ------------------------------------------------------------------

  /** Somebody in the room holds this token. */
  predicate Held(users: map<Id, User>, token: Option<Id>) {
    token.Some? && exists i :: i in users && users[i].token == token.value
  }

  /**
   The join made `user` this: the holder of the token, with the client id and the token as before, if
   there is one; the new user, with the next client id, if not. Nobody else has changed.
   */
  ghost predicate JoinedAs(
      was: Room, now: Room, token: Option<Id>, conn: Id, newUser: Id, newToken: Id, user: Id)
  {
    && now.phase == Active && user in now.users && now.users[user].connected && now.users[user].conn == Some(conn)
    && now.users == was.users[user := now.users[user]] && now.shelf == was.shelf
    && (if Held(was.users, token)
        then user in was.users && Some(was.users[user].token) == token && now.joinSeq == was.joinSeq
             && now.users[user].clientId == was.users[user].clientId && now.users[user].token == was.users[user].token
        else user == newUser && now.joinSeq == was.joinSeq + 1
             && now.users[user].clientId == was.joinSeq + 1 && now.users[user].token == newToken)
  }

  /** What `join` answers and does, by the users, their tokens and who is connected. */
  lemma JoinMeans(c: Limits, r: Room, conn: Id, token: Option<Id>, found: Option<Id>, newUser: Id, newToken: Id)
    requires Finds(r, token, found)
    ensures found.Some? ==> found.value in r.users
    ensures var answer, w := Answer(c, r, found), Join(c, r, conn, found, newUser, newToken);
            && (answer == NotJoinable <==> !(r.phase == Active || r.phase == EmptyGrace))
            && (answer == NotJoinable ==> w == r)
            && (answer == Full <==>
                  && (r.phase == Active || r.phase == EmptyGrace) && !Held(r.users, token)
                  && |set i | i in r.users && r.users[i].connected| >= c.maxUsers)
            && (answer.Resumed? || answer == Admitted ==>
                  JoinedAs(r, w, token, conn, newUser, newToken, if answer.Resumed? then answer.user else newUser))
  {
    assert Connected(r) == set i | i in r.users && r.users[i].connected;
  }

  /** A socket gets no session from its join exactly if nobody holds its token and the room is full. */
  lemma RefusedIffFull(c: Limits, w: World, e: Event)
    requires e.JoinBy? && May(w, e) && Joinable(w.room)
    ensures e.conn !in Step(c, w, e).sessions <==>
            !Held(w.room.users, e.token) && |set i | i in w.room.users && w.room.users[i].connected| >= c.maxUsers
  {
    hide Held;
    JoinMeans(c, w.room, e.conn, e.token, e.found, e.user, e.newToken);
  }

  // ------------------------------------------------------------------
  // Results: what a room holds
  // ------------------------------------------------------------------

  /** Only the cleanup empties a room, and no room comes back from it. */
  lemma ShelfStep(c: Limits, w: World, e: Event)
    requires May(w, e) && !e.Store? && Joinable(Step(c, w, e).room)
    ensures Joinable(w.room) && Step(c, w, e).room.shelf == w.room.shelf
  {
  }

  lemma {:induction false} ShelfRun(c: Limits, w: World, es: seq<Event>)
    requires Legal(c, w, es) && Joinable(After(c, w, es).room) && forall e | e in es :: !e.Store?
    ensures Joinable(w.room) && After(c, w, es).room.shelf == w.room.shelf
    decreases |es|
  {
    hide Step, May;
    if es == [] {
    } else {
      assert es[0] in es;
      ShelfRun(c, Step(c, w, es[0]), es[1..]);
      ShelfStep(c, w, es[0]);
    }
  }

  /**
   A join that is accepted, however long everybody was gone before it, finds the files, uploads and
   documents that were there: whatever joins, departures and timers lie between, the room had not
   passed the one-way door at any time, and it holds what was last put into it.
   */
  lemma JoinFindsRoomIntact(c: Limits, w: World, es: seq<Event>, e: Event)
    requires Legal(c, w, es) && (forall f | f in es :: !f.Store?) && e.JoinBy? && May(After(c, w, es), e)
    requires var answer := Answer(c, After(c, w, es).room, e.found); answer.Resumed? || answer.Admitted?
    ensures var v := Step(c, After(c, w, es), e);
            && v.room.shelf == w.room.shelf && v.room.phase == Active && w.room.joinSeq <= v.room.joinSeq
            && (forall i | 0 <= i <= |es| :: Legal(c, w, es[..i]) && Joinable(After(c, w, es[..i]).room))
  {
    hide Step, May;
    ShelfRun(c, w, es);
    ShelfJoin(c, After(c, w, es), e);
    SeqRun(c, w, es);
    forall i | 0 <= i <= |es| ensures Legal(c, w, es[..i]) && Joinable(After(c, w, es[..i]).room) {
      DoorRun(c, w, es, i);
    }
  }

  lemma ShelfJoin(c: Limits, w: World, e: Event)
    requires e.JoinBy? && May(w, e)
    requires var answer := Answer(c, w.room, e.found); answer.Resumed? || answer.Admitted?
    ensures Joinable(w.room)
    ensures var v := Step(c, w, e);
            v.room.shelf == w.room.shelf && v.room.phase == Active && w.room.joinSeq <= v.room.joinSeq
  {
  }

  lemma {:induction false} SeqRun(c: Limits, w: World, es: seq<Event>)
    requires Legal(c, w, es)
    ensures w.room.joinSeq <= After(c, w, es).room.joinSeq
    decreases |es|
  {
    hide Step, May;
    if es == [] {
    } else {
      SeqStep(c, w, es[0]);
      SeqRun(c, Step(c, w, es[0]), es[1..]);
    }
  }

  lemma SeqStep(c: Limits, w: World, e: Event)
    requires May(w, e)
    ensures w.room.joinSeq <= Step(c, w, e).room.joinSeq
  {
  }

  lemma {:induction false} DoorRun(c: Limits, w: World, es: seq<Event>, i: nat)
    requires Legal(c, w, es) && Joinable(After(c, w, es).room) && i <= |es| && forall e | e in es :: !e.Store?
    ensures Legal(c, w, es[..i]) && Joinable(After(c, w, es[..i]).room)
    decreases |es|
  {
    hide Step, May;
    if i == 0 {
      ShelfRun(c, w, es);
    } else {
      assert es[..i][0] == es[0] && es[..i][1..] == es[1..][..i - 1];
      DoorRun(c, Step(c, w, es[0]), es[1..], i - 1);
    }
  }

  // ------------------------------------------------------------------
  // Results: sockets that were superseded
  // ------------------------------------------------------------------

  /**
   Who has a socket has the one bound last, and it is open. While the room can be joined, a
   retained user is CONNECTED, through that socket, iff it has not been closed.
   */
  lemma ConnectedIffBoundSocketOpen(c: Limits, w: World, es: seq<Event>, i: Id)
    requires w == START && c.maxUsers >= 1 && Legal(c, w, es) && i in After(c, w, es).room.users
    ensures var m := After(c, w, es);
            var u := m.room.users[i];
            && u.bound in m.sessions && m.sessions[u.bound].user == i
            && (u.conn.Some? ==> u.conn == Some(u.bound) && !m.sessions[u.bound].left)
            && (Joinable(m.room) ==>
                  (u.connected <==> !m.sessions[u.bound].left) && (u.connected ==> u.conn == Some(u.bound)))
  {
    hide RoomOk, PeopleOk, PartingsOk;
    Reaches(c, w, es);
    BoundIsConn(c, After(c, w, es).room);
  }

  /**
   The close or the leave of a socket leaves the room as it was exactly when its user has
   another socket, or is gone. While the room can be joined that is: when the user is connected
   through another socket, or gone. A cleanup takes sockets away from connected users, and then
   any of their sockets acts.
   */
  lemma StaleSocketInert(c: Limits, w: World, es: seq<Event>, conn: Id, explicit: bool)
    requires w == START && c.maxUsers >= 1 && Legal(c, w, es)
    requires conn in After(c, w, es).sessions && !After(c, w, es).sessions[conn].left
    requires Known(After(c, w, es), After(c, w, es).sessions[conn].user)
    ensures var m := After(c, w, es);
            var i := m.sessions[conn].user;
            var same := LeaveStep(c, m, conn, explicit).room == m.room;
            && (same <==> i !in m.room.users || Superseded(m.room.users[i], conn))
            && (Joinable(m.room) ==>
                  (same <==> i !in m.room.users || (m.room.users[i].connected && m.room.users[i].bound != conn)))
  {
    hide Good, Legal, After, LeaveStep;
    var m := After(c, w, es);
    Reaches(c, w, es);
    InertStep(c, m, conn, explicit);
    RoomIsOk(c, m);
    BoundIsConn(c, m.room);
  }

  lemma InertStep(c: Limits, w: World, conn: Id, explicit: bool)
    requires Good(c, w) && conn in w.sessions && !w.sessions[conn].left && Known(w, w.sessions[conn].user)
    ensures var i := w.sessions[conn].user;
            LeaveStep(c, w, conn, explicit).room == w.room <==>
              (i !in w.room.users || Superseded(w.room.users[i], conn))
  {
    hide PeopleOk, PartingsOk, RoomOk;
    var i := w.sessions[conn].user;
    if i !in w.room.users { AbsentInert(c, w, i, conn); }
    else { NextAlarmFree(c, w.room); }
  }

  lemma NextAlarmFree(c: Limits, r: Room)
    requires RoomOk(c, r)
    ensures r.nextAlarm !in r.alarms
  {
    assert r.nextAlarm in r.alarms ==> AlarmOk(r, r.nextAlarm);
  }

  lemma AbsentInert(c: Limits, w: World, i: Id, conn: Id)
    requires Good(c, w) && i !in w.room.users && Known(w, i)
    ensures RemoveUser(c, w.room, i, w.now) == w.room && MarkDisconnected(c, w.room, i, conn, w.now) == w.room
  {
    hide RoomOk, PartingsOk, SocketsOk, Distinct, MaybeStartEmptyGrace;
    assert i in Everyone(w);
    assert w.room.joinSeq > 0;
    assert Pop(w.room, i) == w.room;
    SettledRoom(c, w.room, w.now);
  }

  lemma SettledRoom(c: Limits, r: Room, now: nat)
    requires RoomOk(c, r) && r.joinSeq > 0
    ensures MaybeStartEmptyGrace(c, r, now) == r
  {
    MaybeStartOk(c, r, now);
  }

  /**
   "Inert" stops at connected users: a socket that a resume has replaced still takes out its
   user by an explicit leave, once the newer socket is lost, in the middle of the reconnect grace.
   */
  lemma ReplacedSocketCanRemove(c: Limits, w: World)
    requires w == START && c.maxUsers >= 1 && c.userGraceMs > 0
    ensures var es := [JoinBy(1, None, None, 7, 9), JoinBy(2, Some(9), Some(7), 8, 10), SocketLost(2)];
            && Legal(c, w, es)
            && After(c, w, es).room.users.Keys == {7} && After(c, w, es).room.users[7].bound == 2
            && May(After(c, w, es), LeaveBy(1)) && 7 !in Step(c, After(c, w, es), LeaveBy(1)).room.users
  {
    var e1, e2, e3 := JoinBy(1, None, None, 7, 9), JoinBy(2, Some(9), Some(7), 8, 10), SocketLost(2);
    FirstJoins(c, w);
    SecondTakesOver(c, Step(c, w, e1));
    SecondIsLost(c, Step(c, Step(c, w, e1), e2));
    hide Step, May;
    OneStep(c, Step(c, Step(c, w, e1), e2), e3, []);
    OneStep(c, Step(c, w, e1), e2, [e3]);
    OneStep(c, w, e1, [e2, e3]);
    assert [e3] + [] == [e3] && [e2] + [e3] == [e2, e3] && [e1] + [e2, e3] == [e1, e2, e3];
  }

  lemma FirstJoins(c: Limits, w: World)
    requires w == START && c.maxUsers >= 1
    ensures var e := JoinBy(1, None, None, 7, 9);
            && May(w, e) && Step(c, w, e).room.users == map[7 := User(1, 9, Some(1), true, None, 1, 0)]
            && Step(c, w, e).sessions == map[1 := Session(7, false)] && Step(c, w, e).departed == map[]
            && Step(c, w, e).room.phase == Active
  {
    assert Connected(w.room) == {};
  }

  lemma SecondTakesOver(c: Limits, w: World)
    requires w.room.users == map[7 := User(1, 9, Some(1), true, None, 1, 0)]
    requires w.sessions == map[1 := Session(7, false)]
    requires w.room.phase == Active && w.departed == map[]
    ensures var e := JoinBy(2, Some(9), Some(7), 8, 10);
            && May(w, e) && Step(c, w, e).room.users == map[7 := User(1, 9, Some(2), true, None, 2, 0)]
            && Step(c, w, e).sessions == map[1 := Session(7, false), 2 := Session(7, false)]
            && Step(c, w, e).room.phase == Active
  {
  }

  lemma SecondIsLost(c: Limits, w: World)
    requires w.room.users == map[7 := User(1, 9, Some(2), true, None, 2, 0)]
    requires w.sessions == map[1 := Session(7, false), 2 := Session(7, false)]
    ensures May(w, SocketLost(2)) && var v := Step(c, w, SocketLost(2));
            && v.room.users.Keys == {7} && v.room.users[7].bound == 2
            && May(v, LeaveBy(1)) && 7 !in Step(c, v, LeaveBy(1)).room.users
  {
    var v := Step(c, w, SocketLost(2));
    assert v.room.users == map[7 := User(1, 9, None, false, Some(w.room.nextAlarm), 2, w.now)];
  }

  /** User 7 is connected through the open socket 2, and the close of socket 1 disconnects it. */
  ghost predicate LateCloseActs(c: Limits, m: World) {
    && 7 in m.room.users && m.room.users[7].connected && m.room.users[7].bound == 2
    && 2 in m.sessions && !m.sessions[2].left
    && May(m, SocketLost(1))
    && var v := Step(c, m, SocketLost(1));
    7 in v.room.users && !v.room.users[7].connected && v.room.users[7].timer.Some?
  }

  /**
   Nor does it hold once a cleanup has taken the sockets: the late close of a replaced socket
   then marks its user disconnected and schedules a removal, although the newer socket is open.
   */
  lemma ReplacedSocketActsInClosing(c: Limits, w: World)
    requires w == START && c.maxUsers >= 1
    ensures var es := [JoinBy(1, None, None, 7, 9), JoinBy(2, Some(9), Some(7), 8, 10), ForceClose, CloseSocket(7)];
            && Legal(c, w, es)
            && LateCloseActs(c, After(c, w, es))
  {
    hide Step, May, LateCloseActs;
    var e1, e2 := JoinBy(1, None, None, 7, 9), JoinBy(2, Some(9), Some(7), 8, 10);
    FirstJoins(c, w);
    SecondTakesOver(c, Step(c, w, e1));
    var m := Step(c, Step(c, w, e1), e2);
    CleanupTakes(c, m);
    OneStep(c, Step(c, m, ForceClose), CloseSocket(7), []);
    OneStep(c, m, ForceClose, [CloseSocket(7)]);
    OneStep(c, Step(c, w, e1), e2, [ForceClose, CloseSocket(7)]);
    OneStep(c, w, e1, [e2, ForceClose, CloseSocket(7)]);
    assert [CloseSocket(7)] + [] == [CloseSocket(7)] && [ForceClose] + [CloseSocket(7)] == [ForceClose, CloseSocket(7)];
    assert [e2] + [ForceClose, CloseSocket(7)] == [e2, ForceClose, CloseSocket(7)];
    assert [e1] + [e2, ForceClose, CloseSocket(7)] == [e1, e2, ForceClose, CloseSocket(7)];
  }

  lemma CleanupTakes(c: Limits, w: World)
    requires w.room.users == map[7 := User(1, 9, Some(2), true, None, 2, 0)] && w.room.phase == Active
    requires w.sessions == map[1 := Session(7, false), 2 := Session(7, false)]
    ensures May(w, ForceClose) && May(Step(c, w, ForceClose), CloseSocket(7))
    ensures LateCloseActs(c, Step(c, Step(c, w, ForceClose), CloseSocket(7)))
  {
  }

  lemma OneStep(c: Limits, w: World, e: Event, es: seq<Event>)
    requires May(w, e) && Legal(c, Step(c, w, e), es)
    ensures Legal(c, w, [e] + es) && After(c, w, [e] + es) == After(c, Step(c, w, e), es)
  {
    hide May, Step;
    assert ([e] + es)[0] == e && ([e] + es)[1..] == es;
  }
}
