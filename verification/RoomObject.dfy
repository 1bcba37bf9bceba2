/** The room instance as an object that its methods update in place. */
module RoomObject {
  import opened Basics
  import opened RoomLifecycle
  import opened RoomLifecycleProofs

  class RoomInstance {
    const limits: Limits
    var state: Phase
    var users: map<Id, User>
    var joinSeq: nat
    var emptyTimer: Option<Id>
    var alarms: map<Id, Alarm>
    var nextAlarm: Id
    var shelf: Shelf

    function View(): Room
      reads this
    {
      Room(state, users, joinSeq, emptyTimer, alarms, nextAlarm, shelf)
    }

    constructor (limits: Limits)
      ensures View() == FRESH_ROOM && this.limits == limits
    {
      this.limits := limits;
      state, users, joinSeq := Active, map[], 0;
      emptyTimer, alarms, nextAlarm, shelf := None, map[], 0, EMPTY_SHELF;
    }

    method Schedule(due: nat, callback: Callback) returns (timer: Id)
      modifies this`alarms, this`nextAlarm
      ensures timer == old(nextAlarm) && nextAlarm == timer + 1 && alarms == old(alarms)[timer := Alarm(due, callback)]
    {
      timer := nextAlarm;
      alarms := alarms[timer := Alarm(due, callback)];
      nextAlarm := timer + 1;
    }

    method CancelTimer(timer: Option<Id>)
      modifies this`alarms
      ensures View() == Cancel(old(View()), timer)
    {
      if timer.Some? { alarms := alarms - {timer.value}; }
    }

    method CancelEmptyGraceTimer()
      modifies this`alarms, this`emptyTimer
      ensures View() == CancelEmptyGrace(old(View()))
    {
      if emptyTimer.Some? {
        CancelTimer(emptyTimer);
        emptyTimer := None;
      }
    }

    method MaybeStart(now: nat)
      modifies this
      ensures View() == MaybeStartEmptyGrace(limits, old(View()), now)
    {
      if state != Active { return; }
      if Connected(View()) != {} { return; }
      state := EmptyGrace;
      var timer := Schedule(now + limits.emptyGraceMs, Elapse);
      emptyTimer := Some(timer);
    }

    method FindByToken(token: Option<Id>) returns (found: Option<Id>)
      ensures Finds(View(), token, found)
    {
      if token == None { return None; }
      var rest := users.Keys;
      while rest != {}
        invariant rest <= users.Keys
        invariant forall i | i in users && i !in rest :: users[i].token != token.value
        decreases |rest|
      {
        var i :| i in rest;
        if users[i].token == token.value { return Some(i); }
        rest := rest - {i};
      }
      found := None;
    }

    /**
     `newUser` and `newToken` come from the source of fresh values. A token that somebody in the room
     holds brings back that user, whether or not the room is full; any other join is a new user, or is
     refused exactly if as many users as allowed are connected.
     */
    method JoinRoom(conn: Id, token: Option<Id>, newUser: Id, newToken: Id) returns (answer: Joining)
      modifies this
      ensures exists found: Option<Id> ::
                && Finds(old(View()), token, found)
                && answer == Answer(limits, old(View()), found)
                && View() == Join(limits, old(View()), conn, found, newUser, newToken)
      ensures answer == NotJoinable <==> !(old(state) == Active || old(state) == EmptyGrace)
      ensures answer == NotJoinable ==> View() == old(View())
      ensures answer == Full <==>
                && (old(state) == Active || old(state) == EmptyGrace) && !Held(old(users), token)
                && |set i | i in old(users) && old(users)[i].connected| >= limits.maxUsers
      ensures answer.Resumed? || answer == Admitted ==>
                JoinedAs(old(View()), View(), token, conn, newUser, newToken,
                         if answer.Resumed? then answer.user else newUser)
    {
      hide Held, JoinedAs, Finds, CancelEmptyGrace;
      ghost var was := View();
      var found := FindByToken(token);
      JoinMeans(limits, was, conn, token, found, newUser, newToken);
      if state != Active && state != EmptyGrace {
        answer := NotJoinable;
        assert View() == Join(limits, was, conn, found, newUser, newToken);
        return;
      }
      CancelEmptyGraceTimer();
      if found.Some? {
        var u := users[found.value];
        if u.timer.Some? { CancelTimer(u.timer); }
        users := users[found.value := u.(timer := None, conn := Some(conn), connected := true, bound := conn)];
        state := Active;
        answer := Resumed(found.value);
        assert View() == Join(limits, was, conn, found, newUser, newToken);
        return;
      }
      assert Connected(View()) == Connected(was);
      if |Connected(View())| >= limits.maxUsers {
        answer := Full;
        assert View() == Join(limits, was, conn, found, newUser, newToken);
        return;
      }
      joinSeq := joinSeq + 1;
      users := users[newUser := User(joinSeq, newToken, Some(conn), true, None, conn, 0)];
      state := Active;
      answer := Admitted;
      assert View() == Join(limits, was, conn, found, newUser, newToken);
    }

    method MarkLost(i: Id, conn: Id, now: nat)
      modifies this
      ensures View() == MarkDisconnected(limits, old(View()), i, conn, now)
    {
      if i !in users { return; }
      var u := users[i];
      if u.conn.Some? && u.conn.value != conn { return; }
      if u.timer.Some? { CancelTimer(u.timer); }
      var timer := Schedule(now + limits.userGraceMs, Expire(i));
      users := users[i := u.(conn := None, connected := false, timer := Some(timer), since := now)];
      MaybeStart(now);
    }

    method Remove(i: Id, now: nat) returns (removed: Option<User>)
      modifies this
      ensures View() == RemoveUser(limits, old(View()), i, now)
      ensures removed.Some? <==> i in old(users)
      ensures removed.Some? ==> removed.value == old(users[i])
    {
      removed := None;
      if i in users {
        removed := Some(users[i]);
        CancelTimer(users[i].timer);
      }
      users := users - {i};
      MaybeStart(now);
    }

    method EmptyGraceElapsed() returns (closing: bool)
      modifies this`state, this`emptyTimer
      ensures View() == OnEmptyGraceElapsed(old(View()))
      ensures closing <==> old(state) == EmptyGrace
    {
      if state != EmptyGrace { return false; }
      emptyTimer := None;
      state := Closing;
      closing := true;
    }

    method CancelAll()
      modifies this
      ensures View() == CancelAllTimers(old(View()))
    {
      hide CancelTimersOf, Cancel, Connected, MaybeStartEmptyGrace;
      CancelEmptyGraceTimer();
      ghost var r := View();
      var rest := users.Keys;
      CancelNone(r);
      assert r.users.Keys - rest == {};
      while rest != {}
        invariant rest <= users.Keys && users.Keys == r.users.Keys && View() == CancelTimersOf(r, r.users.Keys - rest)
        decreases |rest|
      {
        var i :| i in rest;
        CancelOneMore(r, r.users.Keys - rest, i);
        if users[i].timer == None { CancelNothing(r, r.users.Keys - rest, i); }
        assert r.users.Keys - (rest - {i}) == r.users.Keys - rest + {i};
        if users[i].timer.Some? {
          CancelTimer(users[i].timer);
          users := users[i := users[i].(timer := None)];
        }
        rest := rest - {i};
      }
      assert r.users.Keys - {} == r.users.Keys;
    }
  }

  lemma CancelNone(r: Room)
    ensures CancelTimersOf(r, {}) == r
  {
    var q := CancelTimersOf(r, {});
    assert q.alarms == r.alarms && q.users == r.users;
  }

  lemma CancelNothing(r: Room, some: set<Id>, i: Id)
    requires i in r.users && i !in some && r.users[i].timer == None
    ensures CancelTimersOf(r, some + {i}) == CancelTimersOf(r, some)
  {
    var q, p := CancelTimersOf(r, some), CancelTimersOf(r, some + {i});
    assert p.users == q.users && p.alarms == q.alarms;
  }

  lemma CancelOneMore(r: Room, some: set<Id>, i: Id)
    requires i in r.users && i !in some
    ensures var q := CancelTimersOf(r, some);
            && q.users.Keys == r.users.Keys && q.users[i] == r.users[i]
            && CancelTimersOf(r, some + {i}) ==
               Cancel(q, r.users[i].timer).(users := q.users[i := r.users[i].(timer := None)])
  {
    var q, p := CancelTimersOf(r, some), CancelTimersOf(r, some + {i});
    assert p.users == q.users[i := r.users[i].(timer := None)];
    assert p.alarms == Cancel(q, r.users[i].timer).alarms;
  }
}
