/** One socket: its session, and the loop that receives its frames. */
module SessionObject {
  import opened Basics
  import opened RoomLifecycle
  import opened RoomLifecycleProofs
  import opened RoomObject

  const MAX_PROTOCOL_ERRORS := 20

  datatype Message = JoinMessage(token: Option<Id>) | LeaveMessage | OtherMessage(number: nat)

  /**
   A frame as the socket delivers it; `Malformed` text does not parse, `Blank` frames carry
   nothing. `raises`: handling it, or answering it, raises.
   */
  datatype Received =
    | Disconnect
    | Binary(number: nat, raises: bool)
    | Malformed(raises: bool)
    | Blank
    | Text(message: Message, raises: bool)

  /** What `leave` does to the room of a session that has not left. */
  function LeaveRoom(c: Limits, r: RoomLifecycle.Room, i: Id, conn: Id, explicit: bool, now: nat): RoomLifecycle.Room {
    if !explicit then MarkDisconnected(c, r, i, conn, now)
    else if i in r.users && Superseded(r.users[i], conn) then r
    else RemoveUser(c, r, i, now)
  }

  /** It is the step that the lifecycle's runs take, also for a user who is gone already. */
  lemma LeaveRoomIsTheStep(c: Limits, w: World, conn: Id, explicit: bool)
    requires Good(c, w) && conn in w.sessions && !w.sessions[conn].left && Known(w, w.sessions[conn].user)
    ensures LeaveStep(c, w, conn, explicit).room == LeaveRoom(c, w.room, w.sessions[conn].user, conn, explicit, w.now)
  {
    hide Good;
    var i := w.sessions[conn].user;
    if i !in w.room.users { AbsentInert(c, w, i, conn); }
  }

  /** Does a joined session hand this frame to a handler? */
  predicate IsHandled(f: Received) { f.Binary? || (f.Text? && f.message.OtherMessage?) }

  /** Does the loop go on after this frame? */
  predicate GoesOn(f: Received, errors: nat, joined: bool) {
    match f
    case Disconnect => false
    case Blank => true
    case Malformed(raises) => !raises && errors + 1 <= MAX_PROTOCOL_ERRORS
    case Binary(_, raises) => joined ==> !raises
    case Text(message, raises) =>
      if message.JoinMessage? then joined else if joined then !message.LeaveMessage? && !raises else !raises
  }

  function Errors(f: Received, errors: nat): nat { if f.Malformed? then errors + 1 else errors }

  /** The frames a joined session handles, until it leaves, is lost, errs too often or raises. */
  function Served(frames: seq<Received>, errors: nat): seq<Received> {
    if frames == [] then []
    else
      (if IsHandled(frames[0]) then [frames[0]] else [])
      + if GoesOn(frames[0], errors, true) then Served(frames[1..], Errors(frames[0], errors)) else []
  }

  /** Before a join nothing is handled: what follows the first join, and the errors so far. */
  function AfterJoin(frames: seq<Received>, errors: nat): Option<(seq<Received>, nat)> {
    if frames == [] then None
    else if frames[0].Text? && frames[0].message.JoinMessage? then Some((frames[1..], errors))
    else if GoesOn(frames[0], errors, false) then AfterJoin(frames[1..], Errors(frames[0], errors))
    else None
  }

  function Script(frames: seq<Received>, errors: nat, accepted: bool): seq<Received> {
    match AfterJoin(frames, errors)
    case Some(rest) => if accepted then Served(rest.0, rest.1) else []
    case None => []
  }

  /** However many frames arrive, none is handled without a join. */
  lemma {:induction false} NothingWithoutJoin(frames: seq<Received>, errors: nat, accepted: bool)
    requires forall f | f in frames :: !(f.Text? && f.message.JoinMessage?)
    ensures Script(frames, errors, accepted) == []
    decreases |frames|
  {
    if frames == [] {
    } else {
      assert frames[0] in frames;
      NothingWithoutJoin(frames[1..], Errors(frames[0], errors), accepted);
    }
  }

  lemma Unfold(frames: seq<Received>, i: nat, errors: nat)
    requires i < |frames|
    ensures var f, next := frames[i], Errors(frames[i], errors);
            && Served(frames[i..], errors) ==
                 (if IsHandled(f) then [f] else [])
                 + (if GoesOn(f, errors, true) then Served(frames[i + 1..], next) else [])
            && AfterJoin(frames[i..], errors) ==
                 (if f.Text? && f.message.JoinMessage? then Some((frames[i + 1..], errors))
                  else if GoesOn(f, errors, false) then AfterJoin(frames[i + 1..], next) else None)
  {
    assert frames[i..][0] == frames[i] && frames[i..][1..] == frames[i + 1..];
  }

  lemma Exhausted(frames: seq<Received>, errors: nat)
    ensures Served(frames[|frames|..], errors) == [] && AfterJoin(frames[|frames|..], errors) == None
  {
  }

  // ------------------------------------------------------------------
  // The same by positions
  // ------------------------------------------------------------------

  predicate IsJoin(f: Received) { f.Text? && f.message.JoinMessage? }

  /** How many of the first n frames are malformed. */
  function Faults(frames: seq<Received>, n: nat): nat
    requires n <= |frames|
  {
    if n == 0 then 0 else Faults(frames, n - 1) + if frames[n - 1].Malformed? then 1 else 0
  }

  /** The frames before n hold no join, no disconnect, nothing that raises and at most 20 malformed ones. */
  ghost predicate Waits(frames: seq<Received>, n: nat) {
    && n <= |frames| && Faults(frames, n) <= 20
    && forall i | 0 <= i < n ::
         && frames[i] != Disconnect && !IsJoin(frames[i])
         && !((frames[i].Malformed? || frames[i].Text?) && frames[i].raises)
  }

  /** The j-th frame is the join that the loop comes to. */
  ghost predicate JoinAt(frames: seq<Received>, j: nat) {
    j < |frames| && IsJoin(frames[j]) && Waits(frames, j)
  }

  /** After a join this frame ends the session, unless it is a malformed one too many. */
  predicate IsLast(f: Received) {
    || f == Disconnect || (f.Text? && f.message.LeaveMessage?)
    || ((f.Binary? || f.Malformed? || (f.Text? && f.message.OtherMessage?)) && f.raises)
  }

  /**
   The frames from lo on are served up to hi: none before the last of them ends the session, and if
   there are more, the last of them did, or was the 21st malformed frame of the socket.
   */
  ghost predicate ServedTo(frames: seq<Received>, lo: nat, hi: nat) {
    && lo <= hi <= |frames|
    && (forall i | lo <= i < hi - 1 :: !IsLast(frames[i]) && Faults(frames, i + 1) <= 20)
    && (hi < |frames| ==> lo < hi && (IsLast(frames[hi - 1]) || Faults(frames, hi) > 20))
  }

  /** `handled` are the binary frames and the messages but joins and leaves from lo to hi, in order, at `at`. */
  ghost predicate Picks(frames: seq<Received>, lo: nat, hi: nat, handled: seq<Received>, at: seq<nat>) {
    && hi <= |frames| && |at| == |handled|
    && (forall k | 0 <= k < |at| :: lo <= at[k] < hi && handled[k] == frames[at[k]])
    && (forall k, l | 0 <= k < l < |at| :: at[k] < at[l])
    && (forall i | lo <= i < hi ::
          i in at <==> frames[i].Binary? || (frames[i].Text? && frames[i].message.OtherMessage?))
  }

  lemma {:induction false} ServedMeans(frames: seq<Received>, lo: nat) returns (hi: nat, at: seq<nat>)
    requires lo <= |frames| && Faults(frames, lo) <= 20
    ensures ServedTo(frames, lo, hi) && Picks(frames, lo, hi, Served(frames[lo..], Faults(frames, lo)), at)
    decreases |frames| - lo
  {
    hide ServedTo, Picks, Served, IsHandled, Faults, GoesOn;
    if lo == |frames| {
      hi, at := lo, [];
      NothingServed(frames);
    } else {
      var f := frames[lo];
      Unfold(frames, lo, Faults(frames, lo));
      NextServed(frames, lo);
      if GoesOn(f, Faults(frames, lo), true) {
        hi, at := ServedMeans(frames, lo + 1);
        OneMoreServed(frames, lo, hi);
        OneMorePicked(frames, lo, hi, Served(frames[lo + 1..], Faults(frames, lo + 1)), at);
        at := (if IsHandled(f) then [lo] else []) + at;
      } else {
        hi, at := lo + 1, if IsHandled(f) then [lo] else [];
        LastServed(frames, lo);
      }
    }
  }

  lemma NothingServed(frames: seq<Received>)
    ensures var n := |frames|;
            ServedTo(frames, n, n) && Picks(frames, n, n, Served(frames[n..], Faults(frames, n)), [])
  {
  }

  lemma NextServed(frames: seq<Received>, lo: nat)
    requires lo < |frames| && Faults(frames, lo) <= 20
    ensures Errors(frames[lo], Faults(frames, lo)) == Faults(frames, lo + 1)
    ensures GoesOn(frames[lo], Faults(frames, lo), true) ==> Faults(frames, lo + 1) <= 20
  {
  }

  lemma LastServed(frames: seq<Received>, lo: nat)
    requires lo < |frames| && Faults(frames, lo) <= 20 && !GoesOn(frames[lo], Faults(frames, lo), true)
    ensures ServedTo(frames, lo, lo + 1)
    ensures var f := frames[lo];
            Picks(frames, lo, lo + 1, (if IsHandled(f) then [f] else []) + [], if IsHandled(f) then [lo] else [])
  {
    hide Picks;
    NonePicked(frames, lo);
    if IsHandled(frames[lo]) {
      PickedFirst(frames, lo, lo + 1, [], []);
      assert [lo] + [] == [lo];
    } else {
      var none: seq<Received> := [];
      NotPicked(frames, lo, lo + 1, none, []);
      assert none + [] == none;
    }
  }

  lemma NonePicked(frames: seq<Received>, lo: nat)
    requires lo < |frames|
    ensures Picks(frames, lo + 1, lo + 1, [], [])
  {
  }

  lemma NotPicked(frames: seq<Received>, lo: nat, hi: nat, rest: seq<Received>, at: seq<nat>)
    requires lo < hi <= |frames| && Picks(frames, lo + 1, hi, rest, at) && !IsHandled(frames[lo])
    ensures Picks(frames, lo, hi, rest, at)
  {
    assert lo !in at;
  }

  lemma OneMoreServed(frames: seq<Received>, lo: nat, hi: nat)
    requires lo < |frames| && Faults(frames, lo) <= 20 && GoesOn(frames[lo], Faults(frames, lo), true)
    requires ServedTo(frames, lo + 1, hi)
    ensures ServedTo(frames, lo, hi) && lo < hi
  {
  }

  lemma OneMorePicked(frames: seq<Received>, lo: nat, hi: nat, rest: seq<Received>, at: seq<nat>)
    requires lo < hi <= |frames| && Picks(frames, lo + 1, hi, rest, at)
    ensures var f := frames[lo];
            Picks(frames, lo, hi, (if IsHandled(f) then [f] else []) + rest, (if IsHandled(f) then [lo] else []) + at)
  {
    hide Picks;
    if IsHandled(frames[lo]) {
      PickedFirst(frames, lo, hi, rest, at);
    } else {
      assert [] + rest == rest && [] + at == at;
      NotPicked(frames, lo, hi, rest, at);
    }
  }

  lemma PickedFirst(frames: seq<Received>, lo: nat, hi: nat, rest: seq<Received>, at: seq<nat>)
    requires lo < hi <= |frames| && Picks(frames, lo + 1, hi, rest, at) && IsHandled(frames[lo])
    ensures Picks(frames, lo, hi, [frames[lo]] + rest, [lo] + at)
  {
    var all, handled := [lo] + at, [frames[lo]] + rest;
    forall k | 0 <= k < |all| ensures lo <= all[k] < hi && handled[k] == frames[all[k]] {
      if k > 0 { assert all[k] == at[k - 1] && handled[k] == rest[k - 1]; }
    }
    forall k, l | 0 <= k < l < |all| ensures all[k] < all[l] {
      assert all[l] == at[l - 1];
      if k > 0 { assert all[k] == at[k - 1]; }
    }
    forall i | lo <= i < hi
      ensures i in all <==> frames[i].Binary? || (frames[i].Text? && frames[i].message.OtherMessage?)
    {
      if i > lo { assert i in all <==> i in at; }
    }
  }

  lemma {:induction false} FaultsGrow(frames: seq<Received>, i: nat, n: nat)
    requires i <= n <= |frames|
    ensures Faults(frames, i) <= Faults(frames, n)
  {
    if i == n {
    } else {
      FaultsGrow(frames, i, n - 1);
    }
  }

  /** The frame at n is the join, or the wait goes on unless it stops the loop; there is one join to come to. */
  lemma WaitsOn(frames: seq<Received>, n: nat)
    requires n < |frames| && Waits(frames, n)
    ensures Faults(frames, n + 1) == Errors(frames[n], Faults(frames, n))
    ensures IsJoin(frames[n]) ==> JoinAt(frames, n)
    ensures forall k: nat | JoinAt(frames, k) :: k >= n && (IsJoin(frames[n]) ==> k == n)
    ensures !IsJoin(frames[n]) && GoesOn(frames[n], Faults(frames, n), false) ==> Waits(frames, n + 1)
    ensures !IsJoin(frames[n]) && !GoesOn(frames[n], Faults(frames, n), false) ==> forall k: nat :: !JoinAt(frames, k)
  {
    forall k: nat | JoinAt(frames, k) ensures k >= n && (IsJoin(frames[n]) ==> k == n) {
    }
    if !IsJoin(frames[n]) && !GoesOn(frames[n], Faults(frames, n), false) {
      forall k: nat | n < k <= |frames| ensures !Waits(frames, k) { FaultsGrow(frames, n + 1, k); }
    }
  }

  lemma NoFaults(frames: seq<Received>)
    ensures Waits(frames, 0) && Faults(frames, 0) == 0
  {
  }

  lemma JoinIsNoFault(frames: seq<Received>, j: nat)
    requires JoinAt(frames, j)
    ensures Faults(frames, j + 1) == Faults(frames, j) <= 20
  {
  }

  /** The room takes a join with this token. */
  predicate Welcomes(c: Limits, r: RoomLifecycle.Room, token: Option<Id>) {
    && (r.phase == Active || r.phase == EmptyGrace)
    && (Held(r.users, token) || |set i | i in r.users && r.users[i].connected| < c.maxUsers)
  }

  lemma ScriptIs(frames: seq<Received>, j: nat)
    requires JoinAt(frames, j)
    ensures j < |frames| && Script(frames, 0, true) == Served(frames[j + 1..], Faults(frames, j))
  {
    JoinMeansScript(frames, 0, j);
    assert frames[0..] == frames;
  }

  lemma RefusedScript(frames: seq<Received>)
    ensures Script(frames, 0, false) == []
  {
  }

  /** No join that the loop comes to is one the room takes. */
  ghost predicate Unwelcome(frames: seq<Received>, c: Limits, r: RoomLifecycle.Room) {
    forall i: nat | JoinAt(frames, i) :: !Welcomes(c, r, frames[i].message.token)
  }

  lemma Unwelcomed(frames: seq<Received>, n: nat, c: Limits, r: RoomLifecycle.Room)
    requires n < |frames| && Waits(frames, n)
    ensures IsJoin(frames[n]) && !Welcomes(c, r, frames[n].message.token) ==> Unwelcome(frames, c, r)
    ensures !IsJoin(frames[n]) && !GoesOn(frames[n], Faults(frames, n), false) ==> Unwelcome(frames, c, r)
  {
    hide Waits, Faults, Welcomes, GoesOn;
    WaitsOn(frames, n);
  }

  lemma NoJoinLeft(frames: seq<Received>, c: Limits, r: RoomLifecycle.Room)
    requires Waits(frames, |frames|)
    ensures Unwelcome(frames, c, r)
  {
  }

  /** Before the join every frame lets the loop go on. */
  lemma WaitGoesOn(frames: seq<Received>, i: nat, j: nat)
    requires JoinAt(frames, j) && i < j
    ensures !IsJoin(frames[i]) && GoesOn(frames[i], Faults(frames, i), false)
    ensures Errors(frames[i], Faults(frames, i)) == Faults(frames, i + 1)
  {
    FaultsGrow(frames, i + 1, j);
  }

  lemma {:induction false} JoinMeansScript(frames: seq<Received>, i: nat, j: nat)
    requires JoinAt(frames, j) && i <= j
    ensures AfterJoin(frames[i..], Faults(frames, i)) == Some((frames[j + 1..], Faults(frames, j)))
    decreases j - i
  {
    hide AfterJoin, Served, Faults, GoesOn, Waits;
    Unfold(frames, i, Faults(frames, i));
    if i < j {
      WaitGoesOn(frames, i, j);
      JoinMeansScript(frames, i + 1, j);
    }
  }

  /** How a join ends for the receive loop. */
  datatype Outcome = Accepted | Refused | Raised

  class Session {
    const conn: Id
    var room: RoomInstance?
    var user: Option<Id>
    var left: bool

    predicate Joined()
      reads this
    {
      room != null && user.Some?
    }

    constructor (conn: Id)
      ensures this.conn == conn && !Joined() && !left && room == null && user == None
    {
      this.conn, room, user, left := conn, null, None, false;
    }

    /**
     `handle_join`: `first` is what the code leads to (null at capacity), and `second` what it
     leads to if that room passed the door between the lookup and the join. Only the first
     lookup and the first join are refused politely; a second refusal raises, and so does an
     acknowledgement that cannot be sent (`unsent`), which leaves the socket bound.
     */
    method HandleJoin(
        token: Option<Id>, first: RoomInstance?, second: RoomInstance?, newUser: Id, newToken: Id, unsent: bool)
      returns (outcome: Outcome)
      requires !Joined() && room == null && user == None
      modifies this`room, this`user, first, second
      ensures outcome == Accepted ==> Joined() && !unsent
      ensures outcome == Refused ==> room == null && user == None
      ensures outcome == Raised ==> Joined() || (room == null && user == None)
      ensures Joined() ==> room == (if old(first != null && Joinable(first.View())) then first else second)
      ensures Joined() ==>
                && room.state == Active && user.value in room.users
                && room.users[user.value].conn == Some(conn) && room.users[user.value].connected
      ensures Joined() && old(first != null && Joinable(first.View())) ==>
                JoinedAs(old(first.View()), first.View(), token, conn, newUser, newToken, user.value)
      ensures Joined() && old(first != null && !Joinable(first.View())) && second != null ==>
                JoinedAs(old(second.View()), second.View(), token, conn, newUser, newToken, user.value)
      ensures outcome == Refused <==>
                || first == null
                || old(Joinable(first.View()) && !Held(first.users, token)
                       && |set i | i in first.users && first.users[i].connected| >= first.limits.maxUsers)
      ensures !unsent && old(first != null && Joinable(first.View())) ==> outcome != Raised
      ensures !unsent && old(first != null && Welcomes(first.limits, first.View(), token)) ==> outcome == Accepted
      ensures old(first != null && !Joinable(first.View())) ==> outcome != Refused
      ensures !unsent && old(first != null && !Joinable(first.View())) && second != first ==>
                (outcome == Accepted <==> old(second != null && Welcomes(second.limits, second.View(), token)))
      ensures old(first != null && Joinable(first.View())) && second != first && second != null ==>
                second.View() == old(second.View())
      ensures old(first != null && !Joinable(first.View())) && second != first ==> first.View() == old(first.View())
    {
      if first == null { return Refused; }
      var target := first;
      var answer := target.JoinRoom(conn, token, newUser, newToken);
      if answer == Full { return Refused; }
      if answer == NotJoinable {
        if second == null { return Raised; }
        target := second;
        answer := target.JoinRoom(conn, token, newUser, newToken);
        if answer == Full || answer == NotJoinable { return Raised; }
      }
      room := target;
      user := Some(if answer == Admitted then newUser else answer.user);
      outcome := if unsent then Raised else Accepted;
    }

    /** `leave`, which acts once. */
    method Leave(explicit: bool, now: nat)
      modifies this`left, room
      ensures left
      ensures room != null && (old(left) || user == None) ==> room.View() == old(room.View())
      ensures Joined() && !old(left) ==>
                room.View() == LeaveRoom(room.limits, old(room.View()), user.value, conn, explicit, now)
    {
      if left { return; }
      left := true;
      if room == null || user == None { return; }
      var i := user.value;
      var superseded := i in room.users && Superseded(room.users[i], conn);
      if explicit {
        if superseded { return; }
        var removed := room.Remove(i, now);
      } else {
        room.MarkLost(i, conn, now);
      }
    }

    /** One turn of the loop: is the frame handed on, does the loop go on, and is there a session now? */
    method Receive(
        frame: Received, errors: nat, accepted: bool, first: RoomInstance?, second: RoomInstance?,
        newUser: Id, newToken: Id, unsent: bool, now: nat)
      returns (handled: bool, going: bool, joined: bool)
      requires !left && (accepted <==> Joined()) && (!accepted ==> room == null && user == None)
      requires room == null || room == first || room == second
      modifies this, first, second
      ensures room == null || room == first || room == second
      ensures handled <==> accepted && IsHandled(frame)
      ensures going ==> !left && (joined <==> Joined())
      ensures joined ==> Joined()
      ensures !Joined() ==> room == null && user == None
      ensures accepted ==> joined && (going <==> GoesOn(frame, errors, true))
      ensures !accepted && joined ==> going && frame.Text? && frame.message.JoinMessage?
      ensures !accepted && IsJoin(frame) ==> going == joined
      ensures !accepted && IsJoin(frame) && !unsent && first != null ==>
                Welcomes(first.limits, old(first.View()), frame.message.token) ==> joined
      ensures !accepted && !IsJoin(frame) && first != null ==> first.View() == old(first.View())
      ensures !accepted && !joined ==>
                (going <==> GoesOn(frame, errors, false)) && (going ==> !frame.Text? || !frame.message.JoinMessage?)
    {
      handled, joined := accepted && IsHandled(frame), accepted;
      match frame
      case Disconnect => going := false;
      case Malformed(raises) => going := !raises && errors + 1 <= MAX_PROTOCOL_ERRORS;
      case Blank => going := true;
      case Binary(_, raises) => going := !accepted || !raises;
      case Text(message, raises) =>
        if !accepted {
          if message.JoinMessage? {
            var outcome := HandleJoin(message.token, first, second, newUser, newToken, unsent);
            joined, going := outcome == Accepted, outcome == Accepted;
          } else {
            going := !raises;
          }
        } else if message.LeaveMessage? {
          Leave(true, now);
          going := false;
        } else {
          going := message.JoinMessage? || !raises;
        }
    }

    /**
     `websocket_endpoint`: frames before an accepted join are dropped, frames after it are
     handled in order, and however the loop ends, by a leave, a disconnect, too many errors or
     an exception, the session has left.
     */
    method Serve(
        frames: seq<Received>, first: RoomInstance?, second: RoomInstance?, newUser: Id, newToken: Id, unsent: bool,
        now: nat)
      returns (handled: seq<Received>, accepted: bool, ghost j: nat, ghost hi: nat, ghost at: seq<nat>)
      requires !Joined() && room == null && user == None && !left
      modifies this, first, second
      ensures left && (accepted ==> Joined()) && handled == Script(frames, 0, accepted)
      ensures !accepted ==> handled == []
      ensures accepted ==>
                JoinAt(frames, j) && ServedTo(frames, j + 1, hi) && Picks(frames, j + 1, hi, handled, at)
      ensures !accepted && first != null && !unsent ==> Unwelcome(frames, first.limits, old(first.View()))
    {
      hide Served, AfterJoin, GoesOn, IsHandled, ServedTo, Picks, Waits, Welcomes, Faults, Unwelcome, JoinAt,
           Script;
      handled, accepted, j, hi, at := [], false, 0, 0, [];
      assert Waits(frames, 0) && Faults(frames, 0) == 0 by { NoFaults(frames); }
      assert frames[0..] == frames;
      var errors, i, going := 0, 0, true;
      while going && i < |frames|
        invariant 0 <= i <= |frames| && (room == null || room == first || room == second)
        invariant !Joined() ==> room == null && user == None
        invariant (going ==> !left && (Joined() <==> accepted)) && (accepted ==> Joined())
        invariant accepted ==>
                    && JoinAt(frames, j) && j < i
                    && handled + (if going then Served(frames[i..], errors) else []) ==
                       Served(frames[j + 1..], Faults(frames, j))
        invariant !accepted ==> handled == []
        invariant !accepted && going ==>
                    && Waits(frames, i) && errors == Faults(frames, i)
                    && (first != null ==> first.View() == old(first.View()))
        invariant !accepted && !going && first != null && !unsent ==>
                    Unwelcome(frames, first.limits, old(first.View()))
      {
        Unfold(frames, i, errors);
        if !accepted {
          WaitsOn(frames, i);
          j := i;
          if first != null { Unwelcomed(frames, i, first.limits, first.View()); }
        }
        var taken, on, joined := Receive(frames[i], errors, accepted, first, second, newUser, newToken, unsent, now);
        if taken { handled := handled + [frames[i]]; }
        errors := Errors(frames[i], errors);
        going, accepted, i := on, joined, i + 1;
      }
      if going {
        Exhausted(frames, errors);
        if !accepted && first != null { NoJoinLeft(frames, first.limits, old(first.View())); }
      }
      if accepted {
        ScriptIs(frames, j);
        JoinIsNoFault(frames, j);
        hi, at := ServedMeans(frames, j + 1);
      }
      RefusedScript(frames);
      Leave(false, now);
    }
  }
}
