/**
 The two loops that tear uploads down, run without other steps in between: the reaper's sweep
 over all rooms and the cleanup of one room.
 */
module CleanupObjects {
  import opened Basics
  import opened MapSums
  import opened Vault
  import opened DiskObjects
  import opened UploadMachine
  import opened UploadAlone

  datatype Pending = Pending(lastActivity: nat, writing: bool)

  /** What a cleanup and a sweep see of a room; `users` maps each user to its connection, if it has one. */
  class UploadRoom {
    const id: Id
    var uploads: map<Id, Pending>
    var users: map<Id, Option<Id>>
    var files: map<Id, nat>
    var documents: set<Id>
    var closed: bool

    constructor (id: Id)
      ensures this.id == id && uploads == map[] && users == map[] && files == map[] && documents == {} && !closed
    {
      this.id := id;
      uploads, users, files, documents, closed := map[], map[], map[], {}, false;
    }
  }

  /** The part and file store; a directory exists from its creation to its removal. */
  class FileStore {
    var disk: map<Path, nat>
    var directories: set<Id>

    /** Every file lies in the directory of a room. */
    predicate Valid()
      reads this
    {
      forall p | p in disk :: p.room in directories
    }

    constructor ()
      ensures disk == map[] && directories == {} && Valid()
    {
      disk, directories := map[], {};
    }

    method DiscardPart(room: Id, upload: Id)
      modifies this`disk
      ensures disk == old(disk) - {Part(room, upload)}
    {
      disk := disk - {Part(room, upload)};
    }

    /** `rmtree`, ignoring errors: it may delete only some of the files and leave the directory. */
    method RemoveRoom(room: Id, works: bool, reached: set<Path>)
      requires Valid()
      modifies this
      ensures Valid() && Elsewhere(old(disk), disk, room)
      ensures works ==> disk == old(disk) - InRoom(old(disk), room) && directories == old(directories) - {room}
      ensures !works ==> disk == old(disk) - (InRoom(old(disk), room) * reached) && directories == old(directories)
    {
      if works {
        disk, directories := disk - InRoom(disk, room), directories - {room};
      } else {
        disk := disk - (InRoom(disk, room) * reached);
      }
    }
  }

  // ------------------------------------------------------------------
  // The sweep
  // ------------------------------------------------------------------

  function Stale(uploads: map<Id, Pending>, now: nat, staleMs: nat): set<Id> {
    set u | u in uploads && IsStale(uploads[u].writing, uploads[u].lastActivity, now, staleMs)
  }

  function Parts(room: Id, uploads: set<Id>): set<Path> { set u | u in uploads :: Part(room, u) }

  /** Taking one upload out: popped, its reservation given back, its part deleted unless it is stuck. */
  method TakeOut(room: UploadRoom, u: Id, ledger: ReservationLedger, store: FileStore, stuck: set<Id>)
    returns (done: bool)
    modifies room`uploads, ledger, store`disk
    ensures done <==> u !in stuck
    ensures room.uploads == old(room.uploads) - {u} && ledger.reservations == old(ledger.reservations) - {u}
    ensures store.disk == if done then old(store.disk) - {Part(room.id, u)} else old(store.disk)
  {
    room.uploads := room.uploads - {u};
    ledger.ReleaseUpload(u);
    if u in stuck { return false; }
    store.DiscardPart(room.id, u);
    done := true;
  }

  /**
   One room of the sweep: exactly the stale uploads go, with their reservations and parts. A part
   that cannot be deleted (one of `stuck`) ends it: its upload and reservation are gone like those
   taken before it, and the part stays.
   */
  method SweepRoom(room: UploadRoom, now: nat, staleMs: nat, ledger: ReservationLedger,
      store: FileStore, stuck: set<Id>) returns (reaped: nat, done: bool, ghost taken: set<Id>)
    modifies room`uploads, ledger, store`disk
    ensures var gone := Stale(old(room.uploads), now, staleMs);
            && (done <==> gone * stuck == {}) && taken <= gone && (done ==> taken == gone && taken - stuck == taken)
            && room.uploads == old(room.uploads) - taken
            && ledger.reservations == old(ledger.reservations) - taken
            && store.disk == old(store.disk) - Parts(room.id, taken - stuck)
            && reaped == |taken - stuck|
  {
    hide Stale, Parts, Sum;
    reaped := 0;
    var all := room.uploads;
    var todo := all.Keys;
    taken := {};
    NothingTaken(all, now, staleMs, room.id, ledger.reservations, store.disk);
    while todo != {}
      invariant todo <= all.Keys && taken == Stale(all, now, staleMs) - todo && taken * stuck == {}
      invariant room.uploads == all - taken
      invariant ledger.reservations == old(ledger.reservations) - taken
      invariant store.disk == old(store.disk) - Parts(room.id, taken)
      invariant reaped == |taken|
      decreases |todo|
    {
      var u :| u in todo;
      StaleNext(all, todo, u, now, staleMs);
      todo := todo - {u};
      if all[u].writing { continue; }
      if now - all[u].lastActivity < staleMs { continue; }
      OneMore(all, old(ledger.reservations), old(store.disk), room.id, taken, u);
      OneStuck(Stale(all, now, staleMs), taken, stuck, u);
      done := TakeOut(room, u, ledger, store, stuck);
      taken := taken + {u};
      if !done { return; }
      reaped := reaped + 1;
    }
    AllTaken(Stale(all, now, staleMs), stuck);
    done := true;
  }

  lemma OneStuck(gone: set<Id>, taken: set<Id>, stuck: set<Id>, u: Id)
    requires u in gone && taken * stuck == {}
    ensures if u in stuck then taken + {u} - stuck == taken && gone * stuck != {} else (taken + {u}) * stuck == {}
  {
    if u in stuck { assert u in gone * stuck; }
  }

  lemma AllTaken(gone: set<Id>, stuck: set<Id>)
    ensures gone - {} == gone && (gone * stuck == {} ==> gone - stuck == gone)
  {
  }

  lemma NothingTaken(all: map<Id, Pending>, now: nat, staleMs: nat, room: Id,
      ledger: map<Id, nat>, disk: map<Path, nat>)
    ensures Stale(all, now, staleMs) - all.Keys == {} && all - {} == all
    ensures ledger - {} == ledger && disk - Parts(room, {}) == disk
  {
  }

  lemma StaleNext(all: map<Id, Pending>, todo: set<Id>, u: Id, now: nat, staleMs: nat)
    requires u in todo && todo <= all.Keys
    ensures var gone := Stale(all, now, staleMs) - todo;
            Stale(all, now, staleMs) - (todo - {u}) ==
            if IsStale(all[u].writing, all[u].lastActivity, now, staleMs) then gone + {u} else gone
  {
  }

  lemma OneMore(all: map<Id, Pending>, ledger: map<Id, nat>, disk: map<Path, nat>, room: Id, gone: set<Id>, u: Id)
    ensures all - gone - {u} == all - (gone + {u}) && ledger - gone - {u} == ledger - (gone + {u})
    ensures disk - Parts(room, gone) - {Part(room, u)} == disk - Parts(room, gone + {u})
  {
    assert Parts(room, gone + {u}) == Parts(room, gone) + {Part(room, u)};
  }

  /** The uploads of the first rooms that a sweep takes. */
  ghost function Reaped(uploads: seq<map<Id, Pending>>, now: nat, staleMs: nat): set<Id> {
    set i, u | 0 <= i < |uploads| && u in Stale(uploads[i], now, staleMs) :: u
  }

  ghost function ReapedParts(ids: seq<Id>, uploads: seq<map<Id, Pending>>, now: nat, staleMs: nat): set<Path>
    requires |ids| == |uploads|
  {
    set i, u | 0 <= i < |uploads| && u in Stale(uploads[i], now, staleMs) :: Part(ids[i], u)
  }

  ghost function Counted(uploads: seq<map<Id, Pending>>, now: nat, staleMs: nat): nat {
    if uploads == [] then 0
    else Counted(uploads[..|uploads| - 1], now, staleMs) + |Stale(uploads[|uploads| - 1], now, staleMs)|
  }

  ghost function UploadsOf(rooms: seq<UploadRoom>): seq<map<Id, Pending>>
    reads rooms
  {
    seq(|rooms|, i requires 0 <= i < |rooms| reads rooms => rooms[i].uploads)
  }

  /** The rooms' uploads once the sweep is through with the first n rooms and has taken some of the next. */
  ghost function Left(all: seq<map<Id, Pending>>, n: nat, taken: set<Id>, now: nat, staleMs: nat)
    : seq<map<Id, Pending>>
  {
    seq(|all|, i requires 0 <= i < |all| =>
      if i < n then all[i] - Stale(all[i], now, staleMs) else if i == n then all[i] - taken else all[i])
  }

  /** Every part to be deleted in the first n rooms can be. */
  ghost predicate Unstuck(all: seq<map<Id, Pending>>, n: nat, stuck: set<Id>, now: nat, staleMs: nat) {
    forall i | 0 <= i < n && i < |all| :: Stale(all[i], now, staleMs) * stuck == {}
  }

  /**
   `sweep_once`. It comes to its end if and only if every part to be deleted can be: then what
   remains is being written or fresh, and the ledger's sum has fallen by exactly the reservations of
   what was taken. Otherwise it ends in the room with the first such part, rooms after it are as they
   were, and in that room only stale uploads are gone. Stored files are untouched either way.
   */
  method SweepOnce(rooms: seq<UploadRoom>, now: nat, staleMs: nat, ledger: ReservationLedger,
      store: FileStore, stuck: set<Id>)
    returns (reaped: nat, done: bool, ghost at: nat, ghost taken: set<Id>)
    requires forall i, j | 0 <= i < j < |rooms| :: rooms[i] != rooms[j]
    modifies rooms, ledger, store`disk
    ensures at <= |rooms| && (done <==> at == |rooms|) && (done ==> taken == {})
    ensures Unstuck(old(UploadsOf(rooms)), at, stuck, now, staleMs)
    ensures at < |rooms| ==>
              var stale := Stale(old(rooms[at].uploads), now, staleMs); taken <= stale && stale * stuck != {}
    ensures UploadsOf(rooms) == Left(old(UploadsOf(rooms)), at, taken, now, staleMs)
    ensures ledger.reservations ==
            old(ledger.reservations) - Reaped(old(UploadsOf(rooms))[..at], now, staleMs) - taken
    ensures store.disk ==
            old(store.disk) - ReapedParts(IdsOf(rooms)[..at], old(UploadsOf(rooms))[..at], now, staleMs)
            - if at < |rooms| then Parts(rooms[at].id, taken - stuck) else {}
    ensures done ==>
              var gone := Reaped(old(UploadsOf(rooms)), now, staleMs);
              && ledger.reservations == old(ledger.reservations) - gone
              && Sum(ledger.reservations) + Sum(Only(old(ledger.reservations), gone)) == Sum(old(ledger.reservations))
              && reaped == Counted(old(UploadsOf(rooms)), now, staleMs)
              && OnlyFresh(UploadsOf(rooms), now, staleMs)
    ensures done ==> forall c: Config, b: Board, l: Loop, u: Id |
              Mirrors(b, IdsOf(rooms), old(UploadsOf(rooms))) && Starts(c, l, IdsOf(rooms), now, staleMs) ::
              Find(ledger.reservations, u) == if Takes(c, b, l, u) then None else Find(old(ledger.reservations), u)
    ensures forall i | 0 <= i < |rooms| ::
              rooms[i].files == old(rooms[i].files) && rooms[i].users == old(rooms[i].users)
    ensures forall p | p in old(store.disk) && p.Stored? :: p in store.disk && store.disk[p] == old(store.disk)[p]
  {
    hide Stale, Reaped, Counted, ReapedParts, Parts, Sum, Only, Mirrors, Starts, Takes, Find, Left, Unstuck, OnlyFresh;
    ghost var all, ids := UploadsOf(rooms), IdsOf(rooms);
    reaped, at, taken := 0, 0, {};
    NoRoomYet(ids, all, now, staleMs, ledger.reservations, store.disk);
    LeftAtFirst(all, stuck, now, staleMs);
    for n := 0 to |rooms|
      invariant at == n && taken == {}
      invariant UploadsOf(rooms) == Left(all, n, {}, now, staleMs) && Unstuck(all, n, stuck, now, staleMs)
      invariant forall i | 0 <= i < |rooms| ::
                  rooms[i].files == old(rooms[i].files) && rooms[i].users == old(rooms[i].users)
      invariant ledger.reservations == old(ledger.reservations) - Reaped(all[..n], now, staleMs)
      invariant store.disk == old(store.disk) - ReapedParts(ids[..n], all[..n], now, staleMs)
      invariant reaped == Counted(all[..n], now, staleMs)
    {
      LeftNext(all, n, stuck, now, staleMs);
      assert rooms[n].uploads == UploadsOf(rooms)[n];
      var some, finished, here := SweepRoom(rooms[n], now, staleMs, ledger, store, stuck);
      assert UploadsOf(rooms) == Left(all, n, {}, now, staleMs)[n := all[n] - here];
      reaped := reaped + some;
      if !finished {
        taken := here;
        LeftPart(all, n, here, now, staleMs);
        PartialSpares(ids, all, n, now, staleMs, old(store.disk), rooms[n].id, taken - stuck);
        return reaped, false, at, taken;
      }
      ReapedMore(ids, all, n, now, staleMs, old(ledger.reservations), old(store.disk));
      at := n + 1;
    }
    done := true;
    assert all[..|rooms|] == all && ids[..|rooms|] == ids;
    assert ledger.reservations - {} == ledger.reservations && store.disk - {} == store.disk;
    SumDropAll(old(ledger.reservations), Reaped(all, now, staleMs));
    OnlyFreshLeft(all, now, staleMs);
    TakesReaped(ids, all, now, staleMs, old(ledger.reservations));
    SweepSparesFiles(ids, all, now, staleMs, old(store.disk));
  }

  ghost predicate OnlyFresh(uploads: seq<map<Id, Pending>>, now: nat, staleMs: nat) {
    forall i, u | 0 <= i < |uploads| && u in uploads[i] ::
      uploads[i][u].writing || now - uploads[i][u].lastActivity < staleMs
  }

  lemma LeftAtFirst(all: seq<map<Id, Pending>>, stuck: set<Id>, now: nat, staleMs: nat)
    ensures Left(all, 0, {}, now, staleMs) == all && Unstuck(all, 0, stuck, now, staleMs)
  {
    assert forall i | 0 <= i < |all| :: all[i] - {} == all[i];
  }

  lemma LeftNext(all: seq<map<Id, Pending>>, n: nat, stuck: set<Id>, now: nat, staleMs: nat)
    requires n < |all|
    ensures var left := Left(all, n, {}, now, staleMs);
            && |left| == |all| && left[n] == all[n]
            && left[n := all[n] - Stale(all[n], now, staleMs)] == Left(all, n + 1, {}, now, staleMs)
    ensures Unstuck(all, n, stuck, now, staleMs) && Stale(all[n], now, staleMs) * stuck == {} ==>
              Unstuck(all, n + 1, stuck, now, staleMs)
  {
    hide Stale;
    assert all[n] - {} == all[n];
    if n + 1 < |all| { assert all[n + 1] - {} == all[n + 1]; }
  }

  lemma LeftPart(all: seq<map<Id, Pending>>, n: nat, taken: set<Id>, now: nat, staleMs: nat)
    requires n < |all|
    ensures |Left(all, n, {}, now, staleMs)| == |all|
    ensures Left(all, n, {}, now, staleMs)[n := all[n] - taken] == Left(all, n, taken, now, staleMs)
  {
    hide Stale;
  }

  lemma PartialSpares(ids: seq<Id>, all: seq<map<Id, Pending>>, n: nat, now: nat, staleMs: nat, disk: map<Path, nat>,
      room: Id, taken: set<Id>)
    requires n <= |all| == |ids|
    ensures var left := disk - ReapedParts(ids[..n], all[..n], now, staleMs) - Parts(room, taken);
            forall p | p in disk && p.Stored? :: p in left && left[p] == disk[p]
  {
  }

  /** The objects hold what the board says of these rooms. */
  ghost predicate Mirrors(b: Board, ids: seq<Id>, ups: seq<map<Id, Pending>>) {
    && |ids| == |ups|
    && (forall i | 0 <= i < |ids| :: ups[i].Keys == RoomAt(b, ids[i]).uploads)
    && (forall i, u | 0 <= i < |ids| && u in ups[i] ::
          ups[i][u] == Pending(RecordAt(b, u).lastActivity, RecordAt(b, u).writing))
  }

  /** A sweep that is about to look at these rooms. */
  ghost predicate Starts(c: Config, l: Loop, ids: seq<Id>, now: nat, staleMs: nat) {
    l.start == now && l.todo == {} && c.staleMs == staleMs && l.rooms == set i | 0 <= i < |ids| :: ids[i]
  }

  /** What the object takes is what an undisturbed sweep of the machine takes. */
  lemma TakesReaped(ids: seq<Id>, ups: seq<map<Id, Pending>>, now: nat, staleMs: nat, ledger: map<Id, nat>)
    ensures forall c: Config, b: Board, l: Loop, u: Id | Mirrors(b, ids, ups) && Starts(c, l, ids, now, staleMs) ::
              Find(ledger - Reaped(ups, now, staleMs), u) == if Takes(c, b, l, u) then None else Find(ledger, u)
  {
    forall c: Config, b: Board, l: Loop, u: Id | Mirrors(b, ids, ups) && Starts(c, l, ids, now, staleMs)
      ensures Find(ledger - Reaped(ups, now, staleMs), u) == if Takes(c, b, l, u) then None else Find(ledger, u)
    {
      TakesIffReaped(c, b, l, ids, ups, now, staleMs, u);
    }
  }

  lemma TakesIffReaped(
      c: Config, b: Board, l: Loop, ids: seq<Id>, ups: seq<map<Id, Pending>>, now: nat, staleMs: nat, u: Id)
    requires Mirrors(b, ids, ups) && Starts(c, l, ids, now, staleMs)
    ensures Takes(c, b, l, u) <==> u in Reaped(ups, now, staleMs)
  {
    if Takes(c, b, l, u) {
      var r :| r in l.rooms && u in RoomAt(b, r).uploads;
      var i :| 0 <= i < |ids| && ids[i] == r;
      assert u in ups[i] && u in Stale(ups[i], now, staleMs);
    }
    if u in Reaped(ups, now, staleMs) {
      var i :| 0 <= i < |ups| && u in Stale(ups[i], now, staleMs);
      assert ids[i] in l.rooms && u in ups[i];
    }
  }

  ghost function IdsOf(rooms: seq<UploadRoom>): seq<Id> { seq(|rooms|, i requires 0 <= i < |rooms| => rooms[i].id) }

  lemma OnlyFreshLeft(all: seq<map<Id, Pending>>, now: nat, staleMs: nat)
    ensures OnlyFresh(Left(all, |all|, {}, now, staleMs), now, staleMs)
  {
  }

  lemma NoRoomYet(ids: seq<Id>, all: seq<map<Id, Pending>>, now: nat, staleMs: nat, ledger: map<Id, nat>,
      disk: map<Path, nat>)
    requires |ids| == |all|
    ensures ledger - Reaped(all[..0], now, staleMs) == ledger && Counted(all[..0], now, staleMs) == 0
    ensures disk - ReapedParts(ids[..0], all[..0], now, staleMs) == disk
  {
  }

  lemma ReapedMore(ids: seq<Id>, all: seq<map<Id, Pending>>, n: nat, now: nat, staleMs: nat, ledger: map<Id, nat>,
      disk: map<Path, nat>)
    requires n < |all| && |ids| == |all|
    ensures ledger - Reaped(all[..n + 1], now, staleMs) ==
            ledger - Reaped(all[..n], now, staleMs) - Stale(all[n], now, staleMs)
    ensures disk - ReapedParts(ids[..n + 1], all[..n + 1], now, staleMs) ==
            disk - ReapedParts(ids[..n], all[..n], now, staleMs) - Parts(ids[n], Stale(all[n], now, staleMs))
    ensures Counted(all[..n + 1], now, staleMs) == Counted(all[..n], now, staleMs) + |Stale(all[n], now, staleMs)|
  {
    hide Stale;
    assert all[..n + 1][..n] == all[..n];
    assert forall i | 0 <= i < n :: all[..n + 1][i] == all[..n][i] && ids[..n + 1][i] == ids[..n][i];
    assert Reaped(all[..n + 1], now, staleMs) == Reaped(all[..n], now, staleMs) + Stale(all[n], now, staleMs);
    assert ReapedParts(ids[..n + 1], all[..n + 1], now, staleMs) ==
           ReapedParts(ids[..n], all[..n], now, staleMs) + Parts(ids[n], Stale(all[n], now, staleMs));
  }

  /** So a sweep deletes parts only, and of no upload but those it takes. */
  lemma SweepSparesFiles(ids: seq<Id>, all: seq<map<Id, Pending>>, now: nat, staleMs: nat, disk: map<Path, nat>)
    requires |ids| == |all|
    ensures var left := disk - ReapedParts(ids, all, now, staleMs);
            && (forall p | p in disk && p.Stored? :: p in left && left[p] == disk[p])
            && (forall r, u | Part(r, u) in disk && u !in Reaped(all, now, staleMs) :: Part(r, u) in left)
  {
  }

  // ------------------------------------------------------------------
  // The cleanup of one room
  // ------------------------------------------------------------------

  /** How one removal attempt goes: whether it works, and which files it reaches if it does not. */
  datatype Attempt = Attempt(works: bool, reached: set<Path>)

  predicate SomeWorks(attempts: nat -> Attempt, n: nat) { exists i :: 0 <= i < n && attempts(i).works }

  /** `_delete_verified`: up to four attempts, verified after each. */
  method DeleteVerified(room: UploadRoom, store: FileStore, attempts: nat -> Attempt)
    requires store.Valid()
    modifies store
    ensures store.Valid() && Elsewhere(old(store.disk), store.disk, room.id)
    ensures store.directories ==
            if SomeWorks(attempts, 4) then old(store.directories) - {room.id} else old(store.directories)
    ensures room.id !in store.directories ==> InRoom(store.disk, room.id) == {}
    ensures room.id !in old(store.directories) ==> store.disk == old(store.disk)
  {
    ghost var disk, directories := store.disk, store.directories;
    for n := 0 to MAX_ATTEMPTS
      invariant store.Valid() && store.directories == directories && Elsewhere(disk, store.disk, room.id)
      invariant !SomeWorks(attempts, n) && (n > 0 ==> room.id in store.directories)
    {
      assert SomeWorks(attempts, n + 1) <==> attempts(n).works;
      store.RemoveRoom(room.id, attempts(n).works, attempts(n).reached);
      if room.id !in store.directories {
        Untouched(disk, store.disk, room.id);
        assert attempts(n).works ==> SomeWorks(attempts, MAX_ATTEMPTS);
        return;
      }
    }
  }

  lemma Untouched(was: map<Path, nat>, now: map<Path, nat>, room: Id)
    requires Elsewhere(was, now, room)
    ensures InRoom(was, room) == {} ==> now == was
  {
    if InRoom(was, room) == {} {
      assert forall p | p in was :: p !in InRoom(was, room);
      assert now == was;
    }
  }

  /** Only paths of this room are gone. */
  ghost predicate Elsewhere(was: map<Path, nat>, now: map<Path, nat>, room: Id) {
    && now.Keys <= was.Keys && (forall p | p in now :: now[p] == was[p])
    && (forall p | p in was && p.room != room :: p in now)
  }

  /**
   Giving back the reservations of a room's uploads and deleting their parts, one by one. A part
   that cannot be deleted (one of `stuck`) ends the loop.
   */
  method AbortAll(room: UploadRoom, ledger: ReservationLedger, store: FileStore, stuck: set<Id>) returns (done: bool)
    requires store.Valid()
    modifies ledger, store`disk
    ensures done <==> stuck * room.uploads.Keys == {}
    ensures done ==> ledger.reservations == old(ledger.reservations) - room.uploads.Keys
    ensures ledger.reservations.Keys <= old(ledger.reservations).Keys
    ensures old(ledger.reservations) - room.uploads.Keys == ledger.reservations - room.uploads.Keys
    ensures store.Valid() && Elsewhere(old(store.disk), store.disk, room.id)
    ensures room.uploads == map[] ==> store.disk == old(store.disk)
  {
    var todo := room.uploads.Keys;
    ghost var all, was := room.uploads.Keys, ledger.reservations;
    assert was - {} == was;
    while todo != {}
      invariant todo <= all && stuck * all <= todo
      invariant ledger.reservations == was - (all - todo)
      invariant Elsewhere(old(store.disk), store.disk, room.id)
      invariant room.uploads == map[] ==> store.disk == old(store.disk)
      decreases |todo|
    {
      var u :| u in todo;
      ledger.ReleaseUpload(u);
      OneReleased(was, all, todo, u);
      todo := todo - {u};
      if u in stuck {
        assert u in stuck * all;
        assert was - all == was - (all - todo) - all;
        return false;
      }
      store.DiscardPart(room.id, u);
    }
    assert all - {} == all;
    assert was - all == was - all - all;
    done := true;
  }

  lemma OneReleased(ledger: map<Id, nat>, all: set<Id>, todo: set<Id>, u: Id)
    requires u in todo && todo <= all
    ensures ledger - (all - todo) - {u} == ledger - (all - (todo - {u}))
  {
    assert all - (todo - {u}) == all - todo + {u};
  }

  /** `_close_connections`: every open socket is told and closed, and its user loses it. */
  method CloseConnections(room: UploadRoom, open: set<Id>) returns (closed: set<Id>)
    modifies room`users
    ensures closed == set i | i in old(room.users) && Attached(old(room.users)[i], open) :: old(room.users)[i].value
    ensures room.users == map i | i in old(room.users) ::
              if Attached(old(room.users)[i], open) then None else old(room.users)[i]
  {
    closed := {};
    ghost var was := room.users;
    var todo := room.users.Keys;
    while todo != {}
      invariant todo <= was.Keys && room.users.Keys == was.Keys
      invariant forall i | i in was ::
                  room.users[i] == if i !in todo && Attached(was[i], open) then None else was[i]
      invariant closed == set i | i in was && i !in todo && Attached(was[i], open) :: was[i].value
      decreases |todo|
    {
      var i :| i in todo;
      todo := todo - {i};
      if Attached(room.users[i], open) {
        closed := closed + {room.users[i].value};
        room.users := room.users[i := None];
      }
    }
  }

  predicate Attached(conn: Option<Id>, open: set<Id>) { conn.Some? && conn.value in open }

  /**
   `RoomCleaner.clean`. It ends with the room closed if and only if every part can be deleted:
   then the room is empty, its reservations are given back as by the machine's cleanup, its open
   sockets are closed, and its directory is gone unless four attempts failed. Otherwise the room
   stays as it is, with its directory. Nothing outside it changes either way, and on a room whose
   directory is gone, running it again changes nothing.
   */
  method Clean(
      room: UploadRoom, ledger: ReservationLedger, store: FileStore, stuck: set<Id>, open: set<Id>,
      attempts: nat -> Attempt)
    returns (done: bool, closed: set<Id>)
    requires store.Valid()
    modifies room, ledger, store
    ensures done <==> stuck * old(room.uploads).Keys == {}
    ensures done ==>
              && room.uploads == map[] && room.users == map[] && room.files == map[] && room.documents == {}
              && room.closed
              && ledger.reservations == old(ledger.reservations) - old(room.uploads).Keys
              && closed == set i | i in old(room.users) && Attached(old(room.users)[i], open) ::
                             old(room.users)[i].value
    ensures done ==> forall b: Board, r: Id | RoomAt(b, r).uploads == old(room.uploads).Keys ::
              ledger.reservations == old(ledger.reservations) - ToAbort(b, CleanStart(r))
    ensures store.Valid() && Elsewhere(old(store.disk), store.disk, room.id)
    ensures store.directories ==
            if done && SomeWorks(attempts, 4) then old(store.directories) - {room.id}
            else old(store.directories)
    ensures done && room.id !in store.directories ==> InRoom(store.disk, room.id) == {}
    ensures !done ==>
              && room.uploads == old(room.uploads) && room.users == old(room.users) && room.files == old(room.files)
              && room.documents == old(room.documents) && room.closed == old(room.closed) && closed == {}
              && old(ledger.reservations) - room.uploads.Keys == ledger.reservations - room.uploads.Keys
    ensures old(room.uploads) == map[] && room.id !in old(store.directories) ==>
              && ledger.reservations == old(ledger.reservations) && store.disk == old(store.disk)
              && store.directories == old(store.directories)
  {
    closed := {};
    done := AbortAll(room, ledger, store, stuck);
    if !done { return; }
    room.uploads := map[];
    closed := CloseConnections(room, open);
    room.documents := {};
    DeleteVerified(room, store, attempts);
    room.users := map[];
    room.files := map[];
    room.closed := true;
  }
}
