/**
 What every step keeps about the room map, the rooms, the upload records and the index,
 whatever the interleaving and whichever requests overlap.
 */
module BoardSafety {
  import opened Basics
  import opened Vault
  import opened UploadMachine

  /** An upload listed by an open room is one that a request can resolve. */
  ghost predicate ListedOk(b: Board, r: Id, u: Id)
    requires r in b.rooms
  {
    && u in b.records && b.records[u].room == r
    && (b.rooms[r].phase == Open ==> !b.records[u].aborted && u in b.index && b.index[u] == b.rooms[r].code)
  }

  ghost predicate RoomOk(b: Board, r: Id)
    requires r in b.rooms
  {
    && (b.rooms[r].phase == Open ==>
          b.rooms[r].code in b.codes && b.codes[b.rooms[r].code] == r && !b.rooms[r].abandoned)
    && (forall u | u in b.rooms[r].uploads :: ListedOk(b, r, u))
  }

  ghost predicate CodeOk(b: Board, code: string)
    requires code in b.codes
  {
    b.codes[code] in b.rooms && b.rooms[b.codes[code]].code == code && b.rooms[b.codes[code]].phase == Open
  }

  ghost predicate BoardOk(c: Config, b: Board) {
    && |b.codes| <= c.maxRooms
    && (forall r | r in b.rooms :: RoomOk(b, r))
    && (forall code | code in b.codes :: CodeOk(b, code))
    && (forall u | u in b.records :: b.records[u].room in b.rooms)
  }

  function Rank(p: Phase): nat {
    match p case Open => 0 case Closing => 1 case Cleaning => 2 case Closed => 3
  }

  /** Nothing disappears, and no room goes back. */
  ghost predicate Advances(b: Board, w: Board) {
    && (forall u | u in b.records :: u in w.records && w.records[u].room == b.records[u].room)
    && (forall r | r in b.rooms ::
          r in w.rooms && w.rooms[r].code == b.rooms[r].code && Rank(b.rooms[r].phase) <= Rank(w.rooms[r].phase))
  }

  /** What a step of task t leaves to the other tasks: the rooms it is not moving on. */
  ghost predicate Carried(b: Board, w: Board, t: Id) {
    && Advances(b, w)
    && (forall r | r in b.rooms ::
          || b.rooms[r].phase == Open || b.rooms[r].cleaner == t
          || (w.rooms[r].cleaner == b.rooms[r].cleaner && w.rooms[r].phase == b.rooms[r].phase
              && w.rooms[r].abandoned == b.rooms[r].abandoned && w.rooms[r].documents <= b.rooms[r].documents))
  }

  /** Rooms keep their standing; listed uploads keep their records and index entries. */
  lemma RoomsKept(c: Config, b: Board, w: Board)
    requires BoardOk(c, b) && w.codes == b.codes && w.rooms.Keys == b.rooms.Keys
    requires forall u | u in w.records :: w.records[u].room in w.rooms
    requires forall r | r in w.rooms ::
      && w.rooms[r].phase == b.rooms[r].phase && w.rooms[r].code == b.rooms[r].code
      && w.rooms[r].abandoned == b.rooms[r].abandoned
    requires forall r, u | r in w.rooms && u in w.rooms[r].uploads ::
      (u in b.rooms[r].uploads && ListedOk(b, r, u)) ==> ListedOk(w, r, u)
    requires forall r, u | r in w.rooms && u in w.rooms[r].uploads :: u in b.rooms[r].uploads
    ensures BoardOk(c, w)
  {
    forall r | r in w.rooms ensures RoomOk(w, r) {
      assert RoomOk(b, r);
    }
    forall code | code in w.codes ensures CodeOk(w, code) { assert CodeOk(b, code); }
  }

  lemma SetRecordOk(c: Config, b: Board, u: Id, rec: Record)
    requires BoardOk(c, b) && u in b.records && rec.room == b.records[u].room
    requires rec.aborted ==> b.records[u].aborted || b.rooms[rec.room].phase != Open || u !in b.rooms[rec.room].uploads
    ensures BoardOk(c, SetRecord(b, u, rec)) && SetRecord(b, u, rec).records.Keys == b.records.Keys
    ensures forall t :: Carried(b, SetRecord(b, u, rec), t)
  {
    RoomsKept(c, b, SetRecord(b, u, rec));
  }

  /** Changing a room without moving it on or listing more in it. */
  lemma SetRoomOk(c: Config, b: Board, r: Id, room: Room)
    requires BoardOk(c, b) && r in b.rooms && room.uploads <= b.rooms[r].uploads
    requires room.phase == b.rooms[r].phase && room.code == b.rooms[r].code && room.cleaner == b.rooms[r].cleaner
    requires room.abandoned == b.rooms[r].abandoned
    requires b.rooms[r].phase == Open || room.documents <= b.rooms[r].documents
    ensures BoardOk(c, SetRoom(b, r, room))
    ensures forall t :: Carried(b, SetRoom(b, r, room), t)
  {
    RoomsKept(c, b, SetRoom(b, r, room));
  }

  /** A room that is no longer open may move on; no code is bound to it. */
  lemma MoveOnOk(c: Config, b: Board, r: Id, room: Room)
    requires BoardOk(c, b) && r in b.rooms && room.uploads <= b.rooms[r].uploads
    requires b.rooms[r].phase != Open && Rank(b.rooms[r].phase) <= Rank(room.phase) && room.code == b.rooms[r].code
    ensures BoardOk(c, SetRoom(b, r, room)) && Carried(b, SetRoom(b, r, room), b.rooms[r].cleaner)
  {
    var w := SetRoom(b, r, room);
    forall i | i in w.rooms ensures RoomOk(w, i) {
      assert RoomOk(b, i);
      forall u | u in w.rooms[i].uploads ensures ListedOk(w, i, u) { assert ListedOk(b, i, u); }
    }
    forall code | code in w.codes ensures CodeOk(w, code) { assert CodeOk(b, code); }
  }

  /** Cleaners are never replaced while their room is closing: Carried composes. */
  lemma CarriedOn(b: Board, m: Board, w: Board, t: Id)
    requires Carried(b, m, t) && Carried(m, w, t)
    requires forall r | r in b.rooms ::
      m.rooms[r].phase == b.rooms[r].phase && m.rooms[r].cleaner == b.rooms[r].cleaner
    ensures Carried(b, w, t)
  {
  }

  lemma PopUploadOk(c: Config, b: Board, u: Id, t: Id)
    requires BoardOk(c, b) && u in b.records
    ensures BoardOk(c, PopUpload(b, u, t)) && Carried(b, PopUpload(b, u, t), t)
    ensures PopUpload(b, u, t).records.Keys == b.records.Keys
    ensures forall r | r in PopUpload(b, u, t).rooms :: u !in PopUpload(b, u, t).rooms[r].uploads
  {
    hide RoomOk, CodeOk, ListedOk, Carried;
    var r := b.records[u].room;
    var w := SetRoom(b, r, b.rooms[r].(uploads := b.rooms[r].uploads - {u}));
    SetRoomOk(c, b, r, w.rooms[r]);
    SetRecordOk(c, w, u, Unhook(b.records[u], t));
    CarriedOn(b, w, PopUpload(b, u, t), t);
    NotListed(c, w, u);
  }

  /** Only its own room lists an upload. */
  lemma NotListed(c: Config, b: Board, u: Id)
    requires BoardOk(c, b) && u in b.records && u !in b.rooms[b.records[u].room].uploads
    ensures forall r | r in b.rooms :: u !in b.rooms[r].uploads
  {
    assert forall r | r in b.rooms && u in b.rooms[r].uploads :: RoomOk(b, r) && ListedOk(b, r, u);
  }

  lemma PopIndexOk(c: Config, b: Board, u: Id)
    requires BoardOk(c, b) && forall r | r in b.rooms :: u !in b.rooms[r].uploads
    ensures BoardOk(c, b.(index := b.index - {u}))
  {
    RoomsKept(c, b, b.(index := b.index - {u}));
  }

  lemma UnlistOk(c: Config, b: Board, u: Id, t: Id)
    requires BoardOk(c, b) && u in b.records
    ensures BoardOk(c, Unlist(b, u, t)) && Carried(b, Unlist(b, u, t), t)
    ensures Unlist(b, u, t).records.Keys == b.records.Keys
    ensures forall r | r in Unlist(b, u, t).rooms :: u !in Unlist(b, u, t).rooms[r].uploads
  {
    PopUploadOk(c, b, u, t);
    PopIndexOk(c, PopUpload(b, u, t), u);
  }

  lemma MarkAbortedOk(c: Config, b: Board, u: Id)
    requires BoardOk(c, b) && u in b.records && forall r | r in b.rooms :: u !in b.rooms[r].uploads
    ensures var w := SetRecord(b, u, b.records[u].(aborted := true));
            BoardOk(c, w) && w.records.Keys == b.records.Keys && forall t :: Carried(b, w, t)
  {
    hide RoomOk, CodeOk, ListedOk, Carried;
    SetRecordOk(c, b, u, b.records[u].(aborted := true));
  }

  lemma AbortOk(c: Config, b: Board, u: Id, t: Id)
    requires BoardOk(c, b) && u in b.records
    ensures BoardOk(c, AbortNow(b, u, t)) && Carried(b, AbortNow(b, u, t), t)
    ensures AbortNow(b, u, t).records.Keys == b.records.Keys
  {
    hide BoardOk, Carried;
    RoomKnown(c, b, u);
    UnlistOk(c, b, u, t);
    MarkAbortedOk(c, Unlist(b, u, t), u);
    CarriedOn(b, Unlist(b, u, t), AbortNow(b, u, t), t);
  }

  lemma RoomKnown(c: Config, b: Board, u: Id)
    requires BoardOk(c, b) && u in b.records
    ensures b.records[u].room in b.rooms
  {
  }

  lemma FilesOk(c: Config, b: Board, r: Id, files: map<Id, nat>)
    requires BoardOk(c, b) && r in b.rooms
    ensures var w := SetRoom(b, r, b.rooms[r].(files := files));
            BoardOk(c, w) && forall t :: Carried(b, w, t)
  {
    hide RoomOk, CodeOk, ListedOk, Carried;
    SetRoomOk(c, b, r, b.rooms[r].(files := files));
  }

  lemma RecordFileOk(c: Config, b: Board, u: Id, size: nat, t: Id)
    requires BoardOk(c, b) && u in b.records
    ensures BoardOk(c, RecordFile(b, u, size, t)) && Carried(b, RecordFile(b, u, size, t), t)
    ensures RecordFile(b, u, size, t).records.Keys == b.records.Keys
  {
    hide BoardOk, Carried, Unlist;
    RoomKnown(c, b, u);
    var r := b.records[u].room;
    var files := b.rooms[r].files[b.records[u].file := size];
    var m := SetRoom(b, r, b.rooms[r].(files := files));
    FilesOk(c, b, r, files);
    UnlistOk(c, m, u, t);
    CarriedOn(b, m, RecordFile(b, u, size, t), t);
  }

  lemma RegisterOk(c: Config, b: Board, u: Id, rec: Record)
    requires BoardOk(c, b) && u !in b.records && rec.room in b.rooms && !rec.aborted
    ensures BoardOk(c, Register(b, u, rec)) && Register(b, u, rec).records.Keys == b.records.Keys + {u}
  {
    hide CodeOk, RoomOk;
    var w := Register(b, u, rec);
    forall r | r in w.rooms ensures RoomOk(w, r) { RegisterRoomOk(b, u, rec, r); }
    forall code | code in w.codes ensures CodeOk(w, code) { RegisterCodeOk(b, u, rec, code); }
  }

  lemma RegisterRoomOk(b: Board, u: Id, rec: Record, r: Id)
    requires u !in b.records && rec.room in b.rooms && !rec.aborted && r in b.rooms && RoomOk(b, r)
    ensures RoomOk(Register(b, u, rec), r)
  {
    forall i | i in Register(b, u, rec).rooms[r].uploads ensures ListedOk(Register(b, u, rec), r, i) {
      assert i == u || ListedOk(b, r, i);
    }
  }

  lemma RegisterCodeOk(b: Board, u: Id, rec: Record, code: string)
    requires rec.room in b.rooms && code in b.codes && CodeOk(b, code)
    ensures CodeOk(Register(b, u, rec), code)
  {
  }

  lemma RegisterCarried(b: Board, u: Id, rec: Record, t: Id)
    requires u !in b.records && rec.room in b.rooms
    ensures Carried(b, Register(b, u, rec), t)
  {
  }

  lemma BindCarried(b: Board, r: Id, code: string, t: Id)
    requires r !in b.rooms
    ensures Carried(b, Bind(b, r, code), t)
  {
  }

  lemma BindOk(c: Config, b: Board, r: Id, code: string)
    requires BoardOk(c, b) && r !in b.rooms && code !in b.codes && |b.codes| < c.maxRooms
    ensures BoardOk(c, Bind(b, r, code))
  {
    var w := Bind(b, r, code);
    forall i | i in w.rooms ensures RoomOk(w, i) {
      if i != r {
        assert RoomOk(b, i);
        forall u | u in w.rooms[i].uploads ensures ListedOk(w, i, u) { assert ListedOk(b, i, u); }
      }
    }
    forall k | k in w.codes ensures CodeOk(w, k) { assert k != code ==> CodeOk(b, k); }
  }

  lemma UnbindCarried(b: Board, r: Id, t: Id)
    requires r in b.rooms && b.rooms[r].phase == Open
    ensures Carried(b, Unbind(b, r, t), t) && Unbind(b, r, t).records == b.records
  {
  }

  lemma UnbindOk(c: Config, b: Board, r: Id, t: Id)
    requires BoardOk(c, b) && r in b.rooms && b.rooms[r].phase == Open
    ensures BoardOk(c, Unbind(b, r, t)) && Carried(b, Unbind(b, r, t), t)
    ensures !Unbind(b, r, t).rooms[r].abandoned
  {
    hide RoomOk, CodeOk, Carried;
    var w := Unbind(b, r, t);
    UnbindCarried(b, r, t);
    UnboundCode(b, r, t);
    forall i | i in w.rooms ensures RoomOk(w, i) { UnbindRoomOk(b, r, t, i); }
    forall code | code in w.codes ensures CodeOk(w, code) { UnbindCodeOk(b, r, t, code); }
  }

  /** An open room's code is bound to it, and closing takes exactly that binding away. */
  lemma UnboundCode(b: Board, r: Id, t: Id)
    requires r in b.rooms && b.rooms[r].phase == Open && RoomOk(b, r)
    ensures b.codes == Unbind(b, r, t).codes[b.rooms[r].code := r] && !b.rooms[r].abandoned
    ensures |Unbind(b, r, t).codes| <= |b.codes|
  {
    var codes := Unbind(b, r, t).codes;
    assert codes.Keys == b.codes.Keys - {b.rooms[r].code};
    assert |codes| == |codes.Keys| && |b.codes| == |b.codes.Keys|;
  }

  lemma UnbindRoomOk(b: Board, r: Id, t: Id, i: Id)
    requires r in b.rooms && b.rooms[r].phase == Open && i in b.rooms && RoomOk(b, i) && RoomOk(b, r)
    ensures RoomOk(Unbind(b, r, t), i)
  {
    forall u | u in Unbind(b, r, t).rooms[i].uploads ensures ListedOk(Unbind(b, r, t), i, u) {
      assert ListedOk(b, i, u);
    }
  }

  lemma UnbindCodeOk(b: Board, r: Id, t: Id, code: string)
    requires r in b.rooms && b.rooms[r].phase == Open && RoomOk(b, r)
    requires code in Unbind(b, r, t).codes && (code in b.codes ==> CodeOk(b, code))
    ensures CodeOk(Unbind(b, r, t), code)
  {
  }
}
