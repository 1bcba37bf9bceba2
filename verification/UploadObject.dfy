/**
 The upload service as an object: its index, and the rooms and records it changes in place.
 Each method is the code of `UploadService` between two awaits, proved against the step that
 the machine takes there.
 */
module UploadObject {
  import opened Basics
  import opened Vault
  import opened UploadMachine
  import opened BoardSafety

  class UploadService {
    var codes: map<string, Id>
    var rooms: map<Id, Room>
    var records: map<Id, Record>
    var index: map<Id, string>

    function View(): Board
      reads this
    {
      Board(codes, rooms, records, index)
    }

    constructor ()
      ensures View() == START.board
    {
      codes, rooms, records, index := map[], map[], map[], map[];
    }

    /** `resolve`: on a sound board it finds exactly the uploads that an open room lists. */
    method ResolveUpload(u: Id) returns (found: Option<Id>)
      ensures found == Resolve(View(), u)
      ensures forall c | BoardOk(c, View()) ::
                found.Some? <==> exists r :: r in rooms && rooms[r].phase == Open && u in rooms[r].uploads
    {
      ghost var b := View();
      forall c | BoardOk(c, b)
        ensures Resolve(b, u).Some? <==> exists r :: r in rooms && rooms[r].phase == Open && u in rooms[r].uploads
      {
        ResolvesListed(c, b, u);
      }
      if u !in index { return None; }
      if index[u] !in codes { return None; }
      var r := codes[index[u]];
      if r !in rooms || u !in rooms[r].uploads { return None; }
      if u in records && records[u].aborted { return None; }
      if u !in records { return None; }
      found := Some(r);
    }

    /** `init` once its reservation was granted. */
    method AddUpload(u: Id, record: Record)
      requires record.room in rooms
      modifies this
      ensures View() == Register(old(View()), u, record)
      ensures index[u] == rooms[record.room].code && u in rooms[record.room].uploads
    {
      var room := rooms[record.room];
      rooms := rooms[record.room := room.(uploads := room.uploads + {u})];
      index := index[u := room.code];
      records := records[u := record];
    }

    /**
     `write_chunk` between the append and the shrink: the machine's step, which leaves every
     lookup and the soundness of the board as they were.
     */
    method Advance(u: Id, size: nat, now: nat)
      requires u in records
      modifies this`records
      ensures forall c: Config, s: State, t: Id, ch: Choice | s.board == old(View()) && s.now == now ::
                View() == PutStep(c, s, t, Appended(u, size), ch).board
      ensures forall i :: Resolve(View(), i) == Resolve(old(View()), i)
      ensures forall c | BoardOk(c, old(View())) :: BoardOk(c, View())
    {
      ghost var b := View();
      records := records[u := records[u].(committed := size, lastActivity := now)];
      forall c | BoardOk(c, b) ensures BoardOk(c, View()) { SetRecordOk(c, b, u, records[u]); }
    }

    /** `abort` up to its first await, by task t. */
    method AbortUpload(u: Id, t: Id)
      requires u in records && records[u].room in rooms
      modifies this
      ensures View() == AbortNow(old(View()), u, t)
      ensures records[u].aborted && u !in index && u !in rooms[records[u].room].uploads
    {
      var rec := records[u];
      var room := rooms[rec.room];
      records := records[u := Unhook(rec, t).(aborted := true)];
      rooms := rooms[rec.room := room.(uploads := room.uploads - {u})];
      index := index - {u};
    }

    /** `complete` between the rename and the release, by task t. */
    method FinishUpload(u: Id, size: nat, t: Id)
      requires u in records && records[u].room in rooms
      modifies this
      ensures View() == RecordFile(old(View()), u, size, t)
      ensures var rec := old(records)[u];
              && rooms[rec.room].files == old(rooms)[rec.room].files[rec.file := size]
              && u !in rooms[rec.room].uploads && u !in index
    {
      var rec := records[u];
      var room := rooms[rec.room];
      rooms := rooms[rec.room := room.(files := room.files[rec.file := size], uploads := room.uploads - {u})];
      records := records[u := Unhook(rec, t)];
      index := index - {u};
    }
  }

  /** Aborting again, from any task, changes nothing. */
  lemma AbortIsIdempotent(b: Board, u: Id, t: Id, again: Id)
    requires u in b.records && b.records[u].room in b.rooms
    ensures AbortNow(AbortNow(b, u, t), u, again) == AbortNow(b, u, t)
  {
    var m := AbortNow(b, u, t);
    var w := AbortNow(m, u, again);
    var r := b.records[u].room;
    assert m.rooms[r].uploads - {u} == m.rooms[r].uploads;
    assert w.records == m.records && w.rooms == m.rooms && w.index == m.index;
  }

  lemma ResolvesListed(c: Config, b: Board, u: Id)
    requires BoardOk(c, b)
    ensures Resolve(b, u).Some? <==> exists r :: r in b.rooms && b.rooms[r].phase == Open && u in b.rooms[r].uploads
  {
    if Resolve(b, u).Some? {
      assert CodeOk(b, b.index[u]);
    }
    forall r | r in b.rooms && b.rooms[r].phase == Open && u in b.rooms[r].uploads ensures Resolve(b, u).Some? {
      assert RoomOk(b, r) && ListedOk(b, r, u);
    }
  }
}
