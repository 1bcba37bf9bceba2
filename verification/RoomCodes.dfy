/** The manager's map from codes to rooms, and the allocation of unused codes. */
module RoomCodes {
  import opened Basics
  import Decimal
  import Machine = UploadMachine

  const CODE_LOW := 1000
  const CODE_HIGH := 9999
  const DRAWS := 200

  function Codes(lo: nat, hi: nat): set<string> { set k | lo <= k < hi :: Decimal.Print(k) }

  lemma {:induction false} CodesCount(lo: nat, hi: nat)
    requires lo <= hi
    ensures |Codes(lo, hi)| == hi - lo
    decreases hi - lo
  {
    if lo < hi {
      CodesCount(lo, hi - 1);
      var last := Decimal.Print(hi - 1);
      assert Codes(lo, hi) == Codes(lo, hi - 1) + {last};
      forall k | lo <= k < hi - 1 ensures Decimal.Print(k) != last { Decimal.PrintInjective(k, hi - 1); }
      assert last !in Codes(lo, hi - 1);
    } else {
      assert Codes(lo, hi) == {};
    }
  }

  lemma {:induction false} SubsetCount<T>(a: set<T>, b: set<T>)
    requires a <= b
    ensures |a| <= |b|
    decreases |a|
  {
    if a == {} {
    } else {
      var x :| x in a;
      SubsetCount(a - {x}, b - {x});
    }
  }

  /** Fewer rooms than codes leave a code free, whatever else the map holds. */
  lemma SomeCodeIsFree(taken: set<string>)
    requires |taken| < 9000
    ensures exists k :: 1000 <= k <= 9999 && Decimal.Print(k) !in taken
  {
    if forall k | CODE_LOW <= k <= CODE_HIGH :: Decimal.Print(k) in taken {
      CodesCount(CODE_LOW, CODE_HIGH + 1);
      SubsetCount(Codes(CODE_LOW, CODE_HIGH + 1), taken);
    }
  }

  predicate Named(wanted: Option<string>) { wanted.Some? && wanted.value != "" }

  class RoomManager {
    const maxRooms: nat
    var rooms: map<string, Id>

    constructor (maxRooms: nat)
      ensures rooms == map[] && this.maxRooms == maxRooms
    {
      this.maxRooms := maxRooms;
      rooms := map[];
    }

    /**
     200 random draws, then every code in order. Below the cap the search always succeeds:
     the raise after both loops cannot be reached.
     */
    method AllocateCode(draws: nat -> nat) returns (code: Option<string>)
      requires maxRooms <= 9000
      ensures code.None? <==> |rooms| >= maxRooms
      ensures code.Some? ==>
                code.value !in rooms && exists k :: 1000 <= k <= 9999 && code.value == Decimal.Print(k)
    {
      if |rooms| >= maxRooms { return None; }
      var span := CODE_HIGH - CODE_LOW + 1;
      for i := 0 to DRAWS {
        var k := CODE_LOW + draws(i) % span;
        if Decimal.Print(k) !in rooms { return Some(Decimal.Print(k)); }
      }
      for candidate := CODE_LOW to CODE_HIGH + 1
        invariant forall k | CODE_LOW <= k < candidate :: Decimal.Print(k) in rooms
      {
        if Decimal.Print(candidate) !in rooms { return Some(Decimal.Print(candidate)); }
      }
      assert |rooms.Keys| == |rooms|;
      SomeCodeIsFree(rooms.Keys);
      assert false;
    }

    /** `create` up to its directories: `room` is the new instance. An empty code counts as none. */
    method Create(wanted: Option<string>, draws: nat -> nat, room: Id) returns (code: Option<string>)
      requires maxRooms <= 9000
      modifies this
      ensures code.None? <==> |old(rooms)| >= maxRooms && (!Named(wanted) || wanted.value !in old(rooms))
      ensures code.Some? ==> rooms == old(rooms)[code.value := room]
      ensures code.Some? ==> forall b: Machine.Board | b.codes == old(rooms) ::
                rooms == Machine.Bind(b, room, code.value).codes
      ensures code.None? ==> rooms == old(rooms)
      ensures Named(wanted) && code.Some? ==> code == wanted
      ensures !Named(wanted) && code.Some? ==> code.value !in old(rooms)
      ensures |old(rooms)| <= maxRooms ==> |rooms| <= maxRooms
    {
      code := wanted;
      if code.None? || code.value == "" {
        code := AllocateCode(draws);
        if code.None? { return; }
      }
      if |rooms| >= maxRooms && code.value !in rooms { return None; }
      BindCount(rooms, code.value, room);
      rooms := rooms[code.value := room];
    }

    /** `get_or_create`; `joinable` tells which instances can be joined. */
    method GetOrCreate(wanted: string, joinable: set<Id>, draws: nat -> nat, instance: Id) returns (room: Option<Id>,
        created: bool)
      requires maxRooms <= 9000 && |rooms| <= maxRooms && wanted != ""
      modifies this
      ensures |rooms| <= maxRooms
      ensures !created <==> room.None? || (wanted in old(rooms) && old(rooms)[wanted] in joinable)
      ensures !created ==> rooms == old(rooms)
      ensures !created && room.Some? ==> room == Some(old(rooms)[wanted])
      ensures created ==> room == Some(instance) && rooms == old(rooms)[wanted := instance]
      ensures room.None? ==> |rooms| >= maxRooms && wanted !in rooms
    {
      if wanted in rooms && rooms[wanted] in joinable { return Some(rooms[wanted]), false; }
      var code := Create(Some(wanted), draws, instance);
      if code.None? { return None, false; }
      return Some(instance), true;
    }

    /** `_begin_closing`: the code is dropped, unless it already leads to another instance. */
    method BeginClosing(code: string, room: Id)
      modifies this
      ensures code in rooms ==> rooms[code] != room
      ensures forall other | other != code || (code in old(rooms) && old(rooms)[code] != room) ::
                (other in rooms <==> other in old(rooms)) && (other in rooms ==> rooms[other] == old(rooms)[other])
      ensures |rooms| <= |old(rooms)|
      ensures forall b: Machine.Board, t: Id | b.codes == old(rooms) && Machine.RoomAt(b, room).code == code ::
                rooms == Machine.Unbind(b, room, t).codes
    {
      if code in rooms && rooms[code] == room {
        UnbindCount(rooms, code);
        rooms := rooms - {code};
      }
    }
  }

  lemma BindCount(rooms: map<string, Id>, code: string, room: Id)
    ensures |rooms[code := room]| == if code in rooms then |rooms| else |rooms| + 1
  {
    var after := rooms[code := room];
    assert |after| == |after.Keys| && |rooms| == |rooms.Keys|;
    assert after.Keys == rooms.Keys + {code};
  }

  lemma UnbindCount(rooms: map<string, Id>, code: string)
    requires code in rooms
    ensures |rooms - {code}| == |rooms| - 1
  {
    assert |rooms - {code}| == |(rooms - {code}).Keys| && |rooms| == |rooms.Keys|;
    assert (rooms - {code}).Keys == rooms.Keys - {code};
  }
}
