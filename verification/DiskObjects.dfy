/** The reservation ledger and the budgeted disk as objects, proved against the vault's steps. */
module DiskObjects {
  import opened Basics
  import opened MapSums
  import opened Vault
  import opened UploadMachine

  class ReservationLedger {
    const headroom: nat
    var reservations: map<Id, nat>

    constructor (headroom: nat)
      ensures reservations == map[] && this.headroom == headroom
    {
      this.headroom := headroom;
      reservations := map[];
    }

    method ReservedBytes() returns (total: nat)
      ensures total == Sum(reservations)
    {
      total := 0;
      var rest := reservations;
      while rest.Keys != {}
        invariant rest.Keys <= reservations.Keys && forall u | u in rest :: rest[u] == reservations[u]
        invariant total + Sum(rest) == Sum(reservations)
        decreases |rest.Keys|
      {
        var u :| u in rest.Keys;
        SumSplit(rest, u);
        total := total + rest[u];
        assert (rest - {u}).Keys == rest.Keys - {u};
        rest := rest - {u};
      }
      assert rest == map[];
    }

    /** `_available_locked`, from the reading of free space that the lock's holder awaited. */
    method AvailableLocked(free: int) returns (available: nat)
      ensures available == Max(0, free - Sum(reservations) - headroom)
    {
      var reserved := ReservedBytes();
      available := if free - reserved - headroom < 0 then 0 else free - reserved - headroom;
    }

    /** Returns what was available when the request is denied. */
    method Reserve(u: Id, size: nat, free: int) returns (denied: Option<nat>)
      modifies this
      ensures denied.Some? <==> size > Max(0, free - Sum(old(reservations)) - headroom)
      ensures denied.Some? ==> denied.value < size && reservations == old(reservations)
      ensures denied.None? ==> reservations == old(reservations)[u := size]
      ensures denied.None? && size > 0 ==> Sum(reservations) + headroom <= free
      ensures forall c: Config, v: Vault | v.ledger == old(reservations) && c.headroom == headroom
                && v.hold.Ready? && v.hold.reading == free ::
                (denied.None? <==> Grants(c, v, size)) && reservations == Decide(c, v, u, size).ledger
    {
      SumPut(reservations, u, size);
      var available := AvailableLocked(free);
      if size > available { return Some(available); }
      reservations := reservations[u := size];
      denied := None;
    }

    method ReleaseUpload(u: Id)
      modifies this
      ensures reservations == old(reservations) - {u}
      ensures forall v: Vault | v.ledger == old(reservations) :: reservations == Release(v, u).ledger
    {
      if u in reservations { reservations := reservations - {u}; }
    }

    method ShrinkUpload(u: Id, remaining: int)
      modifies this
      ensures reservations ==
              if u in old(reservations) then old(reservations)[u := Max(0, remaining)] else old(reservations)
      ensures forall v: Vault | v.ledger == old(reservations) :: reservations == Shrink(v, u, remaining).ledger
    {
      if u in reservations { reservations := reservations[u := if remaining < 0 then 0 else remaining]; }
    }

    /** The re-check of an upload in progress: the machine's step aborts it exactly when this says so. */
    method HeadroomBreached(free: int) returns (breached: bool)
      ensures breached <==> free < headroom
      ensures forall c: Config, s: State, t: Id, u: Id, ch: Choice | c.headroom == headroom ::
                PutStep(c, s, t, Rechecked(u, free), ch) ==
                if breached then Go(s, t, AbortNow(s.board, u, t), s.vault, Releasing(u, Breached))
                else Go(s, t, s.board, s.vault, Streaming(u))
    {
      breached := free < headroom;
    }
  }

  // ------------------------------------------------------------------
  // The directory walk
  // ------------------------------------------------------------------

  /** What a scan finds; entries that vanish under it, and anything not regular, count for nothing. */
  datatype Entry = Directory(entries: seq<Entry>) | Regular(size: nat) | Other

  function Bytes(e: Entry): nat
    decreases e, 0
  {
    match e
    case Directory(entries) => BytesOf(entries)
    case Regular(size) => size
    case Other => 0
  }

  function BytesOf(es: seq<Entry>): nat
    decreases es, 1
  {
    if es == [] then 0 else Bytes(es[0]) + BytesOf(es[1..])
  }

  /** What a walk from `root` finds: nothing, if it is not a directory that can be opened. */
  function Walked(root: Entry): nat { if root.Directory? then Bytes(root) else 0 }

  function Nodes(e: Entry): nat
    decreases e, 0
  {
    if e.Directory? then 1 + NodesOf(e.entries) else 1
  }

  function NodesOf(es: seq<Entry>): nat
    decreases es, 1
  {
    if es == [] then 0 else Nodes(es[0]) + NodesOf(es[1..])
  }

  lemma {:induction false} OfAppend(es: seq<Entry>, e: Entry)
    ensures BytesOf(es + [e]) == BytesOf(es) + Bytes(e) && NodesOf(es + [e]) == NodesOf(es) + Nodes(e)
  {
    if es == [] {
      assert (es + [e])[1..] == [];
    } else {
      assert (es + [e])[1..] == es[1..] + [e];
      OfAppend(es[1..], e);
    }
  }

  predicate AllDirectories(es: seq<Entry>) { forall i | 0 <= i < |es| :: es[i].Directory? }

  /** One directory of the walk: files are counted, directories go on the stack. */
  method Scan(entries: seq<Entry>, stack: seq<Entry>) returns (sum: nat, more: seq<Entry>)
    requires AllDirectories(stack)
    ensures AllDirectories(more)
    ensures sum + BytesOf(more) == BytesOf(stack) + BytesOf(entries)
    ensures NodesOf(more) <= NodesOf(stack) + NodesOf(entries)
  {
    sum, more := 0, stack;
    var i := 0;
    while i < |entries|
      invariant 0 <= i <= |entries| && AllDirectories(more)
      invariant sum + BytesOf(more) + BytesOf(entries[i..]) == BytesOf(stack) + BytesOf(entries)
      invariant NodesOf(more) + NodesOf(entries[i..]) <= NodesOf(stack) + NodesOf(entries)
    {
      var entry := entries[i];
      assert entries[i..][1..] == entries[i + 1..];
      if entry.Directory? {
        OfAppend(more, entry);
        more := more + [entry];
      } else if entry.Regular? {
        sum := sum + entry.size;
      }
      i := i + 1;
    }
    assert entries[i..] == [];
  }

  /** `_measure`: an explicit stack of directories still to scan. */
  method Measure(root: Entry) returns (total: nat)
    ensures total == Walked(root)
  {
    total := 0;
    if !root.Directory? { return; }
    var stack := [root];
    while stack != []
      invariant AllDirectories(stack) && total + BytesOf(stack) == Bytes(root)
      decreases NodesOf(stack)
    {
      var last, below := stack[|stack| - 1], stack[..|stack| - 1];
      OfAppend(below, last);
      assert stack == below + [last];
      var sum, more := Scan(last.entries, below);
      total, stack := total + sum, more;
    }
  }

  class BudgetedDiskSpace {
    const budget: nat
    const ttlMs: nat
    var cachedBytes: nat
    var cachedAt: Option<nat>

    constructor (budget: nat, ttlMs: nat)
      requires budget > 0
      ensures this.budget == budget && this.ttlMs == ttlMs && cachedAt == None
    {
      this.budget, this.ttlMs := budget, ttlMs;
      cachedBytes, cachedAt := 0, None;
    }

    predicate Fresh(now: nat)
      reads this
    {
      cachedAt.Some? && now - cachedAt.value < ttlMs
    }

    /** The figure was measured less than the TTL ago, by this call or by the one that filled the cache. */
    method BytesUsed(now: nat, root: Entry) returns (used: nat)
      modifies this
      ensures used == cachedBytes && (Fresh(now) || ttlMs == 0)
      ensures old(Fresh(now)) ==>
                used == old(cachedBytes) && cachedBytes == old(cachedBytes) && cachedAt == old(cachedAt)
      ensures !old(Fresh(now)) ==> used == Walked(root) && cachedBytes == used && cachedAt == Some(now)
      ensures forall c: Config, v: Vault | c.ttlMs == ttlMs && c.budget == budget
                && (v.cache.Some? <==> old(cachedAt).Some?)
                && (v.cache.Some? ==>
                      v.cache.value.at == old(cachedAt).value && v.cache.value.bytes == old(cachedBytes)) ::
                used == Measured(c, v, now, Walked(root)).bytes
    {
      if cachedAt.Some? && now - cachedAt.value < ttlMs { return cachedBytes; }
      used := Measure(root);
      cachedBytes := used;
      cachedAt := Some(now);
    }

    method BytesAvailable(realFree: int, now: nat, root: Entry) returns (available: nat)
      modifies this
      ensures available == Max(0, Min(realFree, budget - (if old(Fresh(now)) then old(cachedBytes) else Walked(root))))
    {
      var used := BytesUsed(now, root);
      available := Max(0, Min(realFree, budget - used));
    }
  }
}
