/**
 The byte accounting behind an upload: what is on the disk, what the reservation
 ledger promises, and what the ledger's lock is being held for.

 Every function here is one step between two suspension points. The lock covers
 "read free space, subtract, compare, record", and the free-space reading is taken
 in a thread, so it may be out of date by the time it is compared.
 */
module Vault {
  import opened Basics
  import opened MapSums

  /** budget == 0 means that no application budget wraps the volume. */
  datatype Config = Config(
    capacity: nat, budget: nat, headroom: nat, ttlMs: nat, staleMs: nat, maxRooms: nat)

  datatype Path = Part(room: Id, upload: Id) | Stored(room: Id, file: Id)

  /** What an upload declared, and (history) how many bytes of it have reached the disk. */
  datatype Terms = Terms(declared: nat, landed: nat)

  /** The ledger's lock, with the readings its holder has taken so far. */
  datatype Hold =
    | Unlocked
    | Probing(task: Id)
    | ReadFree(task: Id, free: int)
    | Ready(task: Id, reading: int, mark: int, at: nat)

  /**
   The budget's cached usage, when it was measured, and (history) how many of the bytes landed
   by now it accounts for: all that had landed by then, less what the walk missed.
   */
  datatype Cache = Cache(bytes: nat, at: nat, mark: int)

  /**
   `landed`, `stray` and `debt` are history variables: all bytes ever appended; those
   appended without cover from a reservation; the most landed bytes that a usage figure did
   not account for when an admission relied on it; and the most by which a walk overstated
   the usage. `mark` and `at` of `Ready` are those of the figure behind the reading.
   */
  datatype Vault = Vault(
    disk: map<Path, nat>,
    ledger: map<Id, nat>,
    terms: map<Id, Terms>,
    hold: Hold,
    cache: Option<Cache>,
    landed: nat, stray: nat, debt: nat, excess: nat)

  const EMPTY_VAULT := Vault(map[], map[], map[], Unlocked, None, 0, 0, 0, 0)

  function TermsOf(v: Vault, u: Id): Terms {
    if u in v.terms then v.terms[u] else Terms(0, 0)
  }

  /** What an upload may still write under its declaration. */
  function Owed(v: Vault, u: Id): nat {
    Max(0, TermsOf(v, u).declared - TermsOf(v, u).landed)
  }

  /** The files in a room's directory. */
  function InRoom(disk: map<Path, nat>, r: Id): set<Path> { set p | p in disk && p.room == r }

  function SizeAt(v: Vault, p: Path): nat {
    if p in v.disk then v.disk[p] else 0
  }

  ghost function Used(v: Vault): nat { Sum(v.disk) }
  ghost function Reserved(v: Vault): nat { Sum(v.ledger) }
  function Owing(v: Vault): map<Id, nat> { map u | u in v.ledger :: Owed(v, u) }

  /** The sum over reserved uploads of declared bytes that have not landed. */
  ghost function Outstanding(v: Vault): nat { Sum(Owing(v)) }
  ghost function Free(c: Config, v: Vault): int { c.capacity - Used(v) }

  /** Bytes used or promised, not counting the stray ones. Appending never changes it. */
  ghost function Volume(v: Vault): int { Used(v) + Outstanding(v) - v.stray }

  // ------------------------------------------------------------------
  // Steps
  // ------------------------------------------------------------------

  function Acquire(v: Vault, t: Id): Vault { v.(hold := Probing(t)) }

  ghost function ReadVolume(c: Config, v: Vault): Vault
    requires v.hold.Probing?
  {
    v.(hold := ReadFree(v.hold.task, Free(c, v)))
  }

  function CacheFresh(c: Config, v: Vault, now: nat): bool {
    v.cache.Some? && now - v.cache.value.at < c.ttlMs
  }

  /**
   The usage a probe sees at time `now`: the cached figure, or the one a new walk comes to. The
   walk runs beside other steps, so `figure` may be anything; history records how far it is off.
   */
  ghost function Measured(c: Config, v: Vault, now: nat, figure: nat): Cache {
    if CacheFresh(c, v, now) then v.cache.value
    else Cache(figure, now, v.landed - Max(0, Used(v) - figure))
  }

  function Reading(c: Config, free: int, used: nat): int {
    if c.budget == 0 then free else Max(0, Min(free, c.budget - used))
  }

  ghost function WithUsage(c: Config, v: Vault, now: nat, figure: nat): Vault {
    if c.budget == 0 then v
    else v.(
      cache := Some(Measured(c, v, now, figure)),
      excess := if CacheFresh(c, v, now) then v.excess else Max(v.excess, figure - Used(v)))
  }

  ghost function ReadUsage(c: Config, v: Vault, now: nat, figure: nat): Vault
    requires v.hold.ReadFree?
  {
    var m := Measured(c, v, now, figure);
    WithUsage(c, v, now, figure).(hold := Ready(v.hold.task, Reading(c, v.hold.free, m.bytes), m.mark, m.at))
  }

  ghost function Available(c: Config, v: Vault, reading: int): nat {
    Max(0, reading - Reserved(v) - c.headroom)
  }

  /** The comparison and the record, made under the lock, which is then given back. */
  ghost function Decide(c: Config, v: Vault, u: Id, size: nat): Vault
    requires v.hold.Ready?
  {
    if size > Available(c, v, v.hold.reading) then v.(hold := Unlocked)
    else v.(
      hold := Unlocked,
      ledger := v.ledger[u := size],
      terms := v.terms[u := Terms(size, 0)],
      debt := if c.budget == 0 then v.debt else Max(v.debt, v.landed - v.hold.mark))
  }

  ghost predicate Grants(c: Config, v: Vault, size: nat)
    requires v.hold.Ready?
  {
    size <= Available(c, v, v.hold.reading)
  }

  /** The part of an append of n bytes to `u` that its reservation covers. */
  function Covered(v: Vault, u: Id, n: nat): nat {
    if u in v.ledger then Min(n, Owed(v, u)) else 0
  }

  function Append(v: Vault, p: Path, u: Id, n: nat): Vault {
    var was := TermsOf(v, u);
    v.(disk := v.disk[p := SizeAt(v, p) + n],
       terms := v.terms[u := was.(landed := was.landed + n)],
       landed := v.landed + n,
       stray := v.stray + n - Covered(v, u, n))
  }

  function Shrink(v: Vault, u: Id, remaining: int): Vault {
    if u in v.ledger then v.(ledger := v.ledger[u := Max(0, remaining)]) else v
  }

  function Release(v: Vault, u: Id): Vault { v.(ledger := v.ledger - {u}) }

  function Remove(v: Vault, ps: set<Path>): Vault { v.(disk := v.disk - ps) }

  function Rename(v: Vault, p: Path, q: Path): Vault
    requires p in v.disk
  {
    v.(disk := (v.disk - {p})[q := v.disk[p]])
  }

  // ------------------------------------------------------------------
  // The accounting invariant
  // ------------------------------------------------------------------

  /** A free-space figure taken under the lock is still safe to admit against. */
  ghost predicate FreeSound(c: Config, v: Vault, free: int) {
    free + Volume(v) <= c.capacity + Reserved(v)
  }

  ghost predicate HoldSound(c: Config, v: Vault) {
    match v.hold
    case Unlocked => true
    case Probing(_) => true
    case ReadFree(_, free) => FreeSound(c, v, free)
    case Ready(_, reading, mark, _) =>
      && mark <= v.landed
      && (reading > 0 ==>
            && FreeSound(c, v, reading)
            && (c.budget != 0 ==> reading + Volume(v) <= c.budget + Reserved(v) + v.landed - mark))
  }

  ghost predicate CacheSound(v: Vault) {
    v.cache.Some? ==>
      && v.cache.value.mark <= v.landed
      && Used(v) <= v.cache.value.bytes + v.landed - v.cache.value.mark
  }

  ghost predicate Covers(v: Vault) {
    forall u | u in v.ledger :: u in v.terms && Owed(v, u) <= v.ledger[u]
  }

  /** Admission never promised more than the volume, or the budget plus its debt, can take. */
  ghost predicate Bounded(c: Config, v: Vault) {
    && Volume(v) <= Max(0, c.capacity - c.headroom)
    && (c.budget != 0 ==> Volume(v) <= Max(0, c.budget - c.headroom) + v.debt)
  }

  ghost predicate Sound(c: Config, v: Vault) {
    Covers(v) && HoldSound(c, v) && CacheSound(v) && Bounded(c, v)
  }

  lemma OutstandingIsReserved(v: Vault)
    requires Covers(v)
    ensures Outstanding(v) <= Reserved(v)
  {
    SumMonotone(Owing(v), v.ledger);
  }

  lemma AcquireSound(c: Config, v: Vault, t: Id)
    requires Sound(c, v)
    ensures Sound(c, Acquire(v, t))
  {
    assert Owing(Acquire(v, t)) == Owing(v);
  }

  lemma ReadVolumeSound(c: Config, v: Vault)
    requires Sound(c, v) && v.hold.Probing?
    ensures Sound(c, ReadVolume(c, v))
  {
    OutstandingIsReserved(v);
    assert Owing(ReadVolume(c, v)) == Owing(v);
  }

  lemma UsageSound(c: Config, v: Vault, now: nat, figure: nat)
    requires Sound(c, v)
    ensures var w := WithUsage(c, v, now, figure); Sound(c, w) && Volume(w) == Volume(v)
  {
    assert Owing(WithUsage(c, v, now, figure)) == Owing(v);
  }

  lemma ReadUsageSound(c: Config, v: Vault, now: nat, figure: nat)
    requires Sound(c, v) && v.hold.ReadFree?
    ensures Sound(c, ReadUsage(c, v, now, figure))
  {
    OutstandingIsReserved(v);
    assert Owing(ReadUsage(c, v, now, figure)) == Owing(v);
  }

  /** A grant raises the volume by the promised size, and only into space a stale reading vouched for. */
  lemma DecideSound(c: Config, v: Vault, u: Id, size: nat)
    requires Sound(c, v) && v.hold.Ready? && u !in v.terms
    ensures Sound(c, Decide(c, v, u, size))
    ensures Grants(c, v, size) ==> Volume(Decide(c, v, u, size)) == Volume(v) + size
  {
    var w := Decide(c, v, u, size);
    if Grants(c, v, size) {
      GrantOwing(c, v, u, size);
    } else {
      assert Owing(w) == Owing(v);
    }
  }

  lemma GrantOwing(c: Config, v: Vault, u: Id, size: nat)
    requires Covers(v) && v.hold.Ready? && u !in v.terms && Grants(c, v, size)
    ensures Outstanding(Decide(c, v, u, size)) == Outstanding(v) + size
  {
    assert Owing(Decide(c, v, u, size)) == Owing(v)[u := size];
    SumPut(Owing(v), u, size);
  }

  /** The heart of the ledger: bytes that land leave used-plus-outstanding where it was. */
  lemma AppendKeepsVolume(v: Vault, p: Path, u: Id, n: nat)
    ensures Volume(Append(v, p, u, n)) == Volume(v)
  {
    SumPut(v.disk, p, SizeAt(v, p) + n);
    AppendOwing(v, p, u, n);
  }

  lemma AppendOwing(v: Vault, p: Path, u: Id, n: nat)
    ensures Outstanding(Append(v, p, u, n)) == Outstanding(v) - Covered(v, u, n)
  {
    var w := Append(v, p, u, n);
    if u in v.ledger {
      assert Owing(w) == Owing(v)[u := Owed(v, u) - Covered(v, u, n)];
      SumPut(Owing(v), u, Owed(v, u) - Covered(v, u, n));
    } else {
      assert Owing(w) == Owing(v);
    }
  }

  lemma AppendSound(c: Config, v: Vault, p: Path, u: Id, n: nat)
    requires Sound(c, v) && u in v.terms
    ensures Sound(c, Append(v, p, u, n))
  {
    AppendKeepsVolume(v, p, u, n);
    SumPut(v.disk, p, SizeAt(v, p) + n);
  }

  /** Shrinking is safe whenever `remaining` was computed from bytes that really landed. */
  lemma ShrinkSound(c: Config, v: Vault, u: Id, remaining: int)
    requires Sound(c, v) && v.hold.Unlocked?
    requires u in v.terms && v.terms[u].declared - v.terms[u].landed <= remaining
    ensures Sound(c, Shrink(v, u, remaining)) && Volume(Shrink(v, u, remaining)) == Volume(v)
  {
    assert Owing(Shrink(v, u, remaining)) == Owing(v);
  }

  lemma ReleaseSound(c: Config, v: Vault, u: Id)
    requires Sound(c, v) && v.hold.Unlocked?
    ensures Sound(c, Release(v, u)) && Volume(Release(v, u)) <= Volume(v)
  {
    assert Owing(Release(v, u)) == Owing(v) - {u};
    SumDrop(Owing(v), u);
  }

  lemma RemoveSound(c: Config, v: Vault, ps: set<Path>)
    requires Sound(c, v)
    ensures Sound(c, Remove(v, ps)) && Volume(Remove(v, ps)) <= Volume(v)
  {
    assert Owing(Remove(v, ps)) == Owing(v);
    SumDropAll(v.disk, ps);
  }

  /** A rename keeps every byte, except those of a file it replaces. */
  lemma RenameSound(c: Config, v: Vault, p: Path, q: Path)
    requires Sound(c, v) && p in v.disk && p != q
    ensures Sound(c, Rename(v, p, q))
    ensures Volume(Rename(v, p, q)) == Volume(v) - SizeAt(v, q)
  {
    assert Owing(Rename(v, p, q)) == Owing(v);
    SumDrop(v.disk, p);
    SumPut(v.disk - {p}, q, v.disk[p]);
  }

  // ------------------------------------------------------------------
  // Parts and terms
  // ------------------------------------------------------------------

  ghost predicate PartOk(v: Vault, p: Path)
    requires p in v.disk
  {
    p.Part? ==> p.upload in v.terms && v.disk[p] <= v.terms[p.upload].landed
  }

  /** No part is longer than what its upload has landed. */
  ghost predicate PartsOk(v: Vault) { forall p | p in v.disk :: PartOk(v, p) }

  /** Declarations stay, landed bytes only grow. */
  ghost predicate Grown(v: Vault, w: Vault) {
    forall u | u in v.terms ::
      u in w.terms && w.terms[u].declared == v.terms[u].declared && v.terms[u].landed <= w.terms[u].landed
  }

  ghost predicate Moved(v: Vault, w: Vault) { PartsOk(w) && Grown(v, w) }

  lemma RemoveMoved(v: Vault, ps: set<Path>)
    requires PartsOk(v)
    ensures Moved(v, Remove(v, ps))
  {
    forall p | p in Remove(v, ps).disk ensures PartOk(Remove(v, ps), p) { assert PartOk(v, p); }
  }

  lemma RenameMoved(v: Vault, p: Path, q: Path)
    requires PartsOk(v) && p in v.disk && q.Stored?
    ensures Moved(v, Rename(v, p, q))
  {
    forall i | i in Rename(v, p, q).disk ensures PartOk(Rename(v, p, q), i) {
      if i != q { assert PartOk(v, i); }
    }
  }

  lemma AppendMoved(v: Vault, r: Id, u: Id, n: nat)
    requires PartsOk(v) && u in v.terms
    ensures Moved(v, Append(v, Part(r, u), u, n))
    ensures SizeAt(v, Part(r, u)) + n <= Append(v, Part(r, u), u, n).terms[u].landed
  {
    var w := Append(v, Part(r, u), u, n);
    if Part(r, u) in v.disk { assert PartOk(v, Part(r, u)); }
    forall p | p in w.disk ensures PartOk(w, p) {
      if p in v.disk { assert PartOk(v, p); }
    }
  }

  lemma ReleaseMoved(v: Vault, u: Id)
    requires PartsOk(v)
    ensures Moved(v, Release(v, u))
  {
    SameDiskMoved(v, Release(v, u));
  }

  lemma ShrinkMoved(v: Vault, u: Id, remaining: int)
    requires PartsOk(v)
    ensures Moved(v, Shrink(v, u, remaining))
  {
    SameDiskMoved(v, Shrink(v, u, remaining));
  }

  lemma UsageMoved(c: Config, v: Vault, now: nat, figure: nat)
    requires PartsOk(v)
    ensures Moved(v, WithUsage(c, v, now, figure))
  {
    SameDiskMoved(v, WithUsage(c, v, now, figure));
  }

  lemma DecideMoved(c: Config, v: Vault, u: Id, size: nat)
    requires PartsOk(v) && v.hold.Ready? && u !in v.terms
    ensures Moved(v, Decide(c, v, u, size))
    ensures Decide(c, v, u, size).terms.Keys == if Grants(c, v, size) then v.terms.Keys + {u} else v.terms.Keys
  {
    SameDiskMoved(v, Decide(c, v, u, size));
  }

  /** What the bound on the volume says about the disk. */
  lemma SoundMeans(c: Config, v: Vault)
    requires Sound(c, v)
    ensures Free(c, v) + v.stray >= Min(c.headroom, c.capacity) + Outstanding(v)
    ensures c.budget != 0 ==> Used(v) + Outstanding(v) <= Max(0, c.budget - c.headroom) + v.debt + v.stray
  {
  }

  lemma SameDiskMoved(v: Vault, w: Vault)
    requires PartsOk(v) && w.disk == v.disk && Grown(v, w)
    ensures Moved(v, w)
  {
    forall p | p in w.disk ensures PartOk(w, p) { assert PartOk(v, p); }
  }
}
