/**
 What requests come to when storage works and nothing else moves in between: from any reachable
 state, completing, aborting, announcing and deleting end as they promise, byte for byte.
 */
module UploadOutcomes {
  import opened Basics
  import opened MapSums
  import opened Vault
  import opened UploadMachine
  import opened BoardSafety
  import opened UploadSafety
  import opened UploadStanding
  import opened UploadResults

  /** Storage does what it is asked. */
  const Working := Choice(0, 0, 0, true, {})

  /** Storage fails. */
  const Broken := Choice(0, 0, 0, false, {})

  // ------------------------------------------------------------------
  // Completion
  // ------------------------------------------------------------------

  function CompleteEvents(t: Id, u: Id): seq<Event> {
    var go := Resume(t, Working); [CompleteStart(t, u), go, go, go, go, go]
  }

  /** Only u left its room and the index; the room has gained the file; nothing else on the board changed. */
  ghost predicate FileRecorded(b: Board, w: Board, r: Id, u: Id, f: Id, size: nat)
    requires r in b.rooms
  {
    && w.codes == b.codes && w.index == b.index - {u} && w.records.Keys == b.records.Keys
    && w.rooms == b.rooms[r := b.rooms[r].(files := b.rooms[r].files[f := size], uploads := b.rooms[r].uploads - {u})]
    && (forall i | i in b.records && i != u :: w.records[i] == b.records[i])
  }

  /** A completing request after its size check. */
  lemma SizedUp(c: Config, s: State, t: Id, u: Id)
    requires t !in s.tasks && Resolve(s.board, u).Some? && u in s.board.records
    ensures var e, go := CompleteStart(t, u), Resume(t, Working);
            var b := SetRecord(s.board, u, s.board.records[u].(client := t));
            && Legal(c, s, [e, go])
            && After(c, s, [e, go]) == Go(s, t, b, s.vault, Sized(u, SizeAt(s.vault, PartOf(b, u))))
  {
    hide Legal, After, MayStart, Step, Resolve;
    var e, go := CompleteStart(t, u), Resume(t, Working);
    SizingSteps(c, s, t, u);
    NothingRun(c, s);
    assert [] + [e] == [e] && [e] + [go] == [e, go];
    LegalMore(c, s, [], e); LegalMore(c, s, [e], go);
  }

  lemma SizingSteps(c: Config, s: State, t: Id, u: Id)
    requires t !in s.tasks && Resolve(s.board, u).Some? && u in s.board.records
    ensures var e, go := CompleteStart(t, u), Resume(t, Working);
            var b := SetRecord(s.board, u, s.board.records[u].(client := t));
            && MayStart(c, s, e) && MayStart(c, Step(c, s, e), go)
            && Step(c, Step(c, s, e), go) == Go(s, t, b, s.vault, Sized(u, SizeAt(s.vault, PartOf(b, u))))
  {
    hide Resolve;
    var b := SetRecord(s.board, u, s.board.records[u].(client := t));
    assert Begin(s, CompleteStart(t, u)) == Go(s, t, b, s.vault, Sizing(u));
  }

  /** One more step of a completing or aborting request. */
  lemma EndGoes(c: Config, s: State, es: seq<Event>, t: Id, ch: Choice)
    requires Legal(c, s, es)
    requires var m := After(c, s, es);
             t in m.tasks && m.tasks[t].IsEnd() && (m.tasks[t].Releasing? ==> m.vault.hold.Unlocked?)
    ensures Legal(c, s, es + [Resume(t, ch)])
    ensures var m := After(c, s, es); After(c, s, es + [Resume(t, ch)]) == EndStep(m, t, m.tasks[t], ch)
  {
    hide Legal, After, EndStep;
    LegalMore(c, s, es, Resume(t, ch));
  }

  /** The size is right: renamed, recorded, taken out, and its reservation given back. */
  lemma CommitSteps(s: State, t: Id, u: Id, size: nat)
    requires t in s.tasks && s.tasks[t] == Sized(u, size) && u in s.board.records
    requires TermsOf(s.vault, u).declared == size && Find(s.vault.disk, PartOf(s.board, u)) == Some(size)
    ensures var r, f := s.board.records[u].room, s.board.records[u].file;
            var v := s.vault.(disk := (s.vault.disk - {Part(r, u)})[Stored(r, f) := size]);
            var s1 := EndStep(s, t, s.tasks[t], Working);
            && s1 == Go(s, t, s.board, s.vault, Committing(u))
            && EndStep(s1, t, Committing(u), Working) == Go(s, t, s.board, v, Renamed(u))
  {
    assert Go(Go(s, t, s.board, s.vault, Committing(u)), t, s.board, s.vault, Renamed(u)) ==
           Go(s, t, s.board, s.vault, Renamed(u));
  }

  lemma RecordSteps(s: State, t: Id, u: Id)
    requires t in s.tasks && s.tasks[t] == Renamed(u) && u in s.board.records
    requires s.board.records[u].room in s.board.rooms
    ensures var r, f, size := s.board.records[u].room, s.board.records[u].file, TermsOf(s.vault, u).declared;
            var s1 := EndStep(s, t, s.tasks[t], Working);
            && t in s1.tasks && s1.tasks[t] == Releasing(u, Completed) && s1.vault == s.vault
            && var w := EndStep(s1, t, Releasing(u, Completed), Working);
            && FileRecorded(s.board, w.board, r, u, f, size)
            && w.vault == s.vault.(ledger := s.vault.ledger - {u}) && w.tasks == s.tasks - {t} && w.now == s.now
  {
    assert s.tasks[t := Releasing(u, Completed)] - {t} == s.tasks - {t};
  }

  /**
   Completing: from any reachable state, an upload that can be found, with a part of the declared
   size, ends as a stored file of that size, recorded in its room; the part is gone, the upload is in
   no room, not in the index and not in the ledger, and nothing else has changed.
   */
  lemma CompletionStores(c: Config, s: State, es: seq<Event>, t: Id, u: Id, r: Id)
    requires s == START && Legal(c, s, es)
    requires var m := After(c, s, es);
             && Resolve(m.board, u) == Some(r) && t !in m.tasks && m.vault.hold.Unlocked?
             && Find(m.vault.disk, Part(r, u)) == Some(TermsOf(m.vault, u).declared)
    ensures var m := After(c, s, es);
            && Legal(c, m, CompleteEvents(t, u)) && u in m.board.records && r in m.board.rooms
            && var w, f := After(c, m, CompleteEvents(t, u)), m.board.records[u].file;
            && var size := TermsOf(m.vault, u).declared;
            && FileRecorded(m.board, w.board, r, u, f, size)
            && w.vault == m.vault.(disk := (m.vault.disk - {Part(r, u)})[Stored(r, f) := size],
                                   ledger := m.vault.ledger - {u})
            && w.tasks == m.tasks && w.now == m.now
  {
    hide Legal, After, EndStep, Safe, Resolve, FileRecorded, MayStart, Step, Standing, Begin;
    var m := After(c, s, es);
    Arrives(c, s, es); Resolved(c, m, u);
    var e, go := CompleteStart(t, u), Resume(t, Working);
    assert [e, go] + [go] == [e, go, go] && [e, go, go] + [go] == [e, go, go, go];
    assert [e, go, go, go] + [go] == [e, go, go, go, go] && [e, go, go, go, go] + [go] == CompleteEvents(t, u);
    SizedUp(c, m, t, u);
    var s2 := After(c, m, [e, go]);
    CommitSteps(s2, t, u, TermsOf(m.vault, u).declared);
    EndGoes(c, m, [e, go], t, Working);
    EndGoes(c, m, [e, go, go], t, Working);
    var s4 := After(c, m, [e, go, go, go]);
    RecordSteps(s4, t, u);
    EndGoes(c, m, [e, go, go, go], t, Working);
    EndGoes(c, m, [e, go, go, go, go], t, Working);
    RecordedSince(m.board, s4.board, After(c, m, CompleteEvents(t, u)).board, r, u, t);
    assert s4.tasks - {t} == m.tasks;
  }

  /** That the request is remembered as the upload's last makes no difference. */
  lemma RecordedSince(b: Board, m: Board, w: Board, r: Id, u: Id, t: Id)
    requires u in b.records && r in b.rooms && m == SetRecord(b, u, b.records[u].(client := t))
    ensures forall f, size | FileRecorded(m, w, r, u, f, size) :: FileRecorded(b, w, r, u, f, size)
  {
  }

  /** Nothing has changed but the history of who requested last. */
  ghost predicate Unchanged(s: State, w: State, u: Id) {
    && u in s.board.records && u in w.board.records
    && w == s.(board := SetRecord(s.board, u, s.board.records[u].(client := w.board.records[u].client)))
  }

  /** A part of any other size, or storage that fails, ends the request with nothing changed. */
  lemma CompletionRefuses(c: Config, s: State, es: seq<Event>, t: Id, u: Id, r: Id)
    requires s == START && Legal(c, s, es)
    requires var m := After(c, s, es); Resolve(m.board, u) == Some(r) && t !in m.tasks
    ensures var m, e, go := After(c, s, es), CompleteStart(t, u), Resume(t, Working);
            && (SizeAt(m.vault, Part(r, u)) != TermsOf(m.vault, u).declared ==>
                  Legal(c, m, [e, go, go]) && Unchanged(m, After(c, m, [e, go, go]), u))
            && (SizeAt(m.vault, Part(r, u)) == TermsOf(m.vault, u).declared ==>
                  var run := [e, go, go, Resume(t, Broken)];
                  Legal(c, m, run) && Unchanged(m, After(c, m, run), u))
  {
    hide Legal, After, EndStep, Safe, Resolve, MayStart, Step, Standing, Unchanged;
    var m := After(c, s, es);
    Arrives(c, s, es); Resolved(c, m, u);
    var e, go := CompleteStart(t, u), Resume(t, Working);
    assert [e, go] + [go] == [e, go, go] && [e, go, go] + [Resume(t, Broken)] == [e, go, go, Resume(t, Broken)];
    SizedUp(c, m, t, u);
    EndGoes(c, m, [e, go], t, Working);
    var s2 := After(c, m, [e, go]);
    RefusedSteps(m, s2, t, u, r);
    if SizeAt(m.vault, Part(r, u)) == TermsOf(m.vault, u).declared { EndGoes(c, m, [e, go, go], t, Broken); }
  }

  lemma RefusedSteps(m: State, s: State, t: Id, u: Id, r: Id)
    requires u in m.board.records && m.board.records[u].room == r && t !in m.tasks
    requires var b := SetRecord(m.board, u, m.board.records[u].(client := t));
             s == Go(m, t, b, m.vault, Sized(u, SizeAt(m.vault, PartOf(b, u))))
    ensures var w := EndStep(s, t, s.tasks[t], Working);
            if SizeAt(m.vault, Part(r, u)) == TermsOf(m.vault, u).declared
            then t in w.tasks && w.tasks[t] == Committing(u) && Unchanged(m, EndStep(w, t, Committing(u), Broken), u)
            else Unchanged(m, w, u)
  {
    var w := EndStep(s, t, s.tasks[t], Working);
    assert s.tasks - {t} == m.tasks;
    if SizeAt(m.vault, Part(r, u)) == TermsOf(m.vault, u).declared { assert w.tasks - {t} == m.tasks; }
  }

  // ------------------------------------------------------------------
  // Abort
  // ------------------------------------------------------------------

  /** From m to w upload u of room r was erased, and nothing else has changed. */
  ghost predicate Erased(m: State, w: State, u: Id, r: Id)
    requires r in m.board.rooms
  {
    && u in w.board.records && w.board.records[u].aborted
    && w.board.codes == m.board.codes && w.board.index == m.board.index - {u}
    && w.board.rooms == m.board.rooms[r := m.board.rooms[r].(uploads := m.board.rooms[r].uploads - {u})]
    && w.board.records.Keys == m.board.records.Keys
    && (forall i | i in m.board.records && i != u :: w.board.records[i] == m.board.records[i])
    && w.vault == m.vault.(disk := m.vault.disk - {Part(r, u)}, ledger := m.vault.ledger - {u})
    && w.tasks == m.tasks && w.now == m.now
  }

  /**
   Aborting: the upload is marked, in no room, not in the index and not in the ledger, its part is
   gone, and every other upload, part, file and reservation is as it was.
   */
  lemma AbortErases(c: Config, s: State, es: seq<Event>, t: Id, u: Id, r: Id)
    requires s == START && Legal(c, s, es)
    requires var m := After(c, s, es); Resolve(m.board, u) == Some(r) && t !in m.tasks && m.vault.hold.Unlocked?
    ensures var m, e, go := After(c, s, es), AbortStart(t, u), Resume(t, Working);
            && Legal(c, m, [e, go, go]) && r in m.board.rooms
            && Erased(m, After(c, m, [e, go, go]), u, r)
  {
    hide Legal, After, EndStep, Safe, Resolve, MayStart, Step, Standing, Erased, Begin;
    var m := After(c, s, es);
    Arrives(c, s, es); Resolved(c, m, u);
    var e, go := AbortStart(t, u), Resume(t, Working);
    assert [] + [e] == [e] && [e] + [go] == [e, go] && [e, go] + [go] == [e, go, go];
    NothingRun(c, m);
    AbortStarts(c, m, t, u);
    LegalMore(c, m, [], e);
    AbortSteps(m, t, u, r);
    EndGoes(c, m, [e], t, Working);
    EndGoes(c, m, [e, go], t, Working);
  }

  lemma AbortStarts(c: Config, s: State, t: Id, u: Id)
    requires Resolve(s.board, u).Some? && t !in s.tasks
    ensures MayStart(c, s, AbortStart(t, u)) && Step(c, s, AbortStart(t, u)) == Begin(s, AbortStart(t, u))
  {
    hide Begin, Resolve;
  }

  lemma AbortSteps(m: State, t: Id, u: Id, r: Id)
    requires u in m.board.records && m.board.records[u].room == r && r in m.board.rooms && t !in m.tasks
    ensures var s1 := Begin(m, AbortStart(t, u));
            && t in s1.tasks && s1.tasks[t] == Releasing(u, Aborted) && s1.vault.hold == m.vault.hold
            && var s2 := EndStep(s1, t, Releasing(u, Aborted), Working);
            && t in s2.tasks && s2.tasks[t] == Discarding(u, Aborted)
            && Erased(m, EndStep(s2, t, Discarding(u, Aborted), Working), u, r)
  {
    var s1 := Begin(m, AbortStart(t, u));
    var s2 := EndStep(s1, t, Releasing(u, Aborted), Working);
    assert s2.tasks - {t} == m.tasks;
  }

  // ------------------------------------------------------------------
  // Deleting a file
  // ------------------------------------------------------------------

  /** Deleting a file takes it out of its room and off the disk, and nothing else. */
  lemma DeletionErases(c: Config, s: State, t: Id, r: Id, f: Id)
    requires t !in s.tasks && r in s.board.rooms && f in s.board.rooms[r].files
    ensures var e, go := DeleteFile(t, r, f), Resume(t, Working);
            && Legal(c, s, [e, go])
            && var room := s.board.rooms[r];
            After(c, s, [e, go]) ==
            s.(board := s.board.(rooms := s.board.rooms[r := room.(files := room.files - {f})]),
               vault := s.vault.(disk := s.vault.disk - {Stored(r, f)}))
  {
    hide Legal, After, MayStart, Step;
    var e, go := DeleteFile(t, r, f), Resume(t, Working);
    NothingRun(c, s);
    DeletionSteps(c, s, t, r, f);
    assert [] + [e] == [e] && [e] + [go] == [e, go];
    LegalMore(c, s, [], e); LegalMore(c, s, [e], go);
  }

  lemma DeletionSteps(c: Config, s: State, t: Id, r: Id, f: Id)
    requires t !in s.tasks && r in s.board.rooms && f in s.board.rooms[r].files
    ensures var e, go := DeleteFile(t, r, f), Resume(t, Working);
            && MayStart(c, s, e) && MayStart(c, Step(c, s, e), go)
            && var room := s.board.rooms[r];
            Step(c, Step(c, s, e), go) ==
            s.(board := s.board.(rooms := s.board.rooms[r := room.(files := room.files - {f})]),
               vault := s.vault.(disk := s.vault.disk - {Stored(r, f)}))
  {
    assert s.tasks[t := Unlinking(r, f)] - {t} == s.tasks;
  }

  // ------------------------------------------------------------------
  // Announcing an upload
  // ------------------------------------------------------------------

  /** What there is for a new upload, in the terms of the configuration: `figure` is what a new walk would find. */
  ghost function RoomLeft(c: Config, v: Vault, now: nat, figure: nat): int {
    var free := c.capacity - Sum(v.disk);
    var used := if v.cache.Some? && now - v.cache.value.at < c.ttlMs then v.cache.value.bytes else figure;
    var reading := if c.budget == 0 then free else Max(0, Min(free, c.budget - used));
    reading - Sum(v.ledger) - c.headroom
  }

  function InitEvents(t: Id, r: Id, user: Id, size: nat, ch: Choice): seq<Event> {
    var go := Resume(t, ch); [InitStart(t, r, user, size), go, go, go, go]
  }

  /** Upload u of room r is announced with this size and file, and can be found; nothing else has changed. */
  ghost predicate Announced(m: State, w: State, u: Id, r: Id, f: Id, size: nat)
    requires r in m.board.rooms
  {
    && w.vault.ledger == m.vault.ledger[u := size]
    && u in w.board.records && w.board.records[u].room == r && w.board.records[u].file == f
    && w.board.records[u].committed == 0 && !w.board.records[u].aborted && !w.board.records[u].writing
    && w.board.records[u].lastActivity == m.now && TermsOf(w.vault, u).declared == size
    && w.board.records == m.board.records[u := w.board.records[u]]
    && w.board.codes == m.board.codes && w.board.index == m.board.index[u := m.board.rooms[r].code]
    && w.board.rooms == m.board.rooms[r := m.board.rooms[r].(uploads := m.board.rooms[r].uploads + {u})]
  }

  /**
   Announcing an upload, from any state with the ledger's lock free: it is granted if and only if its
   size fits what is left after reservations and headroom. Granted, it is reserved in full and can be
   found; refused, nothing has changed. Either way the lock is free again and the disk as it was.
   */
  lemma InitDecides(c: Config, s: State, t: Id, r: Id, user: Id, size: nat, ch: Choice)
    requires MayStart(c, s, InitStart(t, r, user, size)) && s.vault.hold.Unlocked?
    requires ch.u !in s.board.records && ch.u !in s.vault.terms
    requires forall w | w in s.board.records :: s.board.records[w].file != ch.f
    ensures Legal(c, s, InitEvents(t, r, user, size, ch)) && r in s.board.rooms
    ensures var w := After(c, s, InitEvents(t, r, user, size, ch));
            && w.tasks == s.tasks && w.now == s.now && w.vault.disk == s.vault.disk && w.vault.hold.Unlocked?
            && (size <= Max(0, RoomLeft(c, s.vault, s.now, ch.n)) ==>
                  Announced(s, w, ch.u, r, ch.f, size) && Resolve(w.board, ch.u) == Some(r))
            && (size > Max(0, RoomLeft(c, s.vault, s.now, ch.n)) ==>
                  w.board == s.board && w.vault.ledger == s.vault.ledger && w.vault.terms == s.vault.terms)
  {
    hide Legal, After, MayStart, Step, ReadUsage, ReadVolume, RoomLeft, Announced, Decide, Grants, Resolve;
    var e, go := InitStart(t, r, user, size), Resume(t, ch);
    assert [] + [e] == [e] && [e] + [go] == [e, go] && [e, go] + [go] == [e, go, go];
    assert [e, go, go] + [go] == [e, go, go, go] && [e, go, go, go] + [go] == InitEvents(t, r, user, size, ch);
    NothingRun(c, s);
    InitWaits(c, s, t, r, user, size, ch);
    LegalMore(c, s, [], e); LegalMore(c, s, [e], go);
    var m := After(c, s, [e, go]);
    InitReads(c, m, t, r, size, ch);
    LegalMore(c, s, [e, go], go); LegalMore(c, s, [e, go, go], go);
    var n := After(c, s, [e, go, go, go]);
    InitReading(c, s.vault, t, s.now, ch.n);
    InitEnds(c, s, n, t, r, size, ch);
    LegalMore(c, s, [e, go, go, go], go);
  }

  lemma InitWaits(c: Config, s: State, t: Id, r: Id, user: Id, size: nat, ch: Choice)
    requires MayStart(c, s, InitStart(t, r, user, size)) && s.vault.hold.Unlocked?
    ensures var e, go := InitStart(t, r, user, size), Resume(t, ch);
            && MayStart(c, Step(c, s, e), go) && t !in s.tasks && r in s.board.rooms
            && s.board.rooms[r].phase == Open
            && s.board.rooms[r].code in s.board.codes && s.board.codes[s.board.rooms[r].code] == r
            && Step(c, Step(c, s, e), go) == Go(s, t, s.board, Acquire(s.vault, t), InitHolding(r, size))
  {
  }

  lemma InitReads(c: Config, s: State, t: Id, r: Id, size: nat, ch: Choice)
    requires t in s.tasks && s.tasks[t] == InitHolding(r, size) && s.vault.hold.Probing?
    requires ch.u !in s.board.records && ch.u !in s.vault.terms
    requires forall w | w in s.board.records :: s.board.records[w].file != ch.f
    ensures var go := Resume(t, ch);
            && MayStart(c, s, go) && MayStart(c, Step(c, s, go), go)
            && Step(c, Step(c, s, go), go) == s.(vault := ReadUsage(c, ReadVolume(c, s.vault), s.now, ch.n))
            && Step(c, Step(c, s, go), go).vault.hold.Ready?
            && Step(c, Step(c, s, go), go).vault.terms == s.vault.terms
  {
    hide Measured;
  }

  /** The reading taken under the lock leaves what it should. */
  lemma InitReading(c: Config, v: Vault, t: Id, now: nat, figure: nat)
    ensures var w := ReadUsage(c, ReadVolume(c, Acquire(v, t)), now, figure);
            && w.disk == v.disk && w.ledger == v.ledger && w.terms == v.terms && w.hold.Ready?
            && forall size: nat :: Grants(c, w, size) <==> size <= Max(0, RoomLeft(c, v, now, figure))
  {
  }

  lemma InitEnds(c: Config, s: State, n: State, t: Id, r: Id, size: nat, ch: Choice)
    requires t !in s.tasks && n.tasks == s.tasks[t := InitHolding(r, size)] && n.board == s.board && n.now == s.now
    requires n.vault.hold.Ready? && n.vault.disk == s.vault.disk && n.vault.ledger == s.vault.ledger
    requires n.vault.terms == s.vault.terms && r in s.board.rooms && s.board.rooms[r].phase == Open
    requires s.board.rooms[r].code in s.board.codes && s.board.codes[s.board.rooms[r].code] == r
    requires ch.u !in s.board.records && ch.u !in s.vault.terms
    requires forall w | w in s.board.records :: s.board.records[w].file != ch.f
    ensures MayStart(c, n, Resume(t, ch))
    ensures var w := Step(c, n, Resume(t, ch));
            && w.tasks == s.tasks && w.now == s.now && w.vault.disk == s.vault.disk && w.vault.hold.Unlocked?
            && (Grants(c, n.vault, size) ==>
                  Announced(s, w, ch.u, r, ch.f, size) && Resolve(w.board, ch.u) == Some(r))
            && (!Grants(c, n.vault, size) ==>
                  w.board == s.board && w.vault.ledger == s.vault.ledger && w.vault.terms == s.vault.terms)
  {
    assert n.tasks - {t} == s.tasks;
  }

  // ------------------------------------------------------------------
  // Receiving bytes
  // ------------------------------------------------------------------

  /** n bytes arrive and are stored; when the request asks for a re-check it gets this usage figure. */
  function Bytes(n: nat): Choice { Choice(0, 0, n, true, {}) }

  function ChunkEvents(t: Id, u: Id, start: nat, n: nat): seq<Event> {
    [PutStart(t, u, start), Resume(t, Bytes(n)), Resume(t, Bytes(n)), Resume(t, Broken), Resume(t, Broken),
     Resume(t, Broken)]
  }

  /** n bytes were appended to the part of u, counted, and taken off its reservation; nothing else has changed. */
  ghost predicate Received(m: State, w: State, u: Id, n: nat)
    requires u in m.board.records
  {
    var rec, p := m.board.records[u], Part(m.board.records[u].room, u);
    var size := SizeAt(m.vault, p) + n;
    && w.vault.disk == m.vault.disk[p := size]
    && w.vault.ledger == (if u in m.vault.ledger
                          then m.vault.ledger[u := Max(0, TermsOf(m.vault, u).declared - size)] else m.vault.ledger)
    && u in w.board.records
    && w.board.records[u] == rec.(committed := size, lastActivity := m.now, writing := false,
                                  client := w.board.records[u].client)
    && w.board == m.board.(records := m.board.records[u := w.board.records[u]])
    && w.tasks == m.tasks && w.now == m.now && w.vault.hold == m.vault.hold
  }

  /**
   Receiving: from any reachable state with the lock free, bytes that begin where the part ends and fit
   the declared size are appended, counted and taken off the reservation, and nothing else changes.
   */
  lemma ChunkLands(c: Config, s: State, es: seq<Event>, t: Id, u: Id, r: Id, n: nat)
    requires s == START && Legal(c, s, es) && 0 < n
    requires var m := After(c, s, es);
             && Resolve(m.board, u) == Some(r) && t !in m.tasks && m.vault.hold.Unlocked? && RoomAt(m.board, r).dir
             && RecordAt(m.board, u).committed + n <= TermsOf(m.vault, u).declared
    ensures var m := After(c, s, es);
            && u in m.board.records
            && var es := ChunkEvents(t, u, m.board.records[u].committed, n);
            && Legal(c, m, es) && Received(m, After(c, m, es), u, n)
  {
    hide Legal, After, MayStart, Step, Resolve, Safe, Standing, Received;
    var m := After(c, s, es);
    Arrives(c, s, es); Resolved(c, m, u);
    ChunkSteps(c, m, t, u, r, n);
  }

  /** One more step of a request that receives bytes. */
  lemma PutGoes(c: Config, s: State, es: seq<Event>, t: Id, ch: Choice)
    requires Legal(c, s, es)
    requires var m := After(c, s, es);
             t in m.tasks && m.tasks[t].IsPut() && (m.tasks[t].Shrinking? ==> m.vault.hold.Unlocked?)
    ensures Legal(c, s, es + [Resume(t, ch)])
    ensures var m := After(c, s, es); After(c, s, es + [Resume(t, ch)]) == PutStep(c, m, t, m.tasks[t], ch)
  {
    hide Legal, After, PutStep;
    LegalMore(c, s, es, Resume(t, ch));
  }

  /** The record of u once a request has begun to receive its bytes. */
  function Receiving(m: State, t: Id, u: Id): Board {
    SetRecord(m.board, u, RecordAt(m.board, u).(writing := true, client := t))
  }

  lemma PutStarts(c: Config, m: State, t: Id, u: Id)
    requires Resolve(m.board, u).Some? && t !in m.tasks
    ensures var e := PutStart(t, u, RecordAt(m.board, u).committed);
            MayStart(c, m, e) && Step(c, m, e) == Go(m, t, Receiving(m, t, u), m.vault, Streaming(u))
  {
    hide Resolve;
  }

  /** Until the bytes are on the disk. */
  lemma ChunkAppends(c: Config, m: State, t: Id, u: Id, r: Id, n: nat)
    requires Resolve(m.board, u).Some? && t !in m.tasks && RoomAt(m.board, r).dir
    requires u in m.board.records && m.board.records[u].room == r && 0 < n
    requires m.board.records[u].committed + n <= TermsOf(m.vault, u).declared
    ensures var es := [PutStart(t, u, m.board.records[u].committed), Resume(t, Bytes(n)), Resume(t, Bytes(n))];
            && Legal(c, m, es)
            && After(c, m, es) == Go(m, t, Receiving(m, t, u), Append(m.vault, Part(r, u), u, n),
                                     Appended(u, SizeAt(m.vault, Part(r, u)) + n))
  {
    hide Legal, After, MayStart, Step, Resolve, PutStep, Append;
    var e1, e2 := PutStart(t, u, m.board.records[u].committed), Resume(t, Bytes(n));
    assert [] + [e1] == [e1] && [e1] + [e2] == [e1, e2] && [e1, e2] + [e2] == [e1, e2, e2];
    NothingRun(c, m);
    PutStarts(c, m, t, u);
    LegalMore(c, m, [], e1);
    ChunkArrives(c, After(c, m, [e1]), t, u, r, n);
    PutGoes(c, m, [e1], t, Bytes(n)); PutGoes(c, m, [e1, e2], t, Bytes(n));
    assert m.tasks[t := Streaming(u)][t := Appended(u, SizeAt(m.vault, Part(r, u)) + n)] ==
           m.tasks[t := Appended(u, SizeAt(m.vault, Part(r, u)) + n)];
  }

  lemma ChunkSteps(c: Config, m: State, t: Id, u: Id, r: Id, n: nat)
    requires Resolve(m.board, u).Some? && t !in m.tasks && m.vault.hold.Unlocked? && RoomAt(m.board, r).dir
    requires u in m.board.records && m.board.records[u].room == r && 0 < n
    requires m.board.records[u].committed + n <= TermsOf(m.vault, u).declared
    ensures var es := ChunkEvents(t, u, m.board.records[u].committed, n);
            Legal(c, m, es) && Received(m, After(c, m, es), u, n)
  {
    hide Legal, After, MayStart, Step, Resolve, Received, PutStep, Append, Shrink;
    var e4 := Resume(t, Broken);
    var es := [PutStart(t, u, m.board.records[u].committed), Resume(t, Bytes(n)), Resume(t, Bytes(n))];
    assert es + [e4] + [e4] + [e4] == ChunkEvents(t, u, m.board.records[u].committed, n);
    ChunkAppends(c, m, t, u, r, n);
    ChunkCounts(c, After(c, m, es), t, u, SizeAt(m.vault, Part(r, u)) + n);
    AppendLocks(m.vault, Part(r, u), u, n);
    PutGoes(c, m, es, t, Broken); PutGoes(c, m, es + [e4], t, Broken); PutGoes(c, m, es + [e4] + [e4], t, Broken);
    ChunkEnds(m, After(c, m, es + [e4] + [e4] + [e4]), t, u, r, n);
  }

  lemma ChunkArrives(c: Config, s: State, t: Id, u: Id, r: Id, n: nat)
    requires t in s.tasks && s.tasks[t] == Streaming(u) && 0 < n && RecordAt(s.board, u).room == r
    requires RoomAt(s.board, r).dir && RecordAt(s.board, u).committed + n <= TermsOf(s.vault, u).declared
    ensures var s1 := PutStep(c, s, t, Streaming(u), Bytes(n));
            && s1 == Go(s, t, s.board, s.vault, Appending(u, n))
            && PutStep(c, s1, t, Appending(u, n), Bytes(n)) ==
               Go(s, t, s.board, Append(s.vault, Part(r, u), u, n), Appended(u, SizeAt(s.vault, Part(r, u)) + n))
  {
    hide Append;
    assert s.tasks[t := Appending(u, n)][t := Appended(u, SizeAt(s.vault, Part(r, u)) + n)] ==
           s.tasks[t := Appended(u, SizeAt(s.vault, Part(r, u)) + n)];
  }

  lemma AppendLocks(v: Vault, p: Path, u: Id, n: nat)
    ensures var w := Append(v, p, u, n); w.hold == v.hold && TermsOf(w, u).declared == TermsOf(v, u).declared
    ensures forall remaining :: Shrink(Append(v, p, u, n), u, remaining).hold == v.hold
  {
  }

  /** Counting, giving back what has landed, and the end of the request. */
  lemma ChunkCounts(c: Config, s: State, t: Id, u: Id, size: nat)
    requires t in s.tasks && s.tasks[t] == Appended(u, size) && u in s.board.records
    ensures var remaining, rec := TermsOf(s.vault, u).declared - size, s.board.records[u];
            var b := SetRecord(s.board, u, rec.(committed := size, lastActivity := s.now));
            var s1 := PutStep(c, s, t, Appended(u, size), Broken);
            && s1 == Go(s, t, b, s.vault, Shrinking(u, remaining))
            && var s2 := PutStep(c, s1, t, Shrinking(u, remaining), Broken);
            && s2 == Go(s, t, b, Shrink(s.vault, u, remaining), Streaming(u))
            && PutStep(c, s2, t, Streaming(u), Broken) ==
               Stop(s, t, SetRecord(b, u, rec.(committed := size, lastActivity := s.now, writing := false)),
                    Shrink(s.vault, u, remaining))
  {
    hide Shrink;
    var remaining := TermsOf(s.vault, u).declared - size;
    assert s.tasks[t := Shrinking(u, remaining)][t := Streaming(u)] == s.tasks[t := Streaming(u)];
    assert s.tasks[t := Streaming(u)] - {t} == s.tasks - {t};
  }

  lemma ChunkEnds(m: State, w: State, t: Id, u: Id, r: Id, n: nat)
    requires t !in m.tasks && u in m.board.records && m.board.records[u].room == r
    requires var size, b := SizeAt(m.vault, Part(r, u)) + n, Receiving(m, t, u);
             var v, rec := Append(m.vault, Part(r, u), u, n), b.records[u];
             && w.board.records == b.records[u := rec.(committed := size, lastActivity := m.now, writing := false)]
             && w.board == m.board.(records := w.board.records)
             && w.vault == Shrink(v, u, TermsOf(v, u).declared - size)
             && w.tasks == m.tasks[t := Appended(u, size)] - {t} && w.now == m.now
    ensures Received(m, w, u, n)
  {
    assert m.tasks[t := Appended(u, SizeAt(m.vault, Part(r, u)) + n)] - {t} == m.tasks;
  }

  /**
   The re-check of a request under way: with at least the headroom free it goes on receiving and
   nothing has changed; with less the upload is taken out, marked, and its request ends it.
   */
  lemma RecheckDecides(c: Config, s: State, t: Id, u: Id, reading: int, ch: Choice)
    requires t in s.tasks && s.tasks[t] == Rechecked(u, reading)
    ensures MayStart(c, s, Resume(t, ch))
    ensures var w := Step(c, s, Resume(t, ch));
            && (c.headroom <= reading ==> w == s.(tasks := s.tasks[t := Streaming(u)]))
            && (reading < c.headroom ==>
                  && w.tasks == s.tasks[t := Releasing(u, Breached)] && w.vault == s.vault
                  && u in w.board.records && w.board.records[u].aborted && u !in w.board.index
                  && u !in RoomAt(w.board, w.board.records[u].room).uploads)
  {
  }

  // ------------------------------------------------------------------
  // Who may begin
  // ------------------------------------------------------------------

  /** Some open room lists the upload. */
  ghost predicate ListedOpen(b: Board, u: Id) {
    exists r :: r in b.rooms && b.rooms[r].phase == Open && u in b.rooms[r].uploads
  }

  /**
   In every run: a room may be created under any code that no room has, within the cap, and closed while
   it is open; an init may begin exactly for a user who is in an open room; exactly an upload that an open
   room lists may be completed or aborted, or sent bytes from its committed offset on.
   */
  lemma WhoMayBegin(c: Config, s: State, es: seq<Event>, t: Id)
    requires s == START && Legal(c, s, es) && t !in After(c, s, es).tasks
    ensures var m := After(c, s, es);
            && (forall r, code :: MayStart(c, m, CreateRoom(t, r, code)) <==>
                  r !in m.board.rooms && code !in m.board.codes && |m.board.codes| < c.maxRooms)
            && (forall r :: MayStart(c, m, CloseRoom(t, r)) <==> r in m.board.rooms && m.board.rooms[r].phase == Open)
            && (forall r, user, size :: MayStart(c, m, InitStart(t, r, user, size)) <==>
                  r in m.board.rooms && m.board.rooms[r].phase == Open && user in m.board.rooms[r].users)
            && (forall u :: MayStart(c, m, CompleteStart(t, u)) <==> ListedOpen(m.board, u))
            && (forall u :: MayStart(c, m, AbortStart(t, u)) <==> ListedOpen(m.board, u))
            && (forall u, start :: MayStart(c, m, PutStart(t, u, start)) <==>
                  ListedOpen(m.board, u) && start == RecordAt(m.board, u).committed)
  {
    hide Legal, After, Safe, Standing, Resolve, ListedOpen, MayStart;
    Arrives(c, s, es);
    var m := After(c, s, es);
    SafeMeans(c, m);
    MapAgrees(c, m.board);
    BoundOpen(c, m.board);
    RoomsMayBegin(c, m, t);
    forall u ensures Resolve(m.board, u).Some? <==> ListedOpen(m.board, u) { ResolvedIffListed(c, m, u); }
    UploadsMayBegin(c, m, t);
  }

  lemma RoomsMayBegin(c: Config, m: State, t: Id)
    requires t !in m.tasks
    requires forall r | r in m.board.rooms ::
               m.board.rooms[r].phase == Open <==>
               m.board.rooms[r].code in m.board.codes && m.board.codes[m.board.rooms[r].code] == r
    requires forall code | code in m.board.codes :: m.board.codes[code] in m.board.rooms
    requires forall code | code in m.board.codes :: m.board.rooms[m.board.codes[code]].phase == Open
    ensures forall r, code :: MayStart(c, m, CreateRoom(t, r, code)) <==>
              r !in m.board.rooms && code !in m.board.codes && |m.board.codes| < c.maxRooms
    ensures forall r :: MayStart(c, m, CloseRoom(t, r)) <==> r in m.board.rooms && m.board.rooms[r].phase == Open
    ensures forall r, user, size :: MayStart(c, m, InitStart(t, r, user, size)) <==>
              r in m.board.rooms && m.board.rooms[r].phase == Open && user in m.board.rooms[r].users
  {
  }

  lemma UploadsMayBegin(c: Config, m: State, t: Id)
    requires t !in m.tasks
    ensures forall u :: MayStart(c, m, CompleteStart(t, u)) <==> Resolve(m.board, u).Some?
    ensures forall u :: MayStart(c, m, AbortStart(t, u)) <==> Resolve(m.board, u).Some?
    ensures forall u, start :: MayStart(c, m, PutStart(t, u, start)) <==>
              Resolve(m.board, u).Some? && start == RecordAt(m.board, u).committed
  {
    hide Resolve;
  }

  lemma BoundOpen(c: Config, b: Board)
    requires BoardOk(c, b)
    ensures forall code | code in b.codes :: b.codes[code] in b.rooms && b.rooms[b.codes[code]].phase == Open
  {
    assert forall code | code in b.codes :: CodeOk(b, code);
  }

  lemma ResolvedIffListed(c: Config, s: State, u: Id)
    requires Safe(c, s)
    ensures Resolve(s.board, u).Some? <==> ListedOpen(s.board, u)
  {
    if Resolve(s.board, u).Some? { Resolved(c, s, u); }
    if r :| r in s.board.rooms && s.board.rooms[r].phase == Open && u in s.board.rooms[r].uploads {
      MapAgrees(c, s.board);
      assert RoomOk(s.board, r) && ListedOk(s.board, r, u);
    }
  }
}
