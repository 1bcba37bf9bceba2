/**
 One file on its way from a browser to the server: the retry loop of the client against the
 chunk handler of the server, over a network that splits bodies anywhere, cuts requests and
 loses responses. Requests on the upload do not overlap.
 */
module Transfer {
  import opened Basics
  import Machine = UploadMachine
  import Vault

  type Bytes = seq<Byte>

  const STREAM_READ_BYTES := 1048576
  const MAX_ATTEMPTS := 5

  predicate IsPrefix(a: Bytes, b: Bytes) { |a| <= |b| && a == b[..|a|] }

  function Flatten(pieces: seq<Bytes>): Bytes {
    if pieces == [] then [] else pieces[0] + Flatten(pieces[1..])
  }

  lemma {:induction false} FlattenAppend(pieces: seq<Bytes>, piece: Bytes)
    ensures Flatten(pieces + [piece]) == Flatten(pieces) + piece
  {
    if pieces == [] {
    } else {
      assert (pieces + [piece])[1..] == pieces[1..] + [piece];
      FlattenAppend(pieces[1..], piece);
    }
  }

  /** The pieces in which a body arrives: any lengths, empty pieces included. */
  function Split(body: Bytes, sizes: seq<nat>): (pieces: seq<Bytes>)
    ensures Flatten(pieces) == body
    decreases |sizes|
  {
    if sizes == [] then [body]
    else
      var n := Min(sizes[0], |body|);
      [body[..n]] + Split(body[n..], sizes[1..])
  }

  /** How a write ends: stored, refused as too long, failed in storage, or aborted for want of space. */
  datatype Written = Stored | TooLong | Faulty | NoSpace

  datatype Reply =
    | Ok(committed: nat)
    | Mismatch(committed: nat)
    | Refused
    | Interrupted
    | NotFound

  datatype Completion = Completed | Incomplete(size: nat) | Failed | Unknown

  /** `faults` and `breaches` say what happens to the successive writes of one request. */
  datatype Weather = Weather(faults: nat -> bool, breaches: nat -> bool)

  /** An upload's record and its bytes on the server. */
  class Upload {
    const declared: nat
    var committed: nat
    var writing: bool
    var aborted: bool
    var part: Option<Bytes>
    var stored: Option<Bytes>
    /** History: every content the part has had. */
    ghost var seen: seq<Bytes>

    function Part(): Bytes
      reads this
    {
      if part.Some? then part.value else []
    }

    predicate Open()
      reads this
    {
      !aborted && stored.None?
    }

    ghost predicate Valid()
      reads this
    {
      Open() ==> committed == |Part()| && committed <= declared && (part.None? || 0 < committed)
    }

    constructor (size: nat)
      ensures Valid() && Open() && declared == size && Part() == [] && seen == []
    {
      declared, committed, writing, aborted, part, stored, seen := size, 0, false, false, None, None, [];
    }

    /** The upload is aborted, by a request or by the server. */
    method Abort()
      modifies this
      ensures aborted && part == None && stored == old(stored) && seen == old(seen)
    {
      aborted := true;
      part := None;
    }

    /** The committed offset moves only after the append, to the length the append reports. */
    method WriteChunk(data: Bytes, fault: bool, breach: bool) returns (w: Written)
      requires Valid() && Open() && data != []
      modifies this`committed, this`part, this`aborted, this`seen
      ensures Valid() && stored == old(stored)
      ensures w == TooLong <==> old(committed) + |data| > declared
      ensures w == Faulty <==> old(committed) + |data| <= declared && fault
      ensures w == NoSpace <==> old(committed) + |data| <= declared && !fault && breach
      ensures w == NoSpace ==> aborted && part == None
      ensures w == NoSpace || !aborted
      ensures w == Stored ==> Part() == old(Part()) + data
      ensures w == TooLong || w == Faulty ==> Part() == old(Part())
      ensures seen == if w == TooLong || w == Faulty then old(seen) else old(seen) + [old(Part()) + data]
      ensures !fault && !breach && w != TooLong ==> w == Stored
      ensures forall c: Vault.Config, s: Machine.State, t: Id, u: Id, ch: Machine.Choice |
                && Machine.RecordAt(s.board, u).committed == old(committed)
                && Vault.TermsOf(s.vault, u).declared == declared && ch.n == |data| ::
                w == TooLong <==>
                Machine.PutStep(c, s, t, Machine.Streaming(u), ch) ==
                Machine.Stop(s, t, Machine.StopWriting(s.board, u), s.vault)
      ensures forall v: Vault.Vault, p: Vault.Path, u: Id |
                w == Stored && Vault.SizeAt(v, p) == |old(Part())| ::
                Vault.SizeAt(Vault.Append(v, p, u, |data|), p) == committed
    {
      if committed + |data| > declared { return TooLong; }
      if fault { return Faulty; }
      part := Some(Part() + data);
      seen := seen + [Part()];
      committed := |Part()|;
      if breach {
        aborted, part := true, None;
        return NoSpace;
      }
      w := Stored;
    }

    /**
     `upload_chunk`: buffer the body as it arrives and write whenever the buffer has reached
     its size, and once more at the end. A cut request loses what is still in the buffer.
     */
    method PutChunk(start: nat, pieces: seq<Bytes>, cut: bool, weather: Weather) returns (r: Reply)
      requires Valid()
      modifies this`committed, this`writing, this`part, this`aborted, this`seen
      ensures Valid() && stored == old(stored)
      ensures r == NotFound <==> !old(Open())
      ensures r.Mismatch? <==> old(Open()) && start != old(committed)
      ensures r.Mismatch? ==> r.committed == old(committed)
      ensures forall c: Vault.Config, s: Machine.State, t: Id, u: Id |
                && t !in s.tasks && Machine.Resolve(s.board, u).Some? && old(Open())
                && Machine.RecordAt(s.board, u).committed == old(committed) ::
                r.Mismatch? <==> !Machine.MayStart(c, s, Machine.PutStart(t, u, start))
      ensures r.Mismatch? || r == NotFound ==>
                Part() == old(Part()) && committed == old(committed) && aborted == old(aborted) && seen == old(seen)
      ensures r.Ok? ==> Open() && !cut && r.committed == committed && Part() == old(Part()) + Flatten(pieces)
      ensures r != NotFound && !r.Mismatch? ==> !writing
      ensures r == Refused && start + |Flatten(pieces)| <= declared ==> aborted && part == None
      ensures r == Interrupted ==> Open()
      ensures old(Open()) && Calm(weather) && start + |Flatten(pieces)| <= declared ==>
                Open() && (start == old(committed) ==> if cut then r == Interrupted else r.Ok?)
      ensures old(Open()) && Open() ==> IsPrefix(old(Part()), Part()) && IsPrefix(Part(), old(Part()) + Flatten(pieces))
      ensures Recorded(old(seen), seen, old(Part()) + Flatten(pieces))
    {
      hide IsPrefix, Recorded, Flatten;
      ghost var was, whole, seenThen := Part(), Part() + Flatten(pieces), seen;
      RecordedNone(seen, whole);
      Joined(Part(), Flatten(pieces)); Joined(Part(), []);
      assert Part() + [] == Part();
      if !Open() { return NotFound; }
      if start != committed { return Mismatch(committed); }
      writing := true;
      var buffer: Bytes := [];
      var i, k := 0, 0;
      assert pieces[0..] == pieces && Part() + [] == Part();
      while i < |pieces|
        invariant 0 <= i <= |pieces| && Valid() && Open() && writing && stored == old(stored)
        invariant whole == Part() + buffer + Flatten(pieces[i..]) && IsPrefix(was, Part())
        invariant Recorded(seenThen, seen, whole)
      {
        NextPiece(Part() + buffer, pieces, i);
        Regroup(Part(), buffer, pieces[i]);
        buffer := buffer + pieces[i];
        i := i + 1;
        if |buffer| >= STREAM_READ_BYTES {
          var w := Flush(buffer, weather, k, pieces[i..], was, whole, seenThen);
          if w != Stored { return if w == Faulty then Interrupted else Refused; }
          k := k + 1;
          buffer := [];
        }
      }
      NoMore(pieces, i);
      Regroup(Part(), buffer, []);
      if cut { writing := false; Joined(Part(), buffer + []); return Interrupted; }
      if buffer != [] {
        var w := Flush(buffer, weather, k, [], was, whole, seenThen);
        if w != Stored { return if w == Faulty then Interrupted else Refused; }
      }
      assert whole == Part();
      Joined(whole, []);
      writing := false;
      r := Ok(committed);
    }

    /**
     `complete`: the part becomes the stored file if it has the declared size. The part is
     synced first, and an upload that never wrote a byte has none.
     */
    method Complete(fault: bool) returns (r: Completion)
      requires Valid()
      modifies this`part, this`stored
      ensures Valid() && seen == old(seen)
      ensures r == Completed <==> old(Open()) && |old(Part())| == declared && old(part).Some? && !fault
      ensures r == Unknown <==> !old(Open())
      ensures r.Incomplete? <==> old(Open()) && |old(Part())| != declared
      ensures r.Incomplete? ==> r.size == |old(Part())|
      ensures r == Completed ==> stored == Some(old(Part())) && part == None
      ensures r != Completed ==> stored == old(stored) && part == old(part)
    {
      if !Open() { return Unknown; }
      if |Part()| != declared { return Incomplete(|Part()|); }
      if part == None || fault { return Failed; }
      stored, part := part, None;
      r := Completed;
    }

    /** One `write_chunk` of the loop, and the `finally` when it raises. */
    method Flush(buffer: Bytes, weather: Weather, k: nat, ghost rest: seq<Bytes>, ghost was: Bytes,
        ghost whole: Bytes, ghost before: seq<Bytes>)
      returns (w: Written)
      requires Valid() && Open() && buffer != [] && writing
      requires whole == Part() + buffer + Flatten(rest) && IsPrefix(was, Part()) && Recorded(before, seen, whole)
      modifies this`committed, this`writing, this`part, this`aborted, this`seen
      ensures Valid() && stored == old(stored) && (writing <==> w == Stored)
      ensures w == Stored ==> Open() && Part() == old(Part()) + buffer && whole == Part() + [] + Flatten(rest)
      ensures Open() ==> IsPrefix(was, Part()) && IsPrefix(Part(), whole)
      ensures Recorded(before, seen, whole)
      ensures Calm(weather) && |whole| <= declared ==> w == Stored
      ensures w == NoSpace ==> aborted && part == None
      ensures w == TooLong ==> |whole| > declared
      ensures w == Faulty ==> Open()
    {
      hide IsPrefix, Recorded, Flatten;
      Joined(Part(), buffer + Flatten(rest)); Joined(Part() + buffer, Flatten(rest));
      Regroup(Part(), buffer, Flatten(rest)); Regroup(Part() + buffer, [], Flatten(rest));
      PrefixMore(was, Part(), buffer); RecordedMore(before, seen, Part() + buffer, whole);
      assert Part() + buffer + [] == Part() + buffer && |whole| == |Part()| + |buffer| + |Flatten(rest)|;
      w := WriteChunk(buffer, weather.faults(k), weather.breaches(k));
      if w != Stored { writing := false; }
    }
  }

  /** No write of the request fails, and the server does not run out of space. */
  ghost predicate Calm(weather: Weather) { forall i: nat :: !weather.faults(i) && !weather.breaches(i) }

  /** Contents were added to the history, each a prefix of `whole`. */
  predicate Recorded(before: seq<Bytes>, after: seq<Bytes>, whole: Bytes) {
    && |before| <= |after| && after[..|before|] == before
    && (forall i | |before| <= i < |after| :: IsPrefix(after[i], whole))
  }

  lemma RecordedNone(seen: seq<Bytes>, whole: Bytes)
    ensures Recorded(seen, seen, whole)
  {
  }

  lemma RecordedMore(before: seq<Bytes>, seen: seq<Bytes>, content: Bytes, whole: Bytes)
    requires Recorded(before, seen, whole) && IsPrefix(content, whole)
    ensures Recorded(before, seen + [content], whole)
  {
  }

  lemma PrefixMore(a: Bytes, b: Bytes, c: Bytes)
    requires IsPrefix(a, b)
    ensures IsPrefix(a, b + c)
  {
  }

  lemma Regroup(a: Bytes, b: Bytes, c: Bytes)
    ensures a + b + c == a + (b + c)
  {
  }

  lemma NoMore(pieces: seq<Bytes>, i: nat)
    requires i == |pieces|
    ensures Flatten(pieces[i..]) == [] && Flatten([]) == []
  {
  }

  lemma Joined(a: Bytes, b: Bytes)
    ensures IsPrefix(a, a + b)
  {
  }

  lemma NextPiece(front: Bytes, pieces: seq<Bytes>, i: nat)
    requires i < |pieces|
    ensures front + Flatten(pieces[i..]) == front + pieces[i] + Flatten(pieces[i + 1..])
  {
    assert pieces[i..][1..] == pieces[i + 1..];
  }

  // ------------------------------------------------------------------
  // The browser
  // ------------------------------------------------------------------

  /**
   What happens around one request: the upload may be reaped or its room closed before it,
   the user may cancel, the body may be split anywhere and cut short, writes may fail, the
   response may be lost, and so may the answer to the query that follows a failure.
   */
  datatype Fate = Fate(
    vanish: bool, cancelled: bool, sizes: seq<nat>, cut: Option<nat>, weather: Weather, lost: bool, queryLost: bool)

  ghost predicate Fair(f: Fate) { !f.vanish && !f.cancelled && f.cut == None && Calm(f.weather) && !f.lost }

  /** The client takes the request for failed. */
  predicate Breaks(f: Fate) { f.cut.Some? || f.lost }

  /** Nothing but the connection can go wrong. */
  ghost predicate Benign(f: Fate) { !f.vanish && !f.cancelled && Calm(f.weather) }

  datatype TaskState = Queued | Starting | Uploading | Completing | Succeeded | Error

  class Task {
    var state: TaskState
    var sent: nat

    constructor ()
      ensures state == Queued
    {
      state, sent := Queued, 0;
    }
  }

  /** What arrives of a chunk. */
  function Arriving(chunk: Bytes, f: Fate): seq<Bytes> {
    Split(if f.cut.Some? then chunk[..Min(f.cut.value, |chunk|)] else chunk, f.sizes)
  }

  lemma Extends(file: Bytes, part: Bytes, body: Bytes, now: Bytes, offset: nat)
    requires offset <= |file| && part == file[..offset] && IsPrefix(body, file[offset..]) && IsPrefix(now, part + body)
    ensures IsPrefix(now, file)
  {
    assert now == (part + body)[..|now|];
    assert part + body == file[..offset + |body|];
  }

  /** Every content the part has had is a prefix of the file. */
  ghost predicate Faithful(file: Bytes, u: Upload)
    reads u
  {
    && u.Valid() && u.declared == |file|
    && (u.Open() ==> IsPrefix(u.Part(), file))
    && (forall i | 0 <= i < |u.seen| :: IsPrefix(u.seen[i], file))
    && (u.stored.Some? ==> u.stored.value == file)
  }

  // ------------------------------------------------------------------
  // The story of a transfer
  // ------------------------------------------------------------------

  /** How a request ends for the client: with a success, with a 409, failed, or refused for good. */
  datatype Outcome = Got | Resynced | Broke | Denied

  /** A request: where it begins, and the bytes the server has committed before and after it. */
  datatype Request = Request(offset: nat, before: nat, after: nat, outcome: Outcome)

  function OutcomeOf(f: Fate, r: Reply): Outcome {
    if Breaks(f) then Broke else match r case Ok(_) => Got case Mismatch(_) => Resynced case _ => Denied
  }

  /** The failed requests since the last success. */
  function Fails(log: seq<Request>): nat {
    if log == [] then 0
    else match log[|log| - 1].outcome
      case Got => 0
      case Broke => Fails(log[..|log| - 1]) + 1
      case _ => Fails(log[..|log| - 1])
  }

  /**
   One request of bytes up to `end` while only the connection can fail: one that begins where the server
   stands lands all its bytes, or, if it is cut, some of them; any other changes nothing and is a 409.
   */
  predicate Told(r: Request, f: Fate, end: nat) {
    && r.offset <= r.before <= r.after
    && (r.offset != r.before ==> r.after == r.before)
    && (r.offset == r.before ==> r.after <= end && (f.cut == None ==> r.after == end))
    && r.outcome == if Breaks(f) then Broke else if r.offset == r.before then Got else Resynced
  }

  /** Where the client goes on: a success and a 409 say it; after a failure it asks, and the answer may be lost. */
  function Next(r: Request, f: Fate): nat {
    if r.outcome == Broke && f.queryLost then r.offset else r.after
  }

  /** Where client and server are after these requests. */
  function ClientAt(log: seq<Request>, net: nat -> Fate): nat {
    if log == [] then 0 else Next(log[|log| - 1], net(|log| - 1))
  }
  function ServerAt(log: seq<Request>): nat { if log == [] then 0 else log[|log| - 1].after }

  /** A request after those of `log`: it begins where the client is, and comes to what it must. */
  ghost predicate Follows(r: Request, log: seq<Request>, net: nat -> Fate, size: nat, chunkBytes: nat) {
    && r.offset == ClientAt(log, net) < size && r.before == ServerAt(log)
    && Told(r, net(|log|), Min(r.offset + chunkBytes, size))
  }

  /** The requests of a transfer follow each other, and none follows five failures without a success. */
  ghost predicate Story(log: seq<Request>, net: nat -> Fate, size: nat, chunkBytes: nat) {
    log != [] ==>
      var front := log[..|log| - 1];
      Story(front, net, size, chunkBytes) && Fails(front) < 5 && Follows(log[|log| - 1], front, net, size, chunkBytes)
  }

  lemma StoryMore(log: seq<Request>, net: nat -> Fate, size: nat, chunkBytes: nat, r: Request)
    requires Story(log, net, size, chunkBytes) && Fails(log) < 5 && Follows(r, log, net, size, chunkBytes)
    ensures Story(log + [r], net, size, chunkBytes)
  {
    hide Follows, Fails;
    assert (log + [r])[..|log + [r]| - 1] == log;
  }

  lemma EndsMore(log: seq<Request>, net: nat -> Fate, r: Request)
    ensures ClientAt(log + [r], net) == Next(r, net(|log|)) && ServerAt(log + [r]) == r.after
  {
  }

  lemma FailsMore(log: seq<Request>, r: Request)
    ensures Fails(log + [r]) ==
            match r.outcome case Got => 0 case Broke => Fails(log) + 1 case _ => Fails(log)
  {
    assert (log + [r])[..|log|] == log;
  }

  /**
   What the network alone says: the failed requests since two neighbours that did not fail, and
   whether the last one did not. The first of two such neighbours may be a 409; the second is a success.
   */
  function Streak(net: nat -> Fate, n: nat): (nat, bool) {
    if n == 0 then (0, true)
    else
      var was := Streak(net, n - 1);
      if Breaks(net(n - 1)) then (was.0 + 1, false) else (if was.1 then 0 else was.0, true)
  }

  lemma {:induction false} StreakBounds(log: seq<Request>, net: nat -> Fate, size: nat, chunkBytes: nat)
    requires Story(log, net, size, chunkBytes)
    ensures Fails(log) <= Streak(net, |log|).0
    ensures Streak(net, |log|).1 ==> ClientAt(log, net) == ServerAt(log)
  {
    if log == [] {
    } else {
      StreakBounds(log[..|log| - 1], net, size, chunkBytes);
    }
  }

  /** If the client always learns where the server is, a count of n failures is n failed requests in a row. */
  lemma {:induction false} FailsInARow(log: seq<Request>, net: nat -> Fate, size: nat, chunkBytes: nat)
    requires Story(log, net, size, chunkBytes) && forall i :: !net(i).queryLost
    ensures Fails(log) <= |log| && ClientAt(log, net) == ServerAt(log)
    ensures forall i | |log| - Fails(log) <= i < |log| :: Breaks(net(i))
  {
    if log == [] {
    } else {
      FailsInARow(log[..|log| - 1], net, size, chunkBytes);
    }
  }

  /** Five requests in a row fail, beginning with the i-th. */
  predicate FiveBreak(net: nat -> Fate, i: nat) { forall j | i <= j < i + 5 :: Breaks(net(j)) }

  /** The client always learns where the server is, and no five requests in a row fail. */
  ghost predicate Answering(net: nat -> Fate) {
    (forall n :: !net(n).queryLost) && forall i: nat :: !FiveBreak(net, i)
  }

  /** Whether it learns it or not: no five requests fail without two neighbours between them that do not. */
  ghost predicate Steady(net: nat -> Fate) { forall n :: Streak(net, n).0 < 5 }

  lemma NeverFive(log: seq<Request>, net: nat -> Fate, size: nat, chunkBytes: nat)
    requires Story(log, net, size, chunkBytes) && Fails(log) <= 5 && Answering(net)
    ensures Fails(log) < 5
  {
    hide Story, Fails;
    FailsInARow(log, net, size, chunkBytes);
    if |log| >= 5 { assert !FiveBreak(net, |log| - 5); }
  }

  lemma {:induction false} RowOfFive(log: seq<Request>, net: nat -> Fate, size: nat, chunkBytes: nat, i: nat)
    requires Story(log, net, size, chunkBytes) && i + 5 <= |log| && FiveBreak(net, i)
    ensures |log| == i + 5 && Fails(log) >= 5
  {
    if |log| > i + 5 {
      RowOfFive(log[..|log| - 1], net, size, chunkBytes, i);
    } else {
      RowFails(log, net, size, chunkBytes, 5);
    }
  }

  lemma {:induction false} RowFails(log: seq<Request>, net: nat -> Fate, size: nat, chunkBytes: nat, n: nat)
    requires Story(log, net, size, chunkBytes) && n <= |log| && forall j | |log| - n <= j < |log| :: Breaks(net(j))
    ensures Fails(log) >= n
  {
    if n == 0 {
    } else {
      RowFails(log[..|log| - 1], net, size, chunkBytes, n - 1);
    }
  }

  /** One PUT of the bytes after `offset`. */
  method SendChunk(file: Bytes, u: Upload, offset: nat, end: nat, f: Fate) returns (r: Reply)
    requires Faithful(file, u) && offset < end <= |file| && (u.Open() ==> offset <= u.committed) && u.stored.None?
    modifies u
    ensures Faithful(file, u) && u.stored.None?
    ensures u.Open() ==> old(u.Open()) && offset <= u.committed && old(u.committed) <= u.committed
    ensures f.vanish || !old(u.Open()) ==> r == NotFound
    ensures r.Ok? && u.Open() ==> r.committed == u.committed
    ensures r.Ok? ==> f.cut == None && u.Open() && u.committed == end
    ensures r.Mismatch? ==> u.Open() && r.committed == u.committed && offset < u.committed
    ensures Fair(f) && old(u.Open()) && offset == old(u.committed) ==> r.Ok?
    ensures u.Open() ==> u.committed <= |file|
    ensures Benign(f) && old(u.Open()) ==>
              u.Open() && Told(Request(offset, old(u.committed), u.committed, OutcomeOf(f, r)), f, end)
  {
    if f.vanish { u.Abort(); }
    ghost var was, chunk, whole := u.Part(), file[offset..end], u.Part() + Flatten(Arriving(file[offset..end], f));
    ghost var seenThen := u.seen;
    assert IsPrefix(Flatten(Arriving(chunk, f)), file[offset..]);
    r := u.PutChunk(offset, Arriving(file[offset..end], f), f.cut.Some?, f.weather);
    if old(u.Open()) && !f.vanish && offset == old(u.committed) {
      Extends(file, was, Flatten(Arriving(chunk, f)), whole, offset);
      RecordedFaithful(file, seenThen, u.seen, whole);
      if u.Open() { Extends(file, was, Flatten(Arriving(chunk, f)), u.Part(), offset); }
    }
  }

  lemma BenignMeans(f: Fate)
    ensures Benign(f) ==> !f.cancelled
  {
  }

  /** The last request was refused for good, or was the fifth failure without a success. */
  ghost predicate GaveUp(log: seq<Request>) {
    && log != []
    && (log[|log| - 1].outcome == Denied || (log[|log| - 1].outcome == Broke && Fails(log) == 5))
  }

  lemma GaveUpMore(log: seq<Request>, r: Request)
    ensures GaveUp(log + [r]) <==> r.outcome == Denied || (r.outcome == Broke && Fails(log) == 4)
  {
    hide Fails;
    FailsMore(log, r);
  }

  /** Five failed requests in a row were the last ones. */
  ghost predicate EndsAtFive(log: seq<Request>, net: nat -> Fate) {
    forall i | 0 <= i <= |log| - 5 && FiveBreak(net, i) :: |log| == i + 5 && Fails(log) >= 5
  }

  /** What a story says in terms of the network. */
  lemma Reckoned(log: seq<Request>, net: nat -> Fate, size: nat, chunkBytes: nat)
    requires Story(log, net, size, chunkBytes) && Fails(log) <= 5
    ensures (Steady(net) || Answering(net) ==> Fails(log) < 5) && EndsAtFive(log, net)
  {
    hide Story, Fails, Streak, Breaks, Answering, FiveBreak;
    StreakBounds(log, net, size, chunkBytes);
    if Answering(net) { NeverFive(log, net, size, chunkBytes); }
    forall i | 0 <= i <= |log| - 5 && FiveBreak(net, i) ensures |log| == i + 5 && Fails(log) >= 5 {
      RowOfFive(log, net, size, chunkBytes, i);
    }
  }

  lemma NoStory(net: nat -> Fate, size: nat, chunkBytes: nat)
    ensures Story([], net, size, chunkBytes) && Fails([]) == 0 && ClientAt([], net) == 0 == ServerAt([])
  {
  }

  lemma FaithfulNew(file: Bytes, u: Upload)
    requires u.Valid() && u.Open() && u.declared == |file| && u.Part() == [] && u.seen == []
    ensures Faithful(file, u)
  {
  }

  lemma RecordedFaithful(file: Bytes, before: seq<Bytes>, after: seq<Bytes>, whole: Bytes)
    requires Recorded(before, after, whole) && IsPrefix(whole, file)
    requires forall i | 0 <= i < |before| :: IsPrefix(before[i], file)
    ensures forall i | 0 <= i < |after| :: IsPrefix(after[i], file)
  {
    forall i | 0 <= i < |after| ensures IsPrefix(after[i], file) {
      if i < |before| { assert after[i] == after[..|before|][i]; }
    }
  }

  /**
   One turn of the client's loop. Only a failed request counts as an attempt, and only a success
   starts the count again; a 409 moves the offset on and nothing more.
   */
  method OneRequest(task: Task, file: Bytes, u: Upload, offset: nat, attempts: nat, end: nat, f: Fate)
    returns (next: nat, failed: nat, going: bool, ghost r: Request)
    requires Faithful(file, u) && offset < end <= |file| && (u.Open() ==> offset <= u.committed) && u.stored.None?
    requires !f.cancelled && attempts < MAX_ATTEMPTS && task.state == Uploading
    modifies task, u
    ensures Faithful(file, u) && u.stored.None?
    ensures r.offset == offset && r.before == old(u.committed) && r.after == u.committed
    ensures r.outcome == Broke <==> Breaks(f)
    ensures failed == match r.outcome case Got => 0 case Broke => attempts + 1 case _ => attempts
    ensures going ==>
              && task.state == Uploading && failed < MAX_ATTEMPTS && next <= |file|
              && (u.Open() ==> next <= u.committed)
              && (offset < next || (next == offset && attempts < failed))
    ensures !going ==> task.state == Error && (r.outcome == Denied || (r.outcome == Broke && failed == MAX_ATTEMPTS))
    ensures Benign(f) && old(u.Open()) ==> u.Open() && Told(r, f, end) && (going ==> next == Next(r, f))
  {
    hide Faithful, Benign, Told, Calm;
    next, failed, going := offset, attempts, true;
    ghost var before := u.committed;
    var reply := SendChunk(file, u, offset, end, f);
    r := Request(offset, before, u.committed, OutcomeOf(f, reply));
    ToldMeans(r, f, end);
    if f.cut.Some? || f.lost {
      failed := attempts + 1;
      if failed >= MAX_ATTEMPTS { task.state := Error; going := false; return; }
      if !f.queryLost && u.Open() { next := u.committed; }
      task.sent := next;
      return;
    }
    match reply
    case Ok(committed) => failed, next := 0, committed; task.sent := next;
    case Mismatch(committed) => next := committed; task.sent := next;
    case _ => task.state := Error; going := false;
  }

  lemma ToldMeans(r: Request, f: Fate, end: nat)
    ensures Told(r, f, end) ==> r.outcome != Denied && r.offset <= r.before <= r.after
  {
  }

  /**
   `runUpload`. Every 409 and every success moves the offset on, and only a failed request
   counts as an attempt, so the loop ends under any weather. Where only the connection can fail,
   it gives up exactly at five failures without a success between them; a 409 is no failure, and
   no success either. `closing` is the fate of the completing request.
   */
  method RunUpload(
      task: Task, file: Bytes, chunkBytes: nat, refused: bool, net: nat -> Fate, closing: Fate)
    returns (u: Upload?, ghost log: seq<Request>)
    requires chunkBytes >= 1
    modifies task
    ensures u == null <==> refused
    ensures u != null ==> fresh(u) && Faithful(file, u)
    ensures task.state == Succeeded ==> u != null && u.stored == Some(file) && |file| >= 1
    ensures u != null && u.stored.Some? ==> task.state == Succeeded || task.state == Completing
    ensures refused ==> task.state == Error
    ensures u != null && task.state == Uploading ==> net(|log|).cancelled
    ensures u != null && task.state == Error ==> GaveUp(log) || (!closing.lost && u.stored.None?)
    ensures task.state == Completing ==> closing.lost
    ensures task.state == Succeeded ==> !closing.lost
    ensures u != null ==> task.state in {Uploading, Completing, Succeeded, Error}
    ensures forall i | 0 <= i < |log| :: log[i].outcome == Broke <==> Breaks(net(i))
    ensures !refused && (forall n :: Benign(net(n))) ==>
              && Story(log, net, |file|, chunkBytes)
              && (if Fails(log) < 5 then ClientAt(log, net) == |file| else Fails(log) == 5 && task.state == Error)
              && (Fair(closing) ==> (task.state == Succeeded <==> Fails(log) < 5 && |file| >= 1))
    ensures !refused && (forall n :: Benign(net(n))) ==> EndsAtFive(log, net)
    ensures !refused && (forall n :: Benign(net(n))) && Fair(closing) && (Steady(net) || Answering(net)) ==>
              (task.state == Succeeded <==> |file| >= 1)
  {
    hide Faithful, Fair, Benign, Told, Story, Fails, ClientAt, ServerAt, Calm, Breaks, Next, Steady, Answering,
         EndsAtFive, GaveUp;
    log := [];
    NoStory(net, |file|, chunkBytes);
    task.state := Starting;
    if refused { task.state := Error; return null, log; }
    u := new Upload(|file|);
    FaithfulNew(file, u);
    task.state := Uploading;
    var offset, attempts, n, going := 0, 0, 0, true;
    while offset < |file| && going
      invariant fresh(u) && Faithful(file, u) && u.stored.None?
      invariant going ==>
                  && task.state == Uploading && offset <= |file| && attempts < MAX_ATTEMPTS
                  && (u.Open() ==> offset <= u.committed)
      invariant !going ==> task.state == Error && GaveUp(log)
      invariant |log| == n && Fails(log) == attempts
      invariant forall i | 0 <= i < |log| :: log[i].outcome == Broke <==> Breaks(net(i))
      invariant (forall i :: Benign(net(i))) ==>
                  && u.Open() && Story(log, net, |file|, chunkBytes) && u.committed == ServerAt(log)
                  && (if going then offset == ClientAt(log, net) else attempts == 5)
      decreases going, |file| - offset, MAX_ATTEMPTS - attempts
    {
      var f := net(n);
      BenignMeans(f);
      if f.cancelled { return; }
      ghost var r;
      ghost var was := offset;
      offset, attempts, going, r :=
        OneRequest(task, file, u, offset, attempts, Min(offset + chunkBytes, |file|), f);
      if forall i :: Benign(net(i)) {
        assert Benign(net(n));
        StoryMore(log, net, |file|, chunkBytes, r);
        ToldMeans(r, f, Min(was + chunkBytes, |file|));
      }
      FailsMore(log, r); EndsMore(log, net, r); GaveUpMore(log, r);
      log := log + [r];
      n := n + 1;
    }
    if going { Finish(task, file, u, closing); }
    if forall n :: Benign(net(n)) { Reckoned(log, net, |file|, chunkBytes); }
  }

  /** The completing request, once the whole file was sent. */
  method Finish(task: Task, file: Bytes, u: Upload, f: Fate)
    requires Faithful(file, u) && u.stored.None? && (u.Open() ==> |file| <= u.committed)
    modifies task, u
    ensures Faithful(file, u)
    ensures task.state == Succeeded ==> u.stored == Some(file) && |file| >= 1
    ensures u.stored.Some? ==> task.state == Succeeded || task.state == Completing
    ensures Fair(f) && old(u.Open()) ==> (task.state == Succeeded <==> |file| >= 1)
    ensures task.state == if f.lost then Completing else if u.stored.Some? then Succeeded else Error
  {
    task.state := Completing;
    if f.vanish { u.Abort(); }
    var done := u.Complete(f.weather.faults(0));
    if f.lost { return; }
    if done != Completed { task.state := Error; return; }
    task.state, task.sent := Succeeded, |file|;
  }

  /** Every other response is lost, and so is the answer to the query after it. */
  function Alternating(n: nat): Fate {
    Fate(false, false, [], None, Weather((i: nat) => false, (i: nat) => false), n % 2 == 0, n % 2 == 0)
  }

  /** The client resends what has landed, learns so from a 409, and has had no success. */
  lemma {:induction false} AlternatingStory(log: seq<Request>, size: nat)
    requires Story(log, Alternating, size, 1) && |log| <= 9
    ensures Fails(log) == (|log| + 1) / 2 && ServerAt(log) == (|log| + 1) / 2 && ClientAt(log, Alternating) == |log| / 2
  {
    if log == [] {
    } else {
      AlternatingStory(log[..|log| - 1], size);
    }
  }

  lemma {:induction false} AlternatingLength(log: seq<Request>, size: nat)
    requires Story(log, Alternating, size, 1)
    ensures |log| <= 9
  {
    if |log| > 9 {
      AlternatingLength(log[..|log| - 1], size);
      AlternatingStory(log[..|log| - 1], size);
    }
  }

  /**
   A 409 does not start the count again: with no two failures in a row, and every byte delivered at
   the first attempt, any file of five bytes or more is given up after its fifth byte.
   */
  method GivesUpOnResyncs(task: Task, file: Bytes) returns (u: Upload?)
    requires |file| >= 5
    modifies task
    ensures task.state == Error
  {
    ghost var log;
    u, log := RunUpload(task, file, 1, false, Alternating, Alternating(1));
    AlternatingBenign();
    AlternatingLength(log, |file|);
    AlternatingStory(log, |file|);
  }

  lemma AlternatingBenign()
    ensures forall n :: Benign(Alternating(n))
  {
  }

  /** What is stored when the first n bytes are written twice. */
  function Doubled(file: Bytes, n: nat): Bytes
    requires 2 * n <= |file|
  {
    file[..n] + file[..n] + file[2 * n..]
  }

  lemma DoubledDiffers(file: Bytes, n: nat)
    requires 2 * n <= |file|
    ensures |Doubled(file, n)| == |file|
    ensures Doubled(file, n) == file <==> file[..n] == file[n..2 * n]
  {
    var d := Doubled(file, n);
    assert d[n..2 * n] == file[..n];
    if file[..n] == file[n..2 * n] {
      assert file == file[..n] + file[n..2 * n] + file[2 * n..];
    }
  }

  /**
   Byte-exact delivery needs requests that do not overlap. Two requests with the same first n
   bytes that both pass the range check before either writes (as when the browser retries a
   request it takes for lost), and one with the rest: the upload has its declared size, is
   completed and reported as done, and what is stored is not the file, unless its second n bytes
   happen to be its first. The size check cannot see it.
   */
  method OverlappingChunks(file: Bytes, n: nat) returns (u: Upload, done: Completion)
    requires 0 < n && 2 * n <= |file|
    ensures u.declared == |file| && done == Completed
    ensures u.stored.Some? && u.stored.value == Doubled(file, n) && |u.stored.value| == |file|
    ensures u.stored.value == file <==> file[..n] == file[n..2 * n]
  {
    u := new Upload(|file|);
    var first := u.committed == 0;
    var second := u.committed == 0;
    assert first && second;
    var w := u.WriteChunk(file[..n], false, false);
    w := u.WriteChunk(file[..n], false, false);
    assert u.Part() == file[..n] + file[..n];
    if 2 * n < |file| {
      w := u.WriteChunk(file[2 * n..], false, false);
    }
    assert u.Part() == Doubled(file, n);
    DoubledDiffers(file, n);
    done := u.Complete(false);
  }
}
