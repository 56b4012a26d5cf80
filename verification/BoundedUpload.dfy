/** bounded-memory-storage.ts: buffering the files of one multipart request. Every file has its own stream
    handlers; all of them share the request's byte counter. Events of different files arrive in any order. */
module BoundedUpload {
  import opened Prelude

  type Chunk = seq<bv8>

  datatype Limits = Limits(perFile: nat, total: nat)

  datatype Reply = TooLargeFile | TooLargeRequest | StreamError(e: int) | Stored(buffer: Chunk, size: nat)

  /** One file's closure; `replies` lists every call of its callback. */
  datatype Upload = Upload(chunks: seq<Chunk>, fileBytes: nat, settled: bool, replies: seq<Reply>)

  datatype State = State(bytes: nat, files: seq<Upload>)

  datatype Event = Open | Data(i: nat, chunk: Chunk) | Error(i: nat, e: int) | End(i: nat)

  function Flatten(chunks: seq<Chunk>): Chunk {
    if chunks == [] then [] else Flatten(chunks[..|chunks| - 1]) + chunks[|chunks| - 1]
  }

  /** Concatenation to a given length: cut off or filled up with zeros. */
  function Concat(chunks: seq<Chunk>, size: nat): Chunk {
    var all := Flatten(chunks);
    if |all| >= size then all[..size] else all + seq(size - |all|, _ => 0)
  }

  function Fail(f: Upload, why: Reply): Upload {
    if f.settled then f else f.(settled := true, replies := f.replies + [why])
  }

  /** One data event: the file afterwards and the request's byte count. */
  function OnData(f: Upload, bytes: nat, chunk: Chunk, c: Limits): (Upload, nat) {
    if f.settled then (f, bytes)
    else
      var counted := f.(fileBytes := f.fileBytes + |chunk|);
      var total := bytes + |chunk|;
      if counted.fileBytes > c.perFile then (Fail(counted, TooLargeFile), total)
      else if total > c.total then (Fail(counted, TooLargeRequest), total)
      else (counted.(chunks := f.chunks + [chunk]), total)
  }

  function OnEnd(f: Upload): Upload {
    if f.settled then f else f.(settled := true, replies := f.replies + [Stored(Concat(f.chunks, f.fileBytes), f.fileBytes)])
  }

  function Next(s: State, event: Event, c: Limits): State {
    match event
    case Open => s.(files := s.files + [Upload([], 0, false, [])])
    case Data(i, chunk) =>
      if i >= |s.files| then s
      else
        var (f, bytes) := OnData(s.files[i], s.bytes, chunk, c);
        State(bytes, s.files[i := f])
    case Error(i, e) => if i >= |s.files| then s else s.(files := s.files[i := Fail(s.files[i], StreamError(e))])
    case End(i) => if i >= |s.files| then s else s.(files := s.files[i := OnEnd(s.files[i])])
  }

  function After(events: seq<Event>, c: Limits): State {
    if events == [] then State(0, []) else Next(After(events[..|events| - 1], c), events[|events| - 1], c)
  }

  // ----- the invariant -----

  function Kept(): Upload -> int {
    (f: Upload) => |Flatten(f.chunks)|
  }

  function Counted(): Upload -> int {
    (f: Upload) => f.fileBytes
  }

  /** At most one callback, made when the file settles; an unsettled file has counted exactly what it keeps. */
  predicate FileSound(f: Upload, c: Limits) {
    && |f.replies| == (if f.settled then 1 else 0)
    && |Flatten(f.chunks)| <= f.fileBytes && |Flatten(f.chunks)| <= c.perFile
    && (!f.settled ==> f.fileBytes == |Flatten(f.chunks)|)
    && (forall k :: 0 <= k < |f.replies| && f.replies[k].Stored? ==> f.replies[k] == Stored(Flatten(f.chunks), |Flatten(f.chunks)|))
  }

  predicate Sound(s: State, c: Limits) {
    && (forall i :: 0 <= i < |s.files| ==> FileSound(s.files[i], c))
    && s.bytes == Tally(s.files, Counted())
    && Tally(s.files, Kept()) <= s.bytes && Tally(s.files, Kept()) <= c.total
  }

  lemma FlattenSnoc(chunks: seq<Chunk>, chunk: Chunk)
    ensures Flatten(chunks + [chunk]) == Flatten(chunks) + chunk
  {
    assert (chunks + [chunk])[..|chunks|] == chunks;
  }

  lemma OnDataKeepsSound(f: Upload, bytes: nat, chunk: Chunk, c: Limits)
    requires FileSound(f, c)
    ensures var (g, total) := OnData(f, bytes, chunk, c);
      && FileSound(g, c)
      && total - bytes == g.fileBytes - f.fileBytes
      && 0 <= Kept()(g) - Kept()(f) <= total - bytes
      && (Kept()(g) > Kept()(f) ==> total <= c.total)
  {
    FlattenSnoc(f.chunks, chunk);
  }

  /** Replacing one file by what its handler made of it. */
  lemma HandledKeepsSound(s: State, i: nat, f: Upload, bytes: nat, c: Limits)
    requires Sound(s, c) && i < |s.files| && FileSound(f, c)
    requires bytes - s.bytes == f.fileBytes - s.files[i].fileBytes
    requires 0 <= Kept()(f) - Kept()(s.files[i]) <= bytes - s.bytes
    requires Kept()(f) > Kept()(s.files[i]) ==> bytes <= c.total
    ensures Sound(State(bytes, s.files[i := f]), c)
  {
    FileReplaced(s, i, f);
  }

  lemma NextKeepsSound(s: State, event: Event, c: Limits)
    requires Sound(s, c)
    ensures Sound(Next(s, event, c), c)
  {
    match event {
      case Open =>
        TallyAppend(s.files, Upload([], 0, false, []), Counted());
        TallyAppend(s.files, Upload([], 0, false, []), Kept());
      case Data(i, chunk) =>
        if i < |s.files| {
          var (f, bytes) := OnData(s.files[i], s.bytes, chunk, c);
          OnDataKeepsSound(s.files[i], s.bytes, chunk, c);
          HandledKeepsSound(s, i, f, bytes, c);
        }
      case Error(i, e) => if i < |s.files| { HandledKeepsSound(s, i, Fail(s.files[i], StreamError(e)), s.bytes, c); }
      case End(i) =>
        if i < |s.files| {
          OnEndKeepsSound(s.files[i], c);
          HandledKeepsSound(s, i, OnEnd(s.files[i]), s.bytes, c);
        }
    }
  }

  lemma OnEndKeepsSound(f: Upload, c: Limits)
    requires FileSound(f, c)
    ensures FileSound(OnEnd(f), c)
    ensures !f.settled ==> OnEnd(f).replies == [Stored(Flatten(f.chunks), |Flatten(f.chunks)|)]
  {
    assert !f.settled ==> Concat(f.chunks, f.fileBytes) == Flatten(f.chunks);
  }

  lemma FileReplaced(s: State, i: nat, f: Upload)
    requires i < |s.files|
    ensures Tally(s.files[i := f], Counted()) == Tally(s.files, Counted()) - s.files[i].fileBytes + f.fileBytes
    ensures Tally(s.files[i := f], Kept()) == Tally(s.files, Kept()) - |Flatten(s.files[i].chunks)| + |Flatten(f.chunks)|
  {
    TallyUpdate(s.files, i, f, Counted());
    TallyUpdate(s.files, i, f, Kept());
  }

  lemma {:induction false} RunsKeepSound(events: seq<Event>, c: Limits)
    ensures Sound(After(events, c), c)
  {
    if events != [] {
      RunsKeepSound(events[..|events| - 1], c);
      NextKeepsSound(After(events[..|events| - 1], c), events[|events| - 1], c);
    }
  }

  /** Whatever the interleaving: every callback fires at most once, no file keeps more than its limit, and all
      files together keep no more than the request's. */
  lemma MemoryIsBounded(events: seq<Event>, c: Limits)
    ensures var s := After(events, c);
      && (forall i :: 0 <= i < |s.files| ==> |s.files[i].replies| <= 1 && |Flatten(s.files[i].chunks)| <= c.perFile)
      && (forall i, k :: 0 <= i < |s.files| && 0 <= k < |s.files[i].replies| && s.files[i].replies[k].Stored? ==>
            s.files[i].replies[k].size == |s.files[i].replies[k].buffer| <= c.perFile)
      && Tally(s.files, Kept()) <= c.total
  {
    RunsKeepSound(events, c);
    assert forall i :: 0 <= i < |After(events, c).files| ==> FileSound(After(events, c).files[i], c);
  }

  // ----- what is stored is what was sent -----

  /** The chunks that reached file `i` once it was open, in order. */
  function Sent(events: seq<Event>, i: nat, c: Limits): seq<Chunk> {
    if events == [] then []
    else
      var past, e := events[..|events| - 1], events[|events| - 1];
      Sent(past, i, c) + if e.Data? && e.i == i && i < |After(past, c).files| then [e.chunk] else []
  }

  /** The reply stores exactly the chunks sent to the file before the end event at `p`. */
  predicate StoredAt(events: seq<Event>, i: nat, p: nat, reply: Reply, c: Limits) {
    && p < |events| && events[p] == End(i)
    && reply == Stored(Flatten(Sent(events[..p], i, c)), |Flatten(Sent(events[..p], i, c))|)
  }

  /** An unsettled file holds everything sent to it, and a stored file is everything sent to it before its end. */
  ghost predicate TellsWhatWasSent(events: seq<Event>, i: nat, f: Upload, c: Limits) {
    && (!f.settled ==> f.chunks == Sent(events, i, c))
    && forall k :: 0 <= k < |f.replies| && f.replies[k].Stored? ==> exists p: nat :: StoredAt(events, i, p, f.replies[k], c)
  }

  lemma {:induction false} StoredIsWhatWasSent(events: seq<Event>, i: nat, c: Limits)
    requires i < |After(events, c).files|
    ensures TellsWhatWasSent(events, i, After(events, c).files[i], c)
  {
    var n := |events| - 1;
    var past := events[..n];
    if i >= |After(past, c).files| {
      SentNothing(past, i, c);
      JustOpened(After(past, c), i, events[n], c);
    } else {
      StoredIsWhatWasSent(past, i, c);
      RunsKeepSound(past, c);
      assert FileSound(After(past, c).files[i], c);
      EventTells(events, i, After(past, c).files[i], After(events, c).files[i], c);
    }
  }

  lemma JustOpened(s: State, i: nat, e: Event, c: Limits)
    requires |s.files| <= i < |Next(s, e, c).files|
    ensures e == Open && Next(s, e, c).files[i] == Upload([], 0, false, [])
  {
  }

  lemma EventTells(events: seq<Event>, i: nat, f: Upload, g: Upload, c: Limits)
    requires events != []
    requires var past := events[..|events| - 1];
      && i < |After(past, c).files| && i < |After(events, c).files|
      && f == After(past, c).files[i] && g == After(events, c).files[i]
      && TellsWhatWasSent(past, i, f, c) && FileSound(f, c)
    ensures TellsWhatWasSent(events, i, g, c)
  {
    var n := |events| - 1;
    var past := events[..n];
    HandlerReplies(After(past, c), i, events[n], c);
    forall k | 0 <= k < |g.replies| && g.replies[k].Stored? ensures exists p: nat :: StoredAt(events, i, p, g.replies[k], c) {
      if k < |f.replies| {
        var p: nat :| StoredAt(past, i, p, f.replies[k], c);
        EarlierEnd(events, i, p, f.replies[k], c);
      } else {
        assert StoredAt(events, i, n, g.replies[k], c);
      }
    }
    UnsettledGrows(After(past, c), i, events[n], c);
    assert Sent(past, i, c) + [] == Sent(past, i, c);
  }

  /** A handler keeps the replies made so far; a new stored reply is made by an end event and holds every chunk. */
  lemma HandlerReplies(s: State, i: nat, e: Event, c: Limits)
    requires i < |s.files| && FileSound(s.files[i], c)
    ensures var f, g := s.files[i], Next(s, e, c).files[i];
      && f.replies <= g.replies
      && forall k :: |f.replies| <= k < |g.replies| && g.replies[k].Stored? ==>
           e == End(i) && !f.settled && g.replies[k] == Stored(Flatten(f.chunks), |Flatten(f.chunks)|)
  {
    OnEndKeepsSound(s.files[i], c);
  }

  lemma UnsettledGrows(s: State, i: nat, e: Event, c: Limits)
    requires i < |s.files|
    ensures var f, g := s.files[i], Next(s, e, c).files[i];
      !g.settled ==> !f.settled && g.chunks == f.chunks + if e.Data? && e.i == i then [e.chunk] else []
  {
  }

  lemma EarlierEnd(events: seq<Event>, i: nat, p: nat, reply: Reply, c: Limits)
    requires events != [] && StoredAt(events[..|events| - 1], i, p, reply, c)
    ensures StoredAt(events, i, p, reply, c)
  {
    assert events[..|events| - 1][..p] == events[..p];
  }

  lemma {:induction false} SentNothing(events: seq<Event>, i: nat, c: Limits)
    requires i >= |After(events, c).files|
    ensures Sent(events, i, c) == []
  {
    if events != [] { SentNothing(events[..|events| - 1], i, c); }
  }

  // ----- refusals -----

  function AllSent(events: seq<Event>, c: Limits): nat {
    if events == [] then 0
    else
      var past, e := events[..|events| - 1], events[|events| - 1];
      AllSent(past, c) + if e.Data? && e.i < |After(past, c).files| then |e.chunk| else 0
  }

  /** How the next chunk of an open, unanswered file is judged: it counts towards both limits, the file's before the
      request's, and is refused with the first one it breaks; otherwise it is kept behind everything sent before. */
  lemma ChunkIsJudged(events: seq<Event>, i: nat, chunk: Chunk, c: Limits)
    requires i < |After(events, c).files| && !After(events, c).files[i].settled
    ensures var s, sent := After(events, c), |Flatten(Sent(events, i, c))|;
      var t := After(events + [Data(i, chunk)], c);
      && t.bytes == s.bytes + |chunk| && |t.files| == |s.files|
      && t.files[i].replies == (if sent + |chunk| > c.perFile then [TooLargeFile]
                                else if s.bytes + |chunk| > c.total then [TooLargeRequest] else [])
      && (t.files[i].settled <==> t.files[i].replies != [])
      && t.files[i].chunks == Sent(events, i, c) + (if t.files[i].settled then [] else [chunk])
      && forall j :: 0 <= j < |s.files| && j != i ==> t.files[j] == s.files[j]
  {
    assert (events + [Data(i, chunk)])[..|events|] == events;
    StoredIsWhatWasSent(events, i, c);
    RunsKeepSound(events, c);
    var f := After(events, c).files[i];
    assert FileSound(f, c) && f.replies == [];
    assert f.chunks + [] == f.chunks;
  }

  /** The end of an unanswered file answers with everything sent to it, an error with that error; an answered file
      listens to nothing any more. */
  lemma EndIsAnswered(events: seq<Event>, i: nat, e: int, c: Limits)
    requires i < |After(events, c).files|
    ensures var f := After(events, c).files[i];
      var sent := Flatten(Sent(events, i, c));
      if f.settled
      then After(events + [End(i)], c) == After(events + [Error(i, e)], c) == After(events, c)
      else After(events + [End(i)], c).files[i].replies == [Stored(sent, |sent|)]
           && After(events + [Error(i, e)], c).files[i].replies == [StreamError(e)]
  {
    assert (events + [End(i)])[..|events|] == events && (events + [Error(i, e)])[..|events|] == events;
    StoredIsWhatWasSent(events, i, c);
    RunsKeepSound(events, c);
    var s := After(events, c);
    assert FileSound(s.files[i], c);
    OnEndKeepsSound(s.files[i], c);
    assert s.files[i := s.files[i]] == s.files;
  }

  predicate Refused(f: Upload) {
    exists k :: 0 <= k < |f.replies| && (f.replies[k].TooLargeFile? || f.replies[k].TooLargeRequest?)
  }

  /** A request that stays within its limits is never refused. */
  lemma {:induction false} SmallRequestsAreNeverRefused(events: seq<Event>, i: nat, c: Limits)
    requires i < |After(events, c).files|
    requires |Flatten(Sent(events, i, c))| <= c.perFile && AllSent(events, c) <= c.total
    ensures !Refused(After(events, c).files[i])
  {
    var n := |events| - 1;
    var past, e := events[..n], events[n];
    var before := After(past, c);
    assert past + [e] == events && After(events, c) == Next(before, e, c);
    if i < |before.files| {
      SentGrows(past, i, e, c);
      SmallRequestsAreNeverRefused(past, i, c);
      FitsStep(past, i, e, c);
      StaysUnrefused(before, i, e, c);
    } else {
      assert Next(before, e, c).files[i] == Upload([], 0, false, []);
    }
  }

  /** The next chunk of an unsettled file fits both limits. */
  predicate Fits(s: State, i: nat, e: Event, c: Limits)
    requires i < |s.files|
  {
    e.Data? && e.i == i && !s.files[i].settled ==> s.files[i].fileBytes + |e.chunk| <= c.perFile && s.bytes + |e.chunk| <= c.total
  }

  lemma FitsStep(past: seq<Event>, i: nat, e: Event, c: Limits)
    requires i < |After(past, c).files|
    requires |Flatten(Sent(past + [e], i, c))| <= c.perFile && AllSent(past + [e], c) <= c.total
    ensures Fits(After(past, c), i, e, c)
  {
    SentGrows(past, i, e, c);
    StoredIsWhatWasSent(past, i, c);
    RunsKeepSound(past, c);
    CountIsBelowSent(past, c);
    assert FileSound(After(past, c).files[i], c);
  }

  lemma StaysUnrefused(s: State, i: nat, e: Event, c: Limits)
    requires i < |s.files| && Fits(s, i, e, c) && !Refused(s.files[i])
    ensures !Refused(Next(s, e, c).files[i])
  {
    var f, g := s.files[i], Next(s, e, c).files[i];
    assert g.replies == f.replies || exists last :: g.replies == f.replies + [last] && !last.TooLargeFile? && !last.TooLargeRequest?;
  }

  lemma SentGrows(past: seq<Event>, i: nat, e: Event, c: Limits)
    ensures var extra := if e.Data? && e.i == i && i < |After(past, c).files| then |e.chunk| else 0;
      |Flatten(Sent(past + [e], i, c))| == |Flatten(Sent(past, i, c))| + extra
    ensures AllSent(past + [e], c) >= AllSent(past, c)
    ensures e.Data? && e.i < |After(past, c).files| ==> AllSent(past + [e], c) == AllSent(past, c) + |e.chunk|
  {
    assert (past + [e])[..|past|] == past;
    var sent := Sent(past, i, c);
    assert sent + [] == sent;
    if e.Data? { FlattenSnoc(sent, e.chunk); }
  }

  lemma {:induction false} CountIsBelowSent(events: seq<Event>, c: Limits)
    ensures After(events, c).bytes <= AllSent(events, c)
  {
    if events != [] { CountIsBelowSent(events[..|events| - 1], c); }
  }

  // ----- the handlers -----

  class Request {
    var bytes: nat

    constructor ()
      ensures bytes == 0
    {
      bytes := 0;
    }
  }

  /** The handlers of one file's stream, sharing the counter of their request. */
  class FileHandler {
    const request: Request
    const limits: Limits
    var chunks: seq<Chunk>
    var fileBytes: nat
    var settled: bool
    var replies: seq<Reply>

    function View(): Upload
      reads this
    {
      Upload(chunks, fileBytes, settled, replies)
    }

    constructor (request: Request, limits: Limits)
      ensures this.request == request && this.limits == limits && View() == Upload([], 0, false, [])
    {
      this.request, this.limits := request, limits;
      chunks, fileBytes, settled, replies := [], 0, false, [];
    }

    method Refuse(why: Reply)
      modifies this
      ensures View() == Fail(old(View()), why)
    {
      if settled { return; }
      settled, replies := true, replies + [why];
    }

    /** One data event: a stream that already settled is drained without counting. */
    method HandleData(chunk: Chunk)
      modifies this, request
      ensures (View(), request.bytes) == OnData(old(View()), old(request.bytes), chunk, limits)
    {
      if settled { return; }
      fileBytes := fileBytes + |chunk|;
      request.bytes := request.bytes + |chunk|;
      if fileBytes > limits.perFile {
        Refuse(TooLargeFile);
        return;
      }
      if request.bytes > limits.total {
        Refuse(TooLargeRequest);
        return;
      }
      chunks := chunks + [chunk];
    }

    method HandleError(e: int)
      modifies this
      ensures View() == Fail(old(View()), StreamError(e))
    {
      if !settled { settled, replies := true, replies + [StreamError(e)]; }
    }

    method HandleEnd()
      modifies this
      ensures View() == OnEnd(old(View()))
    {
      if settled { return; }
      settled, replies := true, replies + [Stored(Concat(chunks, fileBytes), fileBytes)];
    }
  }
}
