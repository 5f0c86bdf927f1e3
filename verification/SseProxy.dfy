/** The byte-for-byte SSE proxy (internal/provider/openai.go): it forwards every chunk untouched
    while watching the lines for a completion signal and a usage object. */
module SseProxy {
  import opened Bytes

  datatype Usage = Usage(input: nat, output: nat, cached: nat, reasoning: nat)

  /** What the two JSON decodes of a data payload yield: the finish_reason of each choice, and
      the usage object when one is present. */
  datatype Decoder = Decoder(finishReasons: bytes -> Option<seq<Option<string>>>, usage: bytes -> Option<Usage>)

  /** The two questions asked of a line. */
  datatype Watch = Watch(complete: bytes -> bool, usage: bytes -> Option<Usage>)

  const MAX_SSE_LINE: nat := 50 * 1024 * 1024

  function Payload(line: bytes): Option<bytes> {
    if HasPrefix(line, Ascii("data:")) then Some(TrimSpace(line[5..])) else None
  }

  /** Some choice has a finish_reason that is not empty. */
  predicate Finishes(reasons: seq<Option<string>>) {
    exists i :: 0 <= i < |reasons| && reasons[i] != None && reasons[i] != Some("")
  }

  /** isCompletionSignal. */
  predicate CompletionSignal(d: Decoder, line: bytes) {
    match Payload(line)
    case None => false
    case Some(p) => p == Ascii("[DONE]") || FinishPayload(d, p)
  }

  predicate FinishPayload(d: Decoder, p: bytes) {
    Contains(p, Ascii("\"finish_reason\"")) && d.finishReasons(p).Some? && Finishes(d.finishReasons(p).value)
  }

  /** chatUsageFromSSELine. */
  function UsageOfLine(d: Decoder, line: bytes): Option<Usage> {
    match Payload(line)
    case None => None
    case Some(p) => if p == [] || p[0] != 123 || !Contains(p, Ascii("\"usage\"")) then None else d.usage(p)
  }

  function ChatWatch(d: Decoder): Watch {
    Watch(line => CompletionSignal(d, line), line => UsageOfLine(d, line))
  }

  // ---------------------------------------------------------------- line-level meaning

  predicate Readable(line: bytes) { |line| <= MAX_SSE_LINE }

  /** Some line short enough to be inspected completes the stream. */
  predicate AnyComplete(w: Watch, ls: seq<bytes>) {
    exists l :: l in ls && Readable(l) && w.complete(l)
  }

  /** The last usage object on a line short enough to be inspected. */
  function LastUsage(w: Watch, ls: seq<bytes>): Option<Usage> {
    if ls == [] then None
    else
      var l := ls[|ls| - 1];
      if Readable(l) && w.usage(l).Some? then w.usage(l) else LastUsage(w, ls[..|ls| - 1])
  }

  /** All lines of a stream, the unterminated last one included. */
  function AllLines(body: bytes): seq<bytes> { Lines(body) + [Tail(body)] }

  // ---------------------------------------------------------------- the scanner

  class SseProxyState {
    const watch: Watch
    var line: bytes
    var lost: bool
    var usage: Option<Usage>

    predicate Fresh()
      reads this
    {
      line == [] && !lost && usage == None
    }

    /** The scan state after the bytes read: the open line unless it is too long, and the
        last usage of the complete lines. */
    ghost predicate InStep(read: bytes)
      reads this
    {
      && lost == !Readable(Tail(read))
      && line == (if lost then [] else Tail(read))
      && usage == LastUsage(watch, Lines(read))
    }

    constructor (watch: Watch)
      ensures this.watch == watch && Fresh()
    {
      this.watch := watch;
      line, lost, usage := [], false, None;
    }

    method AddLine(p: bytes, ghost open: bytes)
      requires lost == !Readable(open) && line == if lost then [] else open
      modifies `line, `lost
      ensures lost == !Readable(open + p) && line == if lost then [] else open + p
    {
      if lost {
        return;
      }
      if |line| + |p| > MAX_SSE_LINE {
        lost, line := true, [];
        return;
      }
      line := line + p;
    }

    method ObserveUsage(l: bytes)
      modifies `usage
      ensures usage == if watch.usage(l).Some? then watch.usage(l) else old(usage)
    {
      if watch.usage(l).Some? {
        usage := watch.usage(l);
      }
    }

    /** scanLines: true exactly when a line ended by this chunk completes the stream. */
    method ScanLines(chunk: bytes, ghost read: bytes) returns (finished: bool)
      requires InStep(read)
      modifies this
      ensures InStep(read + chunk)
      ensures AnyComplete(watch, Lines(read + chunk)) == (AnyComplete(watch, Lines(read)) || finished)
    {
      finished := false;
      var rest := chunk;
      ghost var upTo := read;
      assert read + chunk == upTo + rest;
      while |rest| > 0
        invariant upTo + rest == read + chunk
        invariant InStep(upTo)
        invariant AnyComplete(watch, Lines(upTo)) == (AnyComplete(watch, Lines(read)) || finished)
      {
        var i := FindNewline(rest);
        if i == |rest| {
          assert rest[..i] == rest;
          OpenLine(upTo, rest);
          AddLine(rest, Tail(upTo));
          return;
        }
        EndLine(watch, upTo, rest[..i]);
        AddLine(rest[..i], Tail(upTo));
        if !lost {
          if watch.complete(line) {
            finished := true;
          }
          ObserveUsage(line);
        }
        line, lost := [], false;
        Regroup(upTo, rest, i);
        upTo := upTo + rest[..i] + [NL];
        rest := rest[i + 1..];
      }
      assert upTo + rest == upTo;
    }

    /** The unterminated last line of all the bytes read counts when it is short enough. */
    method PendingComplete(ghost read: bytes) returns (complete: bool)
      requires InStep(read)
      ensures complete == (Readable(Tail(read)) && watch.complete(Tail(read)))
    {
      complete := !lost && watch.complete(line);
    }

    /** release: the next stream cannot inherit anything. */
    method Release()
      modifies this
      ensures Fresh()
    {
      lost, usage, line := false, None, [];
    }
  }

  /** What one more complete line changes. */
  lemma EndLine(w: Watch, read: bytes, upTo: bytes)
    requires NL !in upTo
    ensures var next := read + upTo + [NL];
            var line := Tail(read) + upTo;
            && Tail(next) == []
            && AnyComplete(w, Lines(next)) == (AnyComplete(w, Lines(read)) || (Readable(line) && w.complete(line)))
            && LastUsage(w, Lines(next)) ==
               if Readable(line) && w.usage(line).Some? then w.usage(line) else LastUsage(w, Lines(read))
  {
    var line := Tail(read) + upTo;
    assert read + upTo + [NL] == read + (upTo + [NL]);
    assert Tail(read) + (upTo + [NL]) == line + [NL] + [];
    LinesAppend(read, upTo + [NL]);
    LinesCons(line, []);
    LinesNone([]);
    AddOne(w, Lines(read), line);
  }

  lemma AddOne(w: Watch, ls: seq<bytes>, line: bytes)
    ensures AnyComplete(w, ls + [line]) == (AnyComplete(w, ls) || (Readable(line) && w.complete(line)))
    ensures LastUsage(w, ls + [line]) ==
            if Readable(line) && w.usage(line).Some? then w.usage(line) else LastUsage(w, ls)
  {
    assert (ls + [line])[..|ls|] == ls;
    assert line in ls + [line];
  }

  // ---------------------------------------------------------------- the proxy

  /** The client connection: a write may fail, having delivered any part of its data. */
  class ClientWriter {
    var body: bytes
    const failsAt: nat -> Option<nat>
    var writes: nat

    constructor (failsAt: nat -> Option<nat>)
      ensures body == [] && writes == 0 && this.failsAt == failsAt
    {
      body, writes, this.failsAt := [], 0, failsAt;
    }

    method Write(data: bytes) returns (ok: bool)
      modifies this
      ensures ok == failsAt(old(writes)).None? && writes == old(writes) + 1
      ensures if ok then body == old(body) + data else old(body) <= body <= old(body) + data
    {
      var fail := failsAt(writes);
      if fail.None? {
        body, ok := body + data, true;
      } else {
        body, ok := body + data[..if fail.value <= |data| then fail.value else |data|], false;
      }
      writes := writes + 1;
    }
  }

  datatype End = EOF | ReadError

  datatype Verdict = Finished(usage: Option<Usage>) | Incomplete | ReadFailed | WriteFailed

  lemma {:induction false} ConcatPrefix(chunks: seq<bytes>, n: nat)
    requires n <= |chunks|
    ensures Concat(chunks[..n]) <= Concat(chunks)
    decreases |chunks| - n
  {
    if n < |chunks| {
      ConcatSnoc(chunks, n);
      ConcatPrefix(chunks, n + 1);
    } else {
      assert chunks[..n] == chunks;
    }
  }

  /** Whether one of the next n writes fails. */
  ghost predicate SomeWriteFails(failsAt: nat -> Option<nat>, from: nat, n: nat) {
    exists k: nat :: from <= k < from + n && failsAt(k).Some?
  }

  /** The verdict at the end of the body: the unterminated last line counts too. */
  method Conclude(state: SseProxyState, sawFinish: bool, ghost read: bytes) returns (r: Verdict)
    requires state.InStep(read) && sawFinish == AnyComplete(state.watch, Lines(read))
    modifies state
    ensures r == if AnyComplete(state.watch, AllLines(read)) then Finished(LastUsage(state.watch, AllLines(read))) else Incomplete
  {
    AddOne(state.watch, Lines(read), Tail(read));
    var finished := sawFinish;
    if !finished {
      finished := state.PendingComplete(read);
    }
    if !finished {
      return Incomplete;
    }
    if !state.lost {
      state.ObserveUsage(state.line);
    }
    return Finished(state.usage);
  }

  lemma PrefixOfSum(a: bytes, b: bytes)
    ensures a <= a + b
  {
  }

  lemma PrefixTrans(a: bytes, b: bytes, c: bytes)
    requires a <= b <= c
    ensures a <= c
  {
  }

  lemma PrefixAfter(a: bytes, b: bytes, c: bytes)
    requires b <= c
    ensures a + b <= a + c
  {
  }

  /** A write that failed part of the way left a prefix of the whole. */
  lemma StillPrefix(before: bytes, chunks: seq<bytes>, n: nat, body: bytes)
    requires n < |chunks| && before + Concat(chunks[..n]) <= body <= before + Concat(chunks[..n]) + chunks[n]
    ensures before <= body <= before + Concat(chunks)
  {
    var read, next := Concat(chunks[..n]), Concat(chunks[..n + 1]);
    ConcatSnoc(chunks, n);
    ConcatPrefix(chunks, n + 1);
    Assoc(before, read, chunks[n]);
    PrefixAfter(before, next, Concat(chunks));
    PrefixTrans(body, before + next, before + Concat(chunks));
    PrefixOfSum(before, read);
    PrefixTrans(before, before + read, body);
  }

  lemma OneMoreWrite(failsAt: nat -> Option<nat>, from: nat, n: nat)
    ensures SomeWriteFails(failsAt, from, n + 1) <==> SomeWriteFails(failsAt, from, n) || failsAt(from + n).Some?
  {
    if failsAt(from + n).Some? {
      assert SomeWriteFails(failsAt, from, n + 1);
    }
  }

  lemma MoreWrites(failsAt: nat -> Option<nat>, from: nat, n: nat, all: nat)
    requires SomeWriteFails(failsAt, from, n) && n <= all
    ensures SomeWriteFails(failsAt, from, all)
  {
  }

  /** The first n chunks were scanned and delivered whole. */
  ghost predicate Delivered(state: SseProxyState, w: ClientWriter, body: bytes, writes: nat, chunks: seq<bytes>, n: nat,
                            finished: bool)
    requires n <= |chunks|
    reads state, w
  {
    var read := Concat(chunks[..n]);
    && w.body == body + read && w.writes == writes + n && !SomeWriteFails(w.failsAt, writes, n)
    && state.InStep(read) && finished == AnyComplete(state.watch, Lines(read))
  }

  /** One chunk: scanned, then written and flushed. */
  method ForwardOne(state: SseProxyState, w: ClientWriter, ghost body: bytes, ghost writes: nat, chunks: seq<bytes>, n: nat,
                    was: bool)
    returns (ok: bool, finished: bool)
    requires n < |chunks| && Delivered(state, w, body, writes, chunks, n, was)
    modifies state, w
    ensures ok ==> Delivered(state, w, body, writes, chunks, n + 1, finished)
    ensures !ok ==> SomeWriteFails(w.failsAt, writes, |chunks|) && body <= w.body <= body + Concat(chunks)
  {
    ghost var read, next := Concat(chunks[..n]), Concat(chunks[..n + 1]);
    ConcatSnoc(chunks, n);
    finished := Scan(state, chunks[n], read, next, was);
    ok := Send(w, chunks[n], body, read, next);
    OneMoreWrite(w.failsAt, writes, n);
    if !ok {
      FailedWrite(w.failsAt, writes, body, chunks, n, w.body);
    }
  }

  /** A write that failed: all that matters from then on. */
  lemma FailedWrite(failsAt: nat -> Option<nat>, writes: nat, body: bytes, chunks: seq<bytes>, n: nat, now: bytes)
    requires n < |chunks| && SomeWriteFails(failsAt, writes, n + 1)
    requires body + Concat(chunks[..n]) <= now <= body + Concat(chunks[..n]) + chunks[n]
    ensures SomeWriteFails(failsAt, writes, |chunks|) && body <= now <= body + Concat(chunks)
  {
    MoreWrites(failsAt, writes, n + 1, |chunks|);
    StillPrefix(body, chunks, n, now);
  }

  /** The scan of one chunk, next being all bytes read with it. */
  method Scan(state: SseProxyState, chunk: bytes, ghost read: bytes, ghost next: bytes, was: bool) returns (finished: bool)
    requires state.InStep(read) && next == read + chunk && was == AnyComplete(state.watch, Lines(read))
    modifies state
    ensures state.InStep(next) && finished == AnyComplete(state.watch, Lines(next))
  {
    var hit := state.ScanLines(chunk, read);
    finished := hit || was;
  }

  /** The write of one chunk. */
  method Send(w: ClientWriter, chunk: bytes, ghost body: bytes, ghost read: bytes, ghost next: bytes) returns (ok: bool)
    requires w.body == body + read && next == read + chunk
    modifies w
    ensures ok == w.failsAt(old(w.writes)).None? && w.writes == old(w.writes) + 1
    ensures if ok then w.body == body + next else body + read <= w.body <= body + read + chunk
  {
    Assoc(body, read, chunk);
    ok := w.Write(chunk);
  }

  /** The read loop. */
  method Forward(state: SseProxyState, chunks: seq<bytes>, w: ClientWriter) returns (ok: bool, finished: bool)
    requires state.Fresh()
    modifies state, w
    ensures old(w.body) <= w.body <= old(w.body) + Concat(chunks)
    ensures ok == !SomeWriteFails(w.failsAt, old(w.writes), |chunks|)
    ensures ok ==> Delivered(state, w, old(w.body), old(w.writes), chunks, |chunks|, finished)
  {
    finished := false;
    ghost var body, writes := w.body, w.writes;
    LinesNone([]);
    EmptyRight(body);
    for n := 0 to |chunks|
      invariant Delivered(state, w, body, writes, chunks, n, finished)
    {
      ok, finished := ForwardOne(state, w, body, writes, chunks, n, finished);
      if !ok {
        return;
      }
    }
    assert chunks[..|chunks|] == chunks;
    PrefixOfSum(body, Concat(chunks));
    return true, finished;
  }

  /** proxyStream, for every way the network cuts the upstream bytes into chunks: the client
      gets the bytes unchanged, and the verdict and the reported usage are those of the
      lines, whatever the cuts. A pooled state ends as it began. */
  method ProxyStream(state: SseProxyState, chunks: seq<bytes>, end: End, w: ClientWriter) returns (r: Verdict)
    requires state.Fresh()
    modifies state, w
    ensures state.Fresh()
    ensures old(w.body) <= w.body <= old(w.body) + Concat(chunks)
    ensures r.WriteFailed? <==> SomeWriteFails(w.failsAt, old(w.writes), |chunks|)
    ensures !r.WriteFailed? ==> w.body == old(w.body) + Concat(chunks) && (r.ReadFailed? <==> end.ReadError?)
    ensures !r.WriteFailed? && end.EOF? ==>
              var ls := AllLines(Concat(chunks));
              r == if AnyComplete(state.watch, ls) then Finished(LastUsage(state.watch, ls)) else Incomplete
  {
    var ok, finished := Forward(state, chunks, w);
    assert chunks[..|chunks|] == chunks;
    if !ok {
      r := WriteFailed;
    } else if end.ReadError? {
      r := ReadFailed;
    } else {
      r := Conclude(state, finished, Concat(chunks));
    }
    state.Release();
  }

  /** The proxy with the source's two questions: a stream that was read to its end is finished
      exactly when some line short enough to be inspected is a completion signal. */
  method ProxyChat(d: Decoder, chunks: seq<bytes>, w: ClientWriter) returns (r: Verdict)
    modifies w
    ensures !r.WriteFailed? ==> w.body == old(w.body) + Concat(chunks)
    ensures !r.WriteFailed? ==>
              var ls := AllLines(Concat(chunks));
              (r.Finished? <==> exists i :: 0 <= i < |ls| && Readable(ls[i]) && CompletionSignal(d, ls[i]))
  {
    var state := new SseProxyState(ChatWatch(d));
    r := ProxyStream(state, chunks, EOF, w);
    SignalAt(d, AllLines(Concat(chunks)));
  }

  lemma SignalAt(d: Decoder, ls: seq<bytes>)
    ensures AnyComplete(ChatWatch(d), ls) <==> exists i :: 0 <= i < |ls| && Readable(ls[i]) && CompletionSignal(d, ls[i])
  {
    if l :| l in ls && Readable(l) && CompletionSignal(d, l) {
      var i :| 0 <= i < |ls| && ls[i] == l;
    }
  }
}
