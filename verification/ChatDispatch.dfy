/** Where the failover engine and the writers meet (internal/api/chat.go:418-470): what a dispatch
    does to the client, and the bytes a wire trace spells. */
module ChatDispatch {
  import opened Bytes
  import Writers
  import opened Attempts
  import opened Combo
  import opened ComboSafety

  /** One dispatch: there is no such provider or model, or a provider does its job. */
  datatype Work = Missing(err: Err) | Call(job: Job)

  /** A client, and everything that is written to it: the jobs by dispatch number, the error
      event of a broken stream, and the error envelope. describe is the error of a failed job. */
  datatype Site = Site(
    client: Writers.Client,
    stream: bool,
    decode: bytes -> Option<Json>,
    describe: Writers.Cause -> Err,
    jobs: nat -> Work,
    errorEvent: bytes,
    envelope: bytes)

  /** What the engine is told of dispatch number k. */
  ghost function Answer(site: Site, k: nat): Attempt {
    match site.jobs(k)
    case Missing(err) => Unavailable(err)
    case Call(job) =>
      match JobEnding(site.stream, site.decode, job)
      case Done => Done
      case Failed(cause) => Failed(site.describe(cause))
      case CommittedFailure(cause) => CommittedFailure(site.describe(cause))
  }

  /** The upstreams of an environment are the jobs of a site. */
  ghost predicate Wired(env: Env, site: Site) { forall k: nat :: env.upstream(k) == Answer(site, k) }

  /** Any environment can be wired to any site, and only its upstreams change. */
  ghost function Wire(env: Env, site: Site): (wired: Env)
    ensures Wired(wired, site) && (Sane(env) ==> Sane(wired)) && wired == env.(upstream := wired.upstream)
  {
    var wired := env.(upstream := (k: nat) => Answer(site, k));
    assert Sane(env) ==> forall i: nat, j: nat :: i <= j ==> wired.now(i) <= wired.now(j);
    wired
  }

  function Spelled(site: Site, piece: Piece): bytes {
    match piece
    case AttemptBytes(k) => if site.jobs(k).Call? then BytesOf(site.jobs(k).job) else []
    case StreamError => site.errorEvent
    case Envelope => site.envelope
  }

  /** The bytes of a wire trace. */
  function Render(site: Site, wire: seq<Piece>): bytes {
    if wire == [] then [] else Render(site, wire[..|wire| - 1]) + Spelled(site, wire[|wire| - 1])
  }

  lemma RenderSnoc(site: Site, wire: seq<Piece>, piece: Piece)
    ensures Render(site, wire + [piece]) == Render(site, wire) + Spelled(site, piece)
  {
    assert (wire + [piece])[..|wire|] == wire;
  }

  /** One dispatch on the client. It is touched exactly when it got bytes, and then it got all of
      the job's. */
  method Serve(site: Site, k: nat) returns (a: Attempt)
    modifies site.client
    ensures a == Answer(site, k)
    ensures Touches(a) ==> site.client.body == old(site.client.body) + Spelled(site, AttemptBytes(k)) && site.client.status.Some?
    ensures !Touches(a) ==>
              site.client.body == old(site.client.body) && site.client.status == old(site.client.status)
              && site.client.header == old(site.client.header)
  {
    match site.jobs(k)
    case Missing(err) => a := Unavailable(err);
    case Call(job) =>
      var outcome := RunJob(site.client, site.stream, site.decode, job);
      match outcome
      case Done => a := Done;
      case Failed(cause) => a := Failed(site.describe(cause));
      case CommittedFailure(cause) => a := CommittedFailure(site.describe(cause));
  }

  /** The attempt bytes of a run: those of its last dispatch, if it touched the client. */
  function AnswerBytes(site: Site, before: Trace, after: Trace): bytes {
    if LastTouched(after.log, |before.log|) then Spelled(site, AttemptBytes(|after.log| - 1)) else []
  }

  /** What may stand behind them: the error event of a failed stream, or an envelope. */
  function ClosingBytes(site: Site, before: Trace, after: Trace): bytes {
    if |after.wire| <= |before.wire| || after.wire[|after.wire| - 1].AttemptBytes? then []
    else Spelled(site, after.wire[|after.wire| - 1])
  }

  /** The bytes a run adds to the wire are the answer of one dispatch at most, and one closing. */
  lemma OneAnswer(site: Site, before: Trace, after: Trace)
    requires WireSafe(before, after)
    ensures Render(site, after.wire) == Render(site, before.wire) + (AnswerBytes(site, before, after) + ClosingBytes(site, before, after))
  {
    var was := Render(site, before.wire);
    if after.wire == before.wire {
      EmptyRight(was);
    } else if after.wire[|after.wire| - 1] == Envelope && !Delivered(before, after) {
      BeforeEnvelope(site, before, after);
    } else {
      WithoutEnvelope(site, before, after);
    }
  }

  lemma WithoutEnvelope(site: Site, before: Trace, after: Trace)
    requires Delivered(before, after) && after.wire != before.wire
    ensures Render(site, after.wire) == Render(site, before.wire) + (AnswerBytes(site, before, after) + ClosingBytes(site, before, after))
  {
    var piece := AttemptBytes(|after.log| - 1);
    if after.wire == before.wire + [piece] {
      RenderSnoc(site, before.wire, piece);
      EmptyRight(Spelled(site, piece));
    } else {
      assert after.wire == before.wire + [piece] + [StreamError];
      TwoPieces(site, before.wire, before.wire + [piece], piece, StreamError);
    }
  }

  lemma BeforeEnvelope(site: Site, before: Trace, after: Trace)
    requires WireSafe(before, after) && !Delivered(before, after)
    ensures Render(site, after.wire) == Render(site, before.wire) + (AnswerBytes(site, before, after) + ClosingBytes(site, before, after))
  {
    var front := after.wire[..|after.wire| - 1];
    LastApart([], after.wire);
    EmptyLeft(after.wire);
    EmptyLeft(front);
    FrontOfEnvelope(before, after, front);
    RenderSnoc(site, front, Envelope);
    if LastTouched(after.log, |before.log|) {
      AnswerThenEnvelope(site, before.wire, AttemptBytes(|after.log| - 1));
    } else {
      EmptyLeft(site.envelope);
    }
  }

  lemma FrontOfEnvelope(before: Trace, after: Trace, front: seq<Piece>)
    requires WireSafe(before, after) && !Delivered(before, after) && after.wire == front + [Envelope]
    ensures |after.wire| > |before.wire|
    ensures front == before.wire + if LastTouched(after.log, |before.log|) then [AttemptBytes(|after.log| - 1)] else []
  {
    assert after.wire[..|after.wire| - 1] == front;
    EmptyRight(before.wire);
  }

  lemma AnswerThenEnvelope(site: Site, wire: seq<Piece>, piece: Piece)
    ensures Render(site, wire + [piece] + [Envelope]) == Render(site, wire) + (Spelled(site, piece) + site.envelope)
  {
    TwoPieces(site, wire, wire + [piece], piece, Envelope);
  }

  lemma TwoPieces(site: Site, wire: seq<Piece>, mid: seq<Piece>, piece: Piece, last: Piece)
    requires mid == wire + [piece]
    ensures Render(site, mid + [last]) == Render(site, wire) + (Spelled(site, piece) + Spelled(site, last))
  {
    RenderSnoc(site, wire, piece);
    RenderSnoc(site, mid, last);
    ThreeParts(Render(site, mid + [last]), Render(site, mid), Render(site, wire), Spelled(site, piece), Spelled(site, last));
  }

  lemma ThreeParts(all: bytes, mid: bytes, first: bytes, second: bytes, third: bytes)
    requires all == mid + third && mid == first + second
    ensures all == first + (second + third)
  {
    Assoc(first, second, third);
  }

  /** A run that touched the client did so in a dispatch that had a provider. */
  lemma TouchedWasCalled(site: Site, env: Env, before: Trace, after: Trace)
    requires Wired(env, site) && AskedFrom(env, before, after) && LastTouched(after.log, |before.log|)
    ensures site.jobs(|after.log| - 1).Call? && AnswerBytes(site, before, after) == BytesOf(site.jobs(|after.log| - 1).job)
  {
    assert after.log[|after.log| - 1].attempt == Answer(site, |after.log| - 1);
    SpelledJob(site, |after.log| - 1);
  }

  lemma SpelledJob(site: Site, k: nat)
    requires site.jobs(k).Call?
    ensures Spelled(site, AttemptBytes(k)) == BytesOf(site.jobs(k).job)
  {
  }

  /** What a trace adds, when it is safe and answers what was asked. */
  lemma TraceBytes(site: Site, env: Env, before: Trace, after: Trace, ended: bool)
    requires Wired(env, site) && WireSafe(before, after) && AskedFrom(env, before, after)
    requires ended && !LastTouched(after.log, |before.log|) ==> after.wire == before.wire + [Envelope]
    ensures Render(site, after.wire) == Render(site, before.wire) + (AnswerBytes(site, before, after) + ClosingBytes(site, before, after))
    ensures LastTouched(after.log, |before.log|) ==>
              site.jobs(|after.log| - 1).Call? && AnswerBytes(site, before, after) == BytesOf(site.jobs(|after.log| - 1).job)
    ensures ended && !LastTouched(after.log, |before.log|) ==> Render(site, after.wire) == Render(site, before.wire) + site.envelope
  {
    OneAnswer(site, before, after);
    if LastTouched(after.log, |before.log|) {
      TouchedWasCalled(site, env, before, after);
    } else if ended {
      RenderSnoc(site, before.wire, Envelope);
    }
  }

  /** What the client gets of a whole run. */
  lemma RunBytes(site: Site, c: Config, env: Env, h: Health, before: Trace, r: Option<Result>, h1: Health, after: Trace)
    requires Wired(env, site) && Sane(env) && (r, h1, after) == RunCombo(c, env, h, before)
    ensures Render(site, after.wire) == Render(site, before.wire) + (AnswerBytes(site, before, after) + ClosingBytes(site, before, after))
    ensures LastTouched(after.log, |before.log|) ==>
              site.jobs(|after.log| - 1).Call? && AnswerBytes(site, before, after) == BytesOf(site.jobs(|after.log| - 1).job)
    ensures r.Some? && !LastTouched(after.log, |before.log|) ==> Render(site, after.wire) == Render(site, before.wire) + site.envelope
  {
    ChatWire(c, env, h, before);
    RunAsks(c, env, h, before);
    TraceBytes(site, env, before, after, r.Some?);
  }

  /** No clock, context and site is left out: every sane environment has a wired one that differs
      in its upstreams alone, and its runs send the client just that. */
  lemma AnyRunBytes(site: Site, c: Config, env: Env, h: Health, before: Trace)
    returns (wired: Env, r: Option<Result>, h1: Health, after: Trace)
    requires Sane(env)
    ensures Sane(wired) && Wired(wired, site) && wired == env.(upstream := wired.upstream)
    ensures (r, h1, after) == RunCombo(c, wired, h, before)
    ensures Render(site, after.wire) == Render(site, before.wire) + (AnswerBytes(site, before, after) + ClosingBytes(site, before, after))
    ensures LastTouched(after.log, |before.log|) ==>
              site.jobs(|after.log| - 1).Call? && AnswerBytes(site, before, after) == BytesOf(site.jobs(|after.log| - 1).job)
    ensures r.Some? && !LastTouched(after.log, |before.log|) ==> Render(site, after.wire) == Render(site, before.wire) + site.envelope
  {
    wired := Wire(env, site);
    var run := RunCombo(c, wired, h, before);
    r, h1, after := run.0, run.1, run.2;
    RunBytes(site, c, wired, h, before, r, h1, after);
  }
}
