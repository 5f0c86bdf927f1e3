/** The two nested buffering writers between a provider and the client
    (internal/api/response.go and internal/provider/accounts.go). */
module Writers {
  import opened Bytes
  import opened SseCommit

  type Header = map<string, seq<string>>

  /** What finish reports. Only CommittedFailure carries errResponseCommitted. */
  datatype Outcome = Done | Failed(cause: Cause) | CommittedFailure(cause: Cause)

  datatype Cause = Provider(id: int) | BadStatus(code: int) | EmptyBody | NoReply | MalformedJson

  predicate Success(status: int) { 200 <= status < 300 }

  /** chatJSONWithoutReply: a chat completion with neither text nor a tool call. */
  predicate WithoutReply(doc: Json) {
    && doc.Obj?
    && "choices" in doc.fields && doc.fields["choices"].Arr? && doc.fields["choices"].items != []
    && !ReplyPayload(doc)
  }

  predicate JsonContent(header: Header) {
    "Content-Type" in header && header["Content-Type"] != [] && Contains(header["Content-Type"][0], "application/json")
  }

  /** Whether a finished, buffered body may go to the client. */
  ghost predicate Presentable(decode: bytes -> Option<Json>, rules: Rules, stream: bool, header: Header, body: bytes) {
    && body != []
    && if stream then CarriesReply(rules, body)
       else JsonContent(header) ==> decode(body).Some? && !WithoutReply(decode(body).value)
  }

  /** The verdict on a body that was buffered to its end. */
  ghost function Judged(decode: bytes -> Option<Json>, rules: Rules, stream: bool, header: Header, body: bytes): (o: Outcome)
    ensures o.Done? <==> Presentable(decode, rules, stream, header, body)
    ensures !o.CommittedFailure?
  {
    if body == [] then Failed(EmptyBody)
    else if stream then (if CarriesReply(rules, body) then Done else Failed(NoReply))
    else if !JsonContent(header) then Done
    else if decode(body).None? then Failed(MalformedJson)
    else if WithoutReply(decode(body).value) then Failed(NoReply)
    else Done
  }

  /** How an attempt ends, given what the buffered writer holds and whether it had committed. */
  ghost function Ended(decode: bytes -> Option<Json>, rules: Rules, stream: bool, committed: bool, header: Header,
                       status: int, body: bytes, err: Option<int>): Outcome
  {
    if committed then (if err.Some? then CommittedFailure(Provider(err.value)) else Done)
    else if err.Some? then Failed(Provider(err.value))
    else if !Success(status) then Failed(BadStatus(status))
    else Judged(decode, rules, stream, header, body)
  }

  /** The client's side of the connection, as the gateway's writer sees it. */
  class Client {
    var header: Header
    var status: Option<int>
    var body: bytes
    /** How many bytes of the body have been flushed out. */
    var visible: nat

    constructor ()
      ensures header == map[] && status == None && body == [] && visible == 0
    {
      header, status, body, visible := map[], None, [], 0;
    }

    method WriteHeader(code: int)
      modifies `status
      ensures status == if old(status).None? then Some(code) else old(status)
    {
      if status.None? {
        status := Some(code);
      }
    }

    method Write(data: bytes)
      modifies `status, `body
      ensures status == if old(status).None? then Some(200) else old(status)
      ensures body == old(body) + data
    {
      if status.None? {
        status := Some(200);
      }
      body := body + data;
    }

    method Flush()
      modifies `visible
      ensures visible == |body|
    {
      visible := |body|;
    }
  }

  class BufferedResponseWriter {
    const destination: Client
    const stream: bool
    const decode: bytes -> Option<Json>
    const rules: Rules
    const sse: SseCommitState
    var header: Header
    var body: bytes
    var status: int
    var headerWritten: bool
    var committed: bool
    /** Everything ever handed to Write. */
    ghost var total: bytes
    /** The client as this attempt found it. */
    ghost const before: (Header, Option<int>, bytes)

    /** Nothing has been written to it yet. */
    ghost predicate Blank()
      reads this
    {
      !committed && total == [] && header == map[] && status == 200 && !headerWritten
    }

    /** The client has neither a header, a status nor a byte of this attempt. */
    ghost predicate Untouched()
      reads this, destination
    {
      (destination.header, destination.status, destination.body) == before
    }

    ghost predicate Valid()
      reads this, sse, destination
    {
      && sse.rules == rules
      && sse.Valid()
      && (!committed ==> Untouched() && body == total && sse.seen <= body)
      && (committed ==>
            && body == []
            && destination.body == before.2 + total
            && destination.status == (if before.1.None? then Some(status) else before.1)
            && Success(status)
            && (stream ==> CarriesReply(rules, total)))
    }

    constructor (destination: Client, stream: bool, decode: bytes -> Option<Json>, rules: Rules)
      ensures Valid() && fresh(sse) && Blank()
      ensures this.destination == destination && this.stream == stream && this.decode == decode && this.rules == rules
      ensures before == (destination.header, destination.status, destination.body)
    {
      this.destination, this.stream, this.decode, this.rules := destination, stream, decode, rules;
      sse := new SseCommitState(rules);
      header, body, status, headerWritten, committed := map[], [], 200, false, false;
      total := [];
      before := (destination.header, destination.status, destination.body);
    }

    method WriteHeader(code: int)
      requires Valid()
      modifies `status, `headerWritten
      ensures Valid()
      ensures status == if old(committed || headerWritten) then old(status) else code
      ensures headerWritten == (old(headerWritten) || !committed)
    {
      if committed || headerWritten {
        return;
      }
      status, headerWritten := code, true;
    }

    /** Bytes go on to the client once committed and are kept before that. */
    method Write(data: bytes)
      requires Valid()
      modifies `body, `headerWritten, `total, destination`body, destination`status
      ensures Valid() && total == old(total) + data
      ensures headerWritten == (old(headerWritten) || !committed)
    {
      total := total + data;
      if committed {
        if stream {
          CarriesReplyMonotone(rules, old(total), data);
        }
        destination.Write(data);
        return;
      }
      headerWritten := true;
      body := body + data;
    }

    /** What a flush commits: a complete reply in a successful stream. */
    ghost predicate Ready()
      reads this
    {
      stream && Success(status) && CarriesReply(rules, total)
    }

    /** Commits as soon as a reply is complete; afterwards every flush reaches the client. */
    method Flush()
      requires Valid()
      modifies this`body, this`committed, sse, destination
      ensures Valid()
      ensures committed == (old(committed) || Ready())
      ensures committed && stream ==> destination.visible == |destination.body|
    {
      if !stream || !Success(status) {
        return;
      }
      if !committed {
        var found := sse.Feed(body);
        if !found {
          return;
        }
        Commit();
      }
      destination.Flush();
    }

    method Commit()
      requires Valid() && Success(status) && (stream ==> CarriesReply(rules, total))
      modifies this`body, this`committed, destination`header, destination`status, destination`body
      ensures Valid() && committed
      ensures destination.header == if old(committed) then old(destination.header) else header
    {
      if committed {
        return;
      }
      destination.header := header;
      destination.WriteHeader(status);
      committed := true;
      destination.Write(body);
      body := [];
    }

    /** finish: a plain error leaves the client untouched, anything else means it has all the bytes. */
    method Finish(err: Option<int>) returns (outcome: Outcome)
      requires Valid()
      modifies this`body, this`committed, sse, destination
      ensures Valid()
      ensures outcome == Ended(decode, rules, stream, old(committed), header, status, total, err)
      ensures outcome.Failed? <==> !committed
      ensures outcome.Failed? ==> Untouched()
      ensures !outcome.Failed? ==> destination.body == before.2 + total && destination.status.Some?
    {
      if committed {
        return if err.Some? then CommittedFailure(Provider(err.value)) else Done;
      }
      if err.Some? {
        return Failed(Provider(err.value));
      }
      if !Success(status) {
        return Failed(BadStatus(status));
      }
      if |body| == 0 {
        return Failed(EmptyBody);
      }
      if stream {
        var found := sse.Feed(body);
        if !found {
          return Failed(NoReply);
        }
      } else if JsonContent(header) {
        if decode(body).None? {
          return Failed(MalformedJson);
        }
        if WithoutReply(decode(body).value) {
          return Failed(NoReply);
        }
      }
      Commit();
      return Done;
    }
  }

  class AttemptWriter {
    const destination: BufferedResponseWriter
    const stream: bool
    var header: Header
    var body: bytes
    var status: int
    var committed: bool
    /** Everything the provider wrote through this writer. */
    ghost var written: bytes
    /** What the outer writer had been given before. */
    ghost const outerBefore: bytes

    /** Nothing is lost, reordered or mixed in: client bytes, outer buffer and inner
        buffer together spell what was written. */
    ghost predicate Valid()
      reads this, destination, destination.sse, destination.destination
    {
      && destination.Valid()
      && destination.total + body == outerBefore + written
      && (committed ==> body == [])
      && (!committed ==> destination.total == outerBefore)
    }

    constructor (destination: BufferedResponseWriter, stream: bool)
      requires destination.Valid()
      ensures Valid() && !committed && written == [] && status == 200 && header == map[]
      ensures this.destination == destination && this.stream == stream && outerBefore == destination.total
    {
      this.destination, this.stream := destination, stream;
      header, body, status, committed := map[], [], 200, false;
      written, outerBefore := [], destination.total;
    }

    method WriteHeader(code: int)
      requires Valid()
      modifies `status
      ensures Valid()
      ensures status == if !committed && old(status) == 200 then code else old(status)
    {
      if committed {
        return;
      }
      if status == 200 {
        status := code;
      }
    }

    method Write(data: bytes)
      requires Valid()
      modifies `body, `written, destination`body, destination`headerWritten, destination`total,
        destination.destination`body, destination.destination`status
      ensures Valid() && written == old(written) + data
      ensures destination.total == old(destination.total) + if committed then data else []
      ensures !committed ==> destination.headerWritten == old(destination.headerWritten)
    {
      AppendBoth(destination.total, body, outerBefore, written, data);
      written := written + data;
      if committed {
        destination.Write(data);
      } else {
        body := body + data;
      }
    }

    /** The inner writer commits on Flush only after the outer one has. Before either has, a flush
        moves nothing; after its own commit it lets the outer one commit. */
    method Flush()
      requires Valid()
      modifies this`body, this`committed, destination`header, destination`status, destination`headerWritten,
        destination`body, destination`total, destination`committed, destination.sse, destination.destination
      ensures Valid()
      ensures old(committed) ==> committed && destination.header == old(destination.header) && destination.status == old(destination.status)
      ensures old(committed) ==>
                destination.committed == (old(destination.committed) ||
                  (stream && Success(status) && destination.Ready()))
      ensures old(!committed && destination.Blank()) ==> !committed && destination.Blank() && body == old(body)
    {
      if !stream || !Success(status) {
        return;
      }
      if !committed {
        NoReplyInNothing(destination.rules);
        destination.Flush();
        if !destination.committed {
          return;
        }
        CommitTo();
      }
      destination.Flush();
    }

    /** Header and status go over, unless the outer writer has its status already, and the bytes. */
    method CommitTo()
      requires Valid()
      modifies this`body, this`committed, destination`header, destination`status, destination`headerWritten,
        destination`body, destination`total, destination.destination`body, destination.destination`status
      ensures Valid() && committed
      ensures destination.header == if old(committed) then old(destination.header) else header
      ensures old(!committed && destination.Blank()) ==> destination.status == status && destination.total == written
    {
      if committed {
        return;
      }
      destination.header := header;
      destination.WriteHeader(status);
      committed := true;
      if |body| > 0 {
        destination.Write(body);
        body := [];
      }
    }

    method Commit()
      requires Valid()
      modifies this`body, this`committed, destination`header, destination`status, destination`headerWritten,
        destination`body, destination`total, destination`committed, destination.sse, destination.destination
      ensures Valid() && committed
      ensures old(committed) ==> destination.header == old(destination.header) && destination.status == old(destination.status)
      ensures old(!committed && destination.Blank()) ==>
                destination.header == header && destination.status == status && destination.total == written
      ensures old(committed || destination.Blank()) ==>
                destination.committed == (old(destination.committed) || destination.Ready())
    {
      if committed {
        destination.Flush();
        return;
      }
      CommitTo();
      destination.Flush();
    }
  }

  lemma AppendBoth(total: bytes, body: bytes, before: bytes, written: bytes, data: bytes)
    requires total + body == before + written
    ensures total + (body + data) == before + (written + data)
    ensures body == [] ==> total + data + body == before + (written + data)
  {
    assert total + (body + data) == total + body + data;
    assert before + (written + data) == before + written + data;
  }

  lemma NoReplyInNothing(rules: Rules)
    ensures !CarriesReply(rules, [])
  {
  }
}
