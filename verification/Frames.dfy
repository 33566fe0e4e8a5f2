/** The Modbus TCP frame server: a byte stream cut into MBAP frames, each PDU handled
    once and in order, however the bytes arrive. The server's state and what one PDU
    does to it are left open. */
module Frames {
  import opened Modbus

  /** What one request PDU does to the server, and its response PDU. */
  type Handler<!S> = (S, seq<Byte>) -> (S, seq<Byte>)

  // -------------------------------------------------------------- the stream

  datatype Outcome<S> = Outcome(server: S, replies: seq<seq<Byte>>, rest: seq<Byte>, dropped: bool)

  /** The request's transaction, protocol and unit with the response's own length. */
  function Reply(request: seq<Byte>, response: seq<Byte>): seq<Byte>
    requires |request| >= 7
  {
    request[..4] + ToBe16((|response| + 1) % 0x10000) + [request[6]] + response
  }

  lemma ReplyBytes(request: seq<Byte>, response: seq<Byte>)
    requires |request| >= 7
    ensures
      var r := Reply(request, response);
      && |r| == 7 + |response| && r[..4] == request[..4] && r[6] == request[6] && r[7..] == response
      && [r[4], r[5]] == ToBe16((|response| + 1) % 0x10000)
  {
    var head, n := request[..4], ToBe16((|response| + 1) % 0x10000);
    assert head + n + [request[6]] + response == head + (n + ([request[6]] + response));
    assert (n + ([request[6]] + response))[..2] == n;
  }

  /** A reply is a frame of its own: the request's transaction, protocol and unit, a
      length that fits, and the response as its PDU. */
  lemma ReplyIsFrame(request: seq<Byte>, response: seq<Byte>)
    requires |request| >= 7 && 1 <= |response| <= BufSize - 7
    ensures
      var r := Reply(request, response);
      && |r| == 7 + |response| && FrameLength(r) == |r| && HasFrame(r)
      && (forall i :: 0 <= i < 4 ==> r[i] == request[i]) && r[6] == request[6] && r[7..] == response
  {
    var r, n := Reply(request, response), ToBe16(|response| + 1);
    ReplyBytes(request, response);
    assert r[4] == n[0] && r[5] == n[1];
    assert forall i :: 0 <= i < 4 ==> r[i] == r[..4][i] == request[..4][i];
  }

  function FrameLength(s: seq<Byte>): nat
    requires |s| >= 7
  {
    6 + Be16(s[4], s[5])
  }

  /** The MBAP length counts the unit byte and at least one PDU byte, and the frame
      must fit the buffer. */
  predicate Malformed(s: seq<Byte>)
    requires |s| >= 7
  {
    FrameLength(s) < 8 || FrameLength(s) > BufSize
  }

  predicate HasFrame(s: seq<Byte>) {
    |s| >= 7 && !Malformed(s) && |s| >= FrameLength(s)
  }

  /** Every complete frame handled once, in order; a malformed header drops the line. */
  function Serve<S>(h: Handler<S>, t: S, s: seq<Byte>): Outcome<S>
    decreases |s|
  {
    if !HasFrame(s) then
      if |s| >= 7 && Malformed(s) then Outcome(t, [], [], true) else Outcome(t, [], s, false)
    else
      var n := FrameLength(s);
      var (u, response) := h(t, s[7..n]);
      var o := Serve(h, u, s[n..]);
      o.(replies := [Reply(s, response)] + o.replies)
  }

  /** What the header of the bytes in hand decides: a length below two, or beyond the
      buffer, drops the line; a frame not yet complete waits; a complete one has its PDU
      handled and answered, and the rest follows. */
  lemma HeaderDecides<S>(h: Handler<S>, t: S, s: seq<Byte>)
    ensures |s| < 7 ==> Serve(h, t, s) == Outcome(t, [], s, false)
    ensures |s| >= 7 ==>
      var n := Be16(s[4], s[5]);
      if n < 2 || n > 294 then Serve(h, t, s) == Outcome(t, [], [], true)
      else if |s| < 6 + n then Serve(h, t, s) == Outcome(t, [], s, false)
      else
        var (u, response) := h(t, s[7..6 + n]);
        var o := Serve(h, u, s[6 + n..]);
        Serve(h, t, s) == o.(replies := [Reply(s, response)] + o.replies)
  {
  }

  /** What is left over is never a complete frame, so it fits the buffer with room. */
  predicate Unready(s: seq<Byte>) {
    !HasFrame(s) && (|s| >= 7 ==> !Malformed(s))
  }

  lemma UnreadyFits(s: seq<Byte>)
    requires Unready(s)
    ensures |s| < BufSize
  {
  }

  lemma {:induction false} ServeLeaves<S>(h: Handler<S>, t: S, s: seq<Byte>)
    ensures var o := Serve(h, t, s); if o.dropped then o.rest == [] else Unready(o.rest)
    decreases |s|
  {
    if HasFrame(s) {
      var n := FrameLength(s);
      ServeLeaves(h, h(t, s[7..n]).0, s[n..]);
    }
  }

  /** The outcome of what came first, then of the rest. */
  function Then<S>(h: Handler<S>, first: Outcome<S>, more: seq<Byte>): Outcome<S> {
    if first.dropped then first
    else
      var o := Serve(h, first.server, first.rest + more);
      o.(replies := first.replies + o.replies)
  }

  lemma HeaderStays(a: seq<Byte>, b: seq<Byte>)
    requires |a| >= 7
    ensures FrameLength(a + b) == FrameLength(a) && Malformed(a + b) == Malformed(a)
    ensures HasFrame(a) ==>
      HasFrame(a + b) && (a + b)[7..FrameLength(a)] == a[7..FrameLength(a)] && (a + b)[FrameLength(a)..] == a[FrameLength(a)..] + b
    ensures forall response :: Reply(a + b, response) == Reply(a, response)
  {
    assert (a + b)[4] == a[4] && (a + b)[5] == a[5] && (a + b)[6] == a[6] && (a + b)[..4] == a[..4];
  }

  lemma PrependReply<S>(h: Handler<S>, reply: seq<Byte>, o: Outcome<S>, more: seq<Byte>)
    ensures
      Then(h, o.(replies := [reply] + o.replies), more) ==
      Then(h, o, more).(replies := [reply] + Then(h, o, more).replies)
  {
    if !o.dropped {
      var p := Serve(h, o.server, o.rest + more);
      assert ([reply] + o.replies) + p.replies == [reply] + (o.replies + p.replies);
    }
  }

  /** A stream may be cut anywhere: serving the head, and then the tail behind what
      the head left over, is serving the whole. */
  lemma {:induction false} ServeSplits<S>(h: Handler<S>, t: S, a: seq<Byte>, b: seq<Byte>)
    ensures Serve(h, t, a + b) == Then(h, Serve(h, t, a), b)
    decreases |a|
  {
    if |a| >= 7 {
      HeaderStays(a, b);
    }
    if HasFrame(a) {
      var n := FrameLength(a);
      var (u, response) := h(t, a[7..n]);
      ServeSplits(h, u, a[n..], b);
      PrependReply(h, Reply(a, response), Serve(h, u, a[n..]), b);
    } else if |a| >= 7 && Malformed(a) {
    } else {
      var o := Serve(h, t, a + b);
      assert [] + o.replies == o.replies;
    }
  }

  // ----------------------------------------------------------------- polling

  /** One connection: the bytes buffered, those still in the socket, what it has
      answered, and whether it is still open. */
  datatype Slot<S> = Slot(server: S, buf: seq<Byte>, socket: seq<Byte>, replies: seq<seq<Byte>>, open: bool)

  /** As many bytes as fit are read, then every complete frame is handled. */
  function Polled<S>(h: Handler<S>, c: Slot<S>): Slot<S>
    requires |c.buf| <= BufSize
  {
    if !c.open then c
    else
      var room := BufSize - |c.buf|;
      var n := if |c.socket| < room then |c.socket| else room;
      var o := Serve(h, c.server, c.buf + c.socket[..n]);
      Slot(o.server, o.rest, c.socket[n..], c.replies + o.replies, !o.dropped)
  }

  predicate SlotFits<S>(c: Slot<S>) {
    c.open ==> Unready(c.buf)
  }

  /** What the connection amounts to once `coming` has arrived too. */
  function Total<S>(h: Handler<S>, c: Slot<S>, coming: seq<Byte>): (S, seq<seq<Byte>>, bool) {
    if !c.open then (c.server, c.replies, false)
    else
      var o := Serve(h, c.server, c.buf + (c.socket + coming));
      (o.server, c.replies + o.replies, !o.dropped)
  }

  lemma PollFits<S>(h: Handler<S>, c: Slot<S>)
    requires SlotFits(c) && |c.buf| < BufSize
    ensures SlotFits(Polled(h, c)) && |Polled(h, c).buf| < BufSize
    ensures c.open && c.socket != [] ==> |Polled(h, c).socket| < |c.socket|
  {
    if c.open {
      var room := BufSize - |c.buf|;
      var n := if |c.socket| < room then |c.socket| else room;
      ServeLeaves(h, c.server, c.buf + c.socket[..n]);
      if Polled(h, c).open {
        UnreadyFits(Polled(h, c).buf);
      }
    }
  }

  lemma Associative<T>(a: seq<T>, b: seq<T>, c: seq<T>)
    ensures (a + b) + c == a + (b + c)
  {
  }

  lemma PartlyServed<S>(h: Handler<S>, c: Slot<S>, head: seq<Byte>, left: seq<Byte>, coming: seq<Byte>)
    requires c.open && c.buf + c.socket == head + left
    ensures
      var o := Serve(h, c.server, head);
      Total(h, Slot(o.server, o.rest, left, c.replies + o.replies, !o.dropped), coming) == Total(h, c, coming)
  {
    var o := Serve(h, c.server, head);
    ServeSplits(h, c.server, head, left + coming);
    Associative(c.buf, c.socket, coming);
    Associative(head, left, coming);
    if !o.dropped {
      Associative(c.replies, o.replies, Serve(h, o.server, o.rest + (left + coming)).replies);
    }
  }

  /** A poll changes nothing about the total. */
  lemma PollKeepsTotal<S>(h: Handler<S>, c: Slot<S>, coming: seq<Byte>)
    requires |c.buf| < BufSize
    ensures Total(h, Polled(h, c), coming) == Total(h, c, coming)
  {
    if c.open {
      var room := BufSize - |c.buf|;
      var n := if |c.socket| < room then |c.socket| else room;
      assert c.buf + c.socket == (c.buf + c.socket[..n]) + c.socket[n..];
      PartlyServed(h, c, c.buf + c.socket[..n], c.socket[n..], coming);
    }
  }

  function Arrived<S>(c: Slot<S>, chunk: seq<Byte>): Slot<S> {
    c.(socket := c.socket + chunk)
  }

  function Concat(chunks: seq<seq<Byte>>): seq<Byte> {
    if chunks == [] then [] else chunks[0] + Concat(chunks[1..])
  }

  /** A chunk arrives, then the loop polls; an empty chunk is a poll with no news. */
  function Run<S>(h: Handler<S>, c: Slot<S>, chunks: seq<seq<Byte>>): Slot<S>
    requires SlotFits(c) && |c.buf| < BufSize
    ensures SlotFits(Run(h, c, chunks))
    decreases |chunks|
  {
    if chunks == [] then c
    else
      PollFits(h, Arrived(c, chunks[0]));
      Run(h, Polled(h, Arrived(c, chunks[0])), chunks[1..])
  }

  lemma ArrivedTotal<S>(h: Handler<S>, c: Slot<S>, chunk: seq<Byte>, later: seq<Byte>)
    ensures Total(h, Arrived(c, chunk), later) == Total(h, c, chunk + later)
  {
    assert (c.socket + chunk) + later == c.socket + (chunk + later);
  }

  /** Chunking invariance: however the stream is cut and however the polls fall, the
      total is that of the whole stream. */
  lemma {:induction false} ChunkingInvariance<S>(h: Handler<S>, c: Slot<S>, chunks: seq<seq<Byte>>)
    requires SlotFits(c) && |c.buf| < BufSize
    ensures Total(h, Run(h, c, chunks), []) == Total(h, c, Concat(chunks))
    decreases |chunks|
  {
    if chunks != [] {
      var d := Arrived(c, chunks[0]);
      PollFits(h, d);
      PollKeepsTotal(h, d, Concat(chunks[1..]));
      ArrivedTotal(h, c, chunks[0], Concat(chunks[1..]));
      ChunkingInvariance(h, Polled(h, d), chunks[1..]);
    }
  }

  /** A connection as it is accepted. */
  function Accepted<S>(t: S): Slot<S> {
    Slot(t, [], [], [], true)
  }

  lemma SettledTotal<S>(h: Handler<S>, c: Slot<S>)
    requires SlotFits(c) && (c.socket == [] || !c.open)
    ensures Total(h, c, []) == (c.server, c.replies, c.open)
  {
    if c.open {
      assert c.buf + (c.socket + []) == c.buf;
      assert c.replies + [] == c.replies;
    }
  }

  /** Once the socket has been read out the slot itself holds the total: the replies
      sent and the registers are those of the whole stream served at once. */
  lemma DrainedIsTotal<S>(h: Handler<S>, t: S, chunks: seq<seq<Byte>>)
    ensures
      var c := Run(h, Accepted(t), chunks);
      var o := Serve(h, t, Concat(chunks));
      c.socket == [] || !c.open ==> c.server == o.server && c.replies == o.replies && c.open == !o.dropped
  {
    var c := Run(h, Accepted(t), chunks);
    var o := Serve(h, t, Concat(chunks));
    ChunkingInvariance(h, Accepted(t), chunks);
    assert [] + ([] + Concat(chunks)) == Concat(chunks);
    assert [] + o.replies == o.replies;
    if c.socket == [] || !c.open {
      SettledTotal(h, c);
    }
  }

  // ------------------------------------------------------- well-formed frames

  /** A request frame whose header agrees with its length. */
  predicate WellFormed(frame: seq<Byte>) {
    8 <= |frame| <= BufSize && FrameLength(frame) == |frame|
  }

  predicate AllWellFormed(frames: seq<seq<Byte>>) {
    forall i :: 0 <= i < |frames| ==> WellFormed(frames[i])
  }

  /** Each PDU handled once, in order. */
  function HandleAll<S>(h: Handler<S>, t: S, frames: seq<seq<Byte>>): (S, seq<seq<Byte>>)
    requires AllWellFormed(frames)
    decreases |frames|
  {
    if frames == [] then (t, [])
    else
      assert WellFormed(frames[0]);
      var (u, response) := h(t, frames[0][7..]);
      var (v, replies) := HandleAll(h, u, frames[1..]);
      (v, [Reply(frames[0], response)] + replies)
  }

  lemma {:induction false} ServeFrames<S>(h: Handler<S>, t: S, frames: seq<seq<Byte>>)
    requires AllWellFormed(frames)
    ensures
      var (u, replies) := HandleAll(h, t, frames);
      Serve(h, t, Concat(frames)) == Outcome(u, replies, [], false)
    decreases |frames|
  {
    if frames != [] {
      var f, rest := frames[0], Concat(frames[1..]);
      assert WellFormed(f);
      HeaderStays(f, rest);
      assert f[|f|..] + rest == rest && f[7..|f|] == f[7..];
      ServeFrames(h, h(t, f[7..]).0, frames[1..]);
    }
  }

  /** For every way of cutting a run of well-formed requests into arriving chunks, the
      replies sent and the registers written are those of each PDU handled once, in
      order, as soon as the socket has been read out. */
  lemma FramesSurviveChunking<S>(h: Handler<S>, t: S, frames: seq<seq<Byte>>, chunks: seq<seq<Byte>>)
    requires AllWellFormed(frames) && Concat(chunks) == Concat(frames)
    ensures
      var c := Run(h, Accepted(t), chunks);
      (c.socket == [] || !c.open) ==> (c.server, c.replies) == HandleAll(h, t, frames) && c.open
  {
    ServeFrames(h, t, frames);
    DrainedIsTotal(h, t, chunks);
  }

  // ------------------------------------------------------- others write too

  /** A handler that keeps beside the tables the PDUs it has handled. */
  function Logged<S>(h: Handler<S>): Handler<(S, seq<seq<Byte>>)> {
    (t: (S, seq<seq<Byte>>), pdu: seq<Byte>) => ((h(t.0, pdu).0, t.1 + [pdu]), h(t.0, pdu).1)
  }

  /** One that only keeps the PDUs. */
  function Recorder(): Handler<seq<seq<Byte>>> {
    (log: seq<seq<Byte>>, pdu: seq<Byte>) => (log + [pdu], [])
  }

  /** What somebody else does to the tables between two polls. */
  function Touched<S>(c: Slot<(S, seq<seq<Byte>>)>, write: S -> S): Slot<(S, seq<seq<Byte>>)> {
    c.(server := (write(c.server.0), c.server.1))
  }

  /** Chunks arrive and are polled, with another write to the tables before each poll:
      another client, or the firmware's own loop. */
  function RunAmid<S>(h: Handler<S>, c: Slot<(S, seq<seq<Byte>>)>, chunks: seq<seq<Byte>>, writes: seq<S -> S>)
    : Slot<(S, seq<seq<Byte>>)>
    requires SlotFits(c) && |c.buf| < BufSize && |writes| == |chunks|
    decreases |chunks|
  {
    if chunks == [] then c
    else
      var d := Touched(Arrived(c, chunks[0]), writes[0]);
      PollFits(Logged(h), d);
      RunAmid(h, Polled(Logged(h), d), chunks[1..], writes[1..])
  }

  /** The same connection, whatever the tables hold. */
  predicate SameFraming<S>(c: Slot<(S, seq<seq<Byte>>)>, r: Slot<seq<seq<Byte>>>) {
    c.server.1 == r.server && c.buf == r.buf && c.socket == r.socket && c.open == r.open
  }

  lemma {:induction false} ServeFraming<S>(h: Handler<S>, t: S, log: seq<seq<Byte>>, s: seq<Byte>)
    ensures
      var o, r := Serve(Logged(h), (t, log), s), Serve(Recorder(), log, s);
      o.server.1 == r.server && o.rest == r.rest && o.dropped == r.dropped
    decreases |s|
  {
    if HasFrame(s) {
      var n := FrameLength(s);
      ServeFraming(h, h(t, s[7..n]).0, log + [s[7..n]], s[n..]);
    }
  }

  lemma PollFraming<S>(h: Handler<S>, c: Slot<(S, seq<seq<Byte>>)>, r: Slot<seq<seq<Byte>>>)
    requires SameFraming(c, r) && |c.buf| <= BufSize
    ensures SameFraming(Polled(Logged(h), c), Polled(Recorder(), r))
  {
    if c.open {
      var room := BufSize - |c.buf|;
      var n := if |c.socket| < room then |c.socket| else room;
      ServeFraming(h, c.server.0, c.server.1, c.buf + c.socket[..n]);
    }
  }

  lemma {:induction false} RunFraming<S>(
    h: Handler<S>, c: Slot<(S, seq<seq<Byte>>)>, r: Slot<seq<seq<Byte>>>, chunks: seq<seq<Byte>>, writes: seq<S -> S>)
    requires SlotFits(c) && |c.buf| < BufSize && |writes| == |chunks| && SameFraming(c, r)
    ensures SameFraming(RunAmid(h, c, chunks, writes), Run(Recorder(), r, chunks))
    decreases |chunks|
  {
    if chunks != [] {
      var d := Touched(Arrived(c, chunks[0]), writes[0]);
      PollFits(Logged(h), d);
      PollFits(Recorder(), Arrived(r, chunks[0]));
      PollFraming(h, d, Arrived(r, chunks[0]));
      RunFraming(h, Polled(Logged(h), d), Polled(Recorder(), Arrived(r, chunks[0])), chunks[1..], writes[1..]);
    }
  }

  /** The PDUs of a run of frames, in order. */
  function Pdus(frames: seq<seq<Byte>>): seq<seq<Byte>>
    requires AllWellFormed(frames)
  {
    if frames == [] then [] else assert WellFormed(frames[0]); [frames[0][7..]] + Pdus(frames[1..])
  }

  lemma {:induction false} RecordedPdus(log: seq<seq<Byte>>, frames: seq<seq<Byte>>)
    requires AllWellFormed(frames)
    ensures HandleAll(Recorder(), log, frames).0 == log + Pdus(frames)
    decreases |frames|
  {
    if frames == [] {
      assert log + [] == log;
    } else {
      assert WellFormed(frames[0]);
      RecordedPdus(log + [frames[0][7..]], frames[1..]);
      Associative(log, [frames[0][7..]], Pdus(frames[1..]));
    }
  }

  /** Whatever else is written to the tables between the polls, and however the stream
      is cut, each PDU is handled once and in order as soon as the socket has been read
      out, and the line stays up. */
  lemma FramesSurviveOthers<S>(
    h: Handler<S>, t: S, frames: seq<seq<Byte>>, chunks: seq<seq<Byte>>, writes: seq<S -> S>)
    requires AllWellFormed(frames) && Concat(chunks) == Concat(frames) && |writes| == |chunks|
    ensures
      var c := RunAmid(h, Accepted((t, [])), chunks, writes);
      c.socket == [] || !c.open ==> c.server.1 == Pdus(frames) && c.open
  {
    RunFraming(h, Accepted((t, [])), Accepted([]), chunks, writes);
    FramesSurviveChunking(Recorder(), [], frames, chunks);
    RecordedPdus([], frames);
    assert [] + Pdus(frames) == Pdus(frames);
  }
}
