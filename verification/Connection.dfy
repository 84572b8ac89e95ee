/**
 One RpcClient and the server loop at the other end of its connection, byte by byte: which reply a
 call returns, whatever the sizes of the reads and writes and wherever the connection breaks.
 */
module Connection {
  import opened Framing

  /** The one request that the server may answer with any number of frames. */
  const STREAM_METRICS: U32 := 27

  datatype Mode = Idle | Unary | Stream

  datatype Handled = Handled(request: Frame, replies: seq<Frame>)

  /**
   toSend, toServer, serverBuf, serverOut, toClient and got hold the bytes on their way round, in
   that order. requests, handled and results are the history of this connection.
   */
  datatype Conn = Conn(open: bool, alive: bool, mode: Mode,
                       toSend: seq<Byte>, toServer: seq<Byte>, serverBuf: seq<Byte>,
                       serverOut: seq<Byte>, toClient: seq<Byte>, got: seq<Byte>,
                       requests: seq<Frame>, handled: seq<Handled>, results: seq<Frame>)

  const CLOSED := Conn(false, false, Idle, [], [], [], [], [], [], [], [], [])

  const FRESH := CLOSED.(open := true, alive := true)

  datatype Event =
    | Call(request: Frame)
    | CallStream(request: Frame)
    | ClientSend(n: nat)
    | ServerRead(n: nat)
    | Handle(replies: seq<Frame>)
    | ServerSend(n: nat)
    | ServerClose(kept: nat)
    | ClientRecv(n: nat)
    | Finish
    | StreamFrame
    | Drop

  /** How many bytes the client asks for next: the header, then the rest that the header announces. */
  function Wanted(got: seq<Byte>): nat {
    if |got| < HEADER_SIZE then HEADER_SIZE - |got| else
      var total := Number(got[..4]);
      if total < SERIAL_ID_SIZE || total > MAX_FRAME_SIZE || |got| >= 4 + total then 0 else 4 + total - |got|
  }

  /** A request other than StreamMetrics gets exactly one reply, and an empty answer becomes an error frame. */
  predicate Answers(request: Frame, replies: seq<Frame>) {
    && replies != []
    && (request.serial != STREAM_METRICS ==> |replies| == 1)
    && forall i :: 0 <= i < |replies| ==> Fits(replies[i])
  }

  /** unary is the set of serial ids that callers use in unary calls. */
  predicate Enabled(s: Conn, unary: set<U32>, ev: Event) {
    match ev
    case Call(r) => s.mode == Idle && r.serial in unary
    case CallStream(_) => s.mode == Idle
    case ClientSend(n) => n <= |s.toSend|
    case ServerRead(n) => s.alive && s.serverOut == [] && Decode(s.serverBuf).Incomplete? && n <= 4096 && n <= |s.toServer|
    case Handle(replies) => s.alive && s.serverOut == [] && Decode(s.serverBuf).Complete?
                            && Answers(Decode(s.serverBuf).frame, replies)
    case ServerSend(n) => s.alive && n <= |s.serverOut|
    case ServerClose(kept) => s.alive && kept <= |s.toClient|
    case ClientRecv(n) => s.mode != Idle && s.toSend == [] && n <= Wanted(s.got) && n <= |s.toClient|
    case Finish => s.mode == Unary && s.toSend == [] && Wanted(s.got) == 0
    case StreamFrame => s.mode == Stream && s.toSend == [] && Wanted(s.got) == 0
    case Drop => true
  }

  /** Connect if need be, then begin to send; a request that does not fit drops the connection. */
  function Begin(s: Conn, r: Frame, mode: Mode): Conn {
    if !Fits(r) then CLOSED else
      var c := if s.open then s else FRESH;
      c.(mode := mode, toSend := Encode(r), requests := c.requests + [r])
  }

  function Step(s: Conn, unary: set<U32>, ev: Event): Conn
    requires Enabled(s, unary, ev)
  {
    match ev
    case Call(r) => Begin(s, r, Unary)
    case CallStream(r) => Begin(s, r, Stream)
    case ClientSend(n) => s.(toSend := s.toSend[n..], toServer := s.toServer + s.toSend[..n])
    case ServerRead(n) => s.(toServer := s.toServer[n..], serverBuf := s.serverBuf + s.toServer[..n])
    case Handle(replies) =>
      var d := Decode(s.serverBuf);
      s.(serverBuf := s.serverBuf[d.size..], serverOut := EncodeAll(replies), handled := s.handled + [Handled(d.frame, replies)])
    case ServerSend(n) => s.(serverOut := s.serverOut[n..], toClient := s.toClient + s.serverOut[..n])
    case ServerClose(kept) => s.(alive := false, serverBuf := [], serverOut := [], toClient := s.toClient[..kept])
    case ClientRecv(n) => s.(toClient := s.toClient[n..], got := s.got + s.toClient[..n])
    case Finish =>
      var d := Decode(s.got);
      if d.Complete? then s.(mode := Idle, got := [], results := s.results + [d.frame]) else CLOSED
    case StreamFrame => if Decode(s.got).Complete? then s.(got := []) else CLOSED
    case Drop => CLOSED
  }

  ghost predicate IsRun(unary: set<U32>, evs: seq<Event>)
    decreases |evs|, 0
  {
    evs == [] || (IsRun(unary, evs[..|evs| - 1]) && Enabled(After(unary, evs[..|evs| - 1]), unary, evs[|evs| - 1]))
  }

  ghost function After(unary: set<U32>, evs: seq<Event>): Conn
    requires IsRun(unary, evs)
    decreases |evs|, 1
  {
    if evs == [] then CLOSED else Step(After(unary, evs[..|evs| - 1]), unary, evs[|evs| - 1])
  }

  /** The k-th result is the one reply the server gave to the k-th request of this connection. */
  predicate Paired(s: Conn) {
    && |s.results| <= |s.handled| && |s.results| <= |s.requests|
    && forall k :: 0 <= k < |s.results| ==> s.handled[k] == Handled(s.requests[k], [s.results[k]])
  }

  // ---------- the invariant ----------

  /** Between calls nothing is under way. */
  predicate Quiet(s: Conn) {
    && |s.requests| == |s.handled| == |s.results|
    && s.toSend == [] && s.toClient == [] && s.got == []
    && (s.alive ==> s.toServer == [] && s.serverBuf == [] && s.serverOut == [])
  }

  /** The request is somewhere between the client and the server's buffer. */
  predicate Asking(s: Conn) {
    && |s.handled| == |s.results| && |s.requests| == |s.results| + 1
    && s.got == [] && s.toClient == []
    && var r := s.requests[|s.results|];
       Fits(r) && r.serial != STREAM_METRICS
       && (s.alive ==> s.serverOut == [] && s.serverBuf + s.toServer + s.toSend == Encode(r))
  }

  /** The reply is somewhere between the server and the client's buffer; of a dead server, a part of it. */
  predicate Answering(s: Conn) {
    && |s.handled| == |s.requests| == |s.results| + 1
    && s.toSend == []
    && var h := s.handled[|s.results|];
       h.request == s.requests[|s.results|] && |h.replies| == 1 && Fits(h.replies[0])
       && (if s.alive then s.toServer == [] && s.serverBuf == [] && s.got + s.toClient + s.serverOut == Encode(h.replies[0])
           else s.got + s.toClient <= Encode(h.replies[0]))
  }

  predicate Inv(s: Conn) {
    && Paired(s)
    && match s.mode
       case Idle => Quiet(s)
       case Unary => Asking(s) || Answering(s)
       case Stream => true
  }

  // ---------- what a part of a frame looks like ----------

  lemma WantedOfPart(f: Frame, k: nat)
    requires Fits(f) && k <= |Encode(f)|
    ensures Wanted(Encode(f)[..k]) == if k < HEADER_SIZE then HEADER_SIZE - k else |Encode(f)| - k
  {
    NumberOfBigEndian(SERIAL_ID_SIZE + |f.payload|);
    if k >= HEADER_SIZE {
      assert Encode(f)[..k][..4] == BigEndian(SERIAL_ID_SIZE + |f.payload|);
    }
  }

  /** A server holding part of one request can act on it exactly when it holds all of it. */
  lemma WholeRequest(buf: seq<Byte>, more: seq<Byte>, r: Frame)
    requires Fits(r) && buf + more == Encode(r) && Decode(buf).Complete?
    ensures more == [] && buf == Encode(r) && Decode(buf) == Complete(r, |buf|)
  {
    assert buf == Encode(r)[..|buf|];
    if |buf| < |Encode(r)| {
      PartIsIncomplete(r, |buf|);
    }
    RoundTrip(r, []);
    assert Encode(r) + [] == Encode(r);
  }

  /** A client that wants no more of a reply holds all of it. */
  lemma WholeReply(got: seq<Byte>, more: seq<Byte>, f: Frame)
    requires Fits(f) && got + more <= Encode(f) && Wanted(got) == 0
    ensures more == [] && got == Encode(f) && Decode(got) == Complete(f, |got|)
  {
    assert got == Encode(f)[..|got|];
    WantedOfPart(f, |got|);
    RoundTrip(f, []);
    assert Encode(f) + [] == Encode(f);
  }

  // ---------- every step keeps it ----------

  lemma ClientSendKeeps(s: Conn, n: nat)
    requires Inv(s) && n <= |s.toSend|
    ensures Inv(s.(toSend := s.toSend[n..], toServer := s.toServer + s.toSend[..n]))
  {
    if s.mode == Unary && Asking(s) {
      assert s.serverBuf + (s.toServer + s.toSend[..n]) + s.toSend[n..] == s.serverBuf + s.toServer + s.toSend;
    }
  }

  lemma ServerReadKeeps(s: Conn, n: nat)
    requires Inv(s) && n <= |s.toServer| && s.alive
    ensures Inv(s.(toServer := s.toServer[n..], serverBuf := s.serverBuf + s.toServer[..n]))
  {
    if s.mode == Unary && Asking(s) {
      assert s.serverBuf + s.toServer[..n] + s.toServer[n..] + s.toSend == s.serverBuf + s.toServer + s.toSend;
    }
  }

  lemma HandleKeeps(s: Conn, unary: set<U32>, replies: seq<Frame>)
    requires Inv(s) && Enabled(s, unary, Handle(replies))
    ensures Inv(Step(s, unary, Handle(replies)))
  {
    var t := Step(s, unary, Handle(replies));
    if s.mode == Unary {
      assert Decode([]) == Incomplete;
      var r := s.requests[|s.results|];
      assert s.serverBuf + (s.toServer + s.toSend) == Encode(r);
      WholeRequest(s.serverBuf, s.toServer + s.toSend, r);
      assert EncodeAll(replies) == Encode(replies[0]) + EncodeAll(replies[1..]) == Encode(replies[0]);
      assert t.got + t.toClient + t.serverOut == t.serverOut;
    }
  }

  lemma ServerSendKeeps(s: Conn, n: nat)
    requires Inv(s) && n <= |s.serverOut| && s.alive
    ensures Inv(s.(serverOut := s.serverOut[n..], toClient := s.toClient + s.serverOut[..n]))
  {
    if s.mode == Unary && Answering(s) {
      assert s.got + (s.toClient + s.serverOut[..n]) + s.serverOut[n..] == s.got + s.toClient + s.serverOut;
    }
  }

  lemma ServerCloseKeeps(s: Conn, kept: nat)
    requires Inv(s) && kept <= |s.toClient| && s.alive
    ensures Inv(s.(alive := false, serverBuf := [], serverOut := [], toClient := s.toClient[..kept]))
  {
    if s.mode == Unary && Answering(s) {
      var e := Encode(s.handled[|s.results|].replies[0]);
      assert s.got + s.toClient[..kept] == e[..|s.got| + kept];
    }
  }

  lemma ClientRecvKeeps(s: Conn, n: nat)
    requires Inv(s) && n <= |s.toClient| && s.mode != Idle
    ensures Inv(s.(toClient := s.toClient[n..], got := s.got + s.toClient[..n]))
  {
    assert (s.got + s.toClient[..n]) + s.toClient[n..] == s.got + s.toClient;
  }

  lemma FinishKeeps(s: Conn, unary: set<U32>)
    requires Inv(s) && Enabled(s, unary, Finish)
    ensures Inv(Step(s, unary, Finish))
  {
    if Answering(s) {
      var f := s.handled[|s.results|].replies[0];
      if s.alive {
        assert s.got + (s.toClient + s.serverOut) == Encode(f);
        WholeReply(s.got, s.toClient + s.serverOut, f);
      } else {
        WholeReply(s.got, s.toClient, f);
      }
    }
  }

  lemma StepKeepsInv(s: Conn, unary: set<U32>, ev: Event)
    requires STREAM_METRICS !in unary && Inv(s) && Enabled(s, unary, ev)
    ensures Inv(Step(s, unary, ev))
  {
    match ev
    case Call(r) => BeginKeeps(s, r);
    case CallStream(_) =>
    case ClientSend(n) => ClientSendKeeps(s, n);
    case ServerRead(n) => ServerReadKeeps(s, n);
    case Handle(replies) => HandleKeeps(s, unary, replies);
    case ServerSend(n) => ServerSendKeeps(s, n);
    case ServerClose(kept) => ServerCloseKeeps(s, kept);
    case ClientRecv(n) => ClientRecvKeeps(s, n);
    case Finish => FinishKeeps(s, unary);
    case StreamFrame =>
    case Drop =>
  }

  lemma BeginKeeps(s: Conn, r: Frame)
    requires Inv(s) && s.mode == Idle && r.serial != STREAM_METRICS
    ensures Inv(Begin(s, r, Unary))
  {
  }

  lemma {:induction false} RunKeepsInv(unary: set<U32>, evs: seq<Event>)
    requires STREAM_METRICS !in unary && IsRun(unary, evs)
    ensures Inv(After(unary, evs))
    decreases |evs|
  {
    if evs != [] {
      RunKeepsInv(unary, evs[..|evs| - 1]);
      StepKeepsInv(After(unary, evs[..|evs| - 1]), unary, evs[|evs| - 1]);
    }
  }

  /**
   For any sizes of reads and writes and any failures: the k-th result on a kept connection is the
   reply the server gave to its k-th request, and between calls no byte is left unread.
   */
  lemma ResponsePairing(unary: set<U32>, evs: seq<Event>, k: nat)
    requires STREAM_METRICS !in unary && IsRun(unary, evs) && k < |After(unary, evs).results|
    ensures var s := After(unary, evs);
            && k < |s.handled| && k < |s.requests|
            && s.handled[k] == Handled(s.requests[k], [s.results[k]])
            && (s.mode == Idle ==> s.got == [] && s.toClient == [] && (s.alive ==> s.serverOut == []))
  {
    RunKeepsInv(unary, evs);
  }

  // ---------- exactly when replies are paired ----------

  ghost predicate AlwaysPaired(unary: set<U32>) {
    forall evs :: IsRun(unary, evs) ==> Paired(After(unary, evs))
  }

  lemma Snoc(unary: set<U32>, evs: seq<Event>, ev: Event)
    requires IsRun(unary, evs) && Enabled(After(unary, evs), unary, ev)
    ensures IsRun(unary, evs + [ev]) && After(unary, evs + [ev]) == Step(After(unary, evs), unary, ev)
  {
    assert (evs + [ev])[..|evs + [ev]| - 1] == evs;
  }

  lemma WholeFrame(f: Frame)
    requires f.payload == []
    ensures |Encode(f)| == 8 && Decode(Encode(f)) == Complete(f, 8) && Wanted(Encode(f)) == 0
    ensures Encode(f)[..8] == Encode(f) && Encode(f)[8..] == [] && [] + Encode(f) == Encode(f)
  {
    RoundTrip(f, []);
    assert Encode(f) + [] == Encode(f);
    WantedOfPart(f, 8);
    assert Encode(f)[..8] == Encode(f);
  }

  /** A unary call up to the server's answer in two frames. */
  function Asked(ask: Frame, reply: Frame): seq<Event> {
    [] + [Call(ask)] + [ClientSend(8)] + [ServerRead(8)] + [Handle([reply, reply])]
  }

  lemma AskedRun(unary: set<U32>, ask: Frame, reply: Frame)
    requires STREAM_METRICS in unary && ask.serial == STREAM_METRICS && ask.payload == [] == reply.payload
    ensures IsRun(unary, Asked(ask, reply))
    ensures After(unary, Asked(ask, reply))
            == FRESH.(mode := Unary, requests := [ask], handled := [Handled(ask, [reply, reply])],
                      serverOut := Encode(reply) + Encode(reply))
  {
    WholeFrame(ask);
    assert Decode([]) == Incomplete;
    Snoc(unary, [], Call(ask));
    var r1 := [] + [Call(ask)];
    Snoc(unary, r1, ClientSend(8));
    var r2 := r1 + [ClientSend(8)];
    Snoc(unary, r2, ServerRead(8));
    var r3 := r2 + [ServerRead(8)];
    assert After(unary, r3) == FRESH.(mode := Unary, requests := [ask], serverBuf := Encode(ask));
    Snoc(unary, r3, Handle([reply, reply]));
    TwoFrames(reply);
  }

  lemma TwoFrames(f: Frame)
    requires Fits(f)
    ensures EncodeAll([f, f]) == Encode(f) + Encode(f)
  {
    assert [f, f][1..] == [f] && [f][1..] == [];
    assert EncodeAll([f]) == Encode(f) + [] == Encode(f);
  }

  /** The call returns the first frame; the second is still on its way. */
  function Returned(ask: Frame, reply: Frame): seq<Event> {
    Asked(ask, reply) + [ServerSend(16)] + [ClientRecv(8)] + [Finish]
  }

  lemma ReturnedRun(unary: set<U32>, ask: Frame, reply: Frame)
    requires STREAM_METRICS in unary && ask.serial == STREAM_METRICS && ask.payload == [] == reply.payload
    ensures IsRun(unary, Returned(ask, reply))
    ensures After(unary, Returned(ask, reply))
            == FRESH.(requests := [ask], handled := [Handled(ask, [reply, reply])],
                      toClient := Encode(reply), results := [reply])
  {
    AskedRun(unary, ask, reply);
    WholeFrame(reply);
    var b := Encode(reply);
    assert (b + b)[..16] == b + b && (b + b)[16..] == [] && [] + (b + b) == b + b;
    assert (b + b)[..8] == b && (b + b)[8..] == b;
    Snoc(unary, Asked(ask, reply), ServerSend(16));
    var r1 := Asked(ask, reply) + [ServerSend(16)];
    Snoc(unary, r1, ClientRecv(8));
    var r2 := r1 + [ClientRecv(8)];
    Snoc(unary, r2, Finish);
  }

  /** The next call takes that second frame for its reply, before the server has even read its request. */
  lemma LeftoverIsTaken(unary: set<U32>, ask: Frame, reply: Frame)
    requires STREAM_METRICS in unary && ask.serial == STREAM_METRICS && ask.payload == [] == reply.payload
    ensures var evs := Returned(ask, reply) + [Call(ask)] + [ClientSend(8)] + [ClientRecv(8)] + [Finish];
            && IsRun(unary, evs)
            && |After(unary, evs).results| == 2 && |After(unary, evs).handled| == 1
  {
    ReturnedRun(unary, ask, reply);
    WholeFrame(ask);
    WholeFrame(reply);
    var r0 := Returned(ask, reply);
    Snoc(unary, r0, Call(ask));
    var r1 := r0 + [Call(ask)];
    Snoc(unary, r1, ClientSend(8));
    var r2 := r1 + [ClientSend(8)];
    Snoc(unary, r2, ClientRecv(8));
    var r3 := r2 + [ClientRecv(8)];
    Snoc(unary, r3, Finish);
  }

  /** Replies are paired on every run exactly when no unary call asks for a stream. */
  lemma PairingExactly(unary: set<U32>)
    ensures AlwaysPaired(unary) <==> STREAM_METRICS !in unary
  {
    if STREAM_METRICS in unary {
      LeftoverIsTaken(unary, Frame(STREAM_METRICS, []), Frame(28, []));
    } else {
      forall evs | IsRun(unary, evs) ensures Paired(After(unary, evs)) {
        RunKeepsInv(unary, evs);
      }
    }
  }

  // ---------- the client object ----------

  class RpcClient {
    var connected: bool

    constructor ()
      ensures !connected
    {
      connected := false;
    }

    /**
     `call`, where the socket gives `incoming` in pieces cut as told. It returns the frame at the
     front of what arrives and leaves the rest in the socket, or fails and leaves no connection.
     */
    method Call(serial: U32, payload: seq<Byte>, connects: bool, sends: bool,
                incoming: seq<Byte>, headerCuts: seq<nat>, bodyCuts: seq<nat>)
      returns (ok: bool, reply: Frame, rest: seq<Byte>)
      modifies this
      ensures ok == connected
      ensures ok <==> && (old(connected) || connects) && Fits(Frame(serial, payload)) && sends
                      && Decode(incoming).Complete? && HEADER_SIZE <= Supplied(headerCuts)
                      && Decode(incoming).size - HEADER_SIZE <= Supplied(bodyCuts)
      ensures ok ==> Fits(reply) && incoming == Encode(reply) + rest
    {
      ok, reply, rest := false, Frame(0, []), [];
      if !connected && !connects { return; }
      connected := true;
      var fits, data := TryEncode(serial, payload);
      if !fits || !sends {
        connected := false;
        return;
      }
      var gotHeader, header := RecvExact(incoming, HEADER_SIZE, headerCuts);
      if !gotHeader {
        connected := false;
        return;
      }
      var total := Number(header[..4]);
      if total < SERIAL_ID_SIZE || total > MAX_FRAME_SIZE {
        connected := false;
        return;
      }
      var gotBody, body := RecvExact(incoming[HEADER_SIZE..], total - SERIAL_ID_SIZE, bodyCuts);
      if !gotBody {
        connected := false;
        return;
      }
      var frame := header + body;
      assert frame[..4] == header[..4];
      var d := Decode(frame);
      ok := d.Complete?;
      connected := ok;
      if ok {
        OnlyEncodings(frame);
        reply, rest := d.frame, incoming[d.size..];
        assert frame == incoming[..d.size] && frame[..d.size] == frame;
      }
    }
  }
}
