/** The remote calls between servers as a byte stream: each is an identifier followed by its
    message, and the receiving server parses the stream, handles the calls in order and
    writes back its replies. */
module Rpc {
  import opened RaftTypes
  import opened Messages
  import opened Sockets
  import opened Handlers
  import Server

  datatype Call = Vote(vote: VoteRequest) | Append(log: LogRequest)

  const RequestVoteRpc := 0
  const AppendLogRpc := 1

  // ---- The stream of calls ----

  function Kind(c: Call): int { if c.Vote? then RequestVoteRpc else AppendLogRpc }

  function Fields(c: Call): (fs: seq<int>)
    ensures |fs| == if c.Vote? then 4 else 8
  {
    if c.Vote? then VoteFields(c.vote) else LogFields(c.log)
  }

  ghost predicate Sendable(cs: seq<Call>) {
    forall k :: 0 <= k < |cs| ==> AllInt32(Fields(cs[k]))
  }

  ghost function Encode(c: Call): (b: seq<Byte>)
    requires AllInt32(Fields(c))
    ensures |b| == if c.Vote? then 20 else 36
  {
    Pack([Kind(c)]) + Pack(Fields(c))
  }

  /** The bytes that announce a call: 0 for a vote request and 1 for a log request. */
  lemma KindBytes(c: Call)
    requires AllInt32(Fields(c))
    ensures Encode(c)[..4] == [0, 0, 0, if c.Vote? then 0 else 1]
  {
    var k := Kind(c);
    PackHolds([k], 0);
    assert Pack([k]) == Encode(c)[..4];
    assert Holds(Pack([k]), 0, [k][0]);
  }

  ghost function Stream(cs: seq<Call>): seq<Byte>
    requires Sendable(cs)
  {
    if cs == [] then [] else Encode(cs[0]) + Stream(cs[1..])
  }

  /** A row of fields at the start of a stream is read off it. */
  lemma PackOnce(fs: seq<int>, gs: seq<int>, rest: seq<Byte>, rest': seq<Byte>)
    requires AllInt32(fs) && AllInt32(gs) && |fs| == |gs| && Pack(fs) + rest <= Pack(gs) + rest'
    ensures fs == gs && rest <= rest'
  {
    var x, y, n := Pack(fs) + rest, Pack(gs) + rest', 4 * |fs|;
    assert Pack(fs) == x[..n] == y[..n] == Pack(gs);
    PackRoundTrip(fs);
    PackRoundTrip(gs);
    assert rest == x[n..] && rest' == y[n..];
  }

  /** A stream that starts with the bytes of a call starts with that call. */
  lemma EncodeOnce(c: Call, d: Call, rest: seq<Byte>, rest': seq<Byte>)
    requires AllInt32(Fields(c)) && AllInt32(Fields(d)) && Encode(c) + rest <= Encode(d) + rest'
    ensures c == d && rest <= rest'
  {
    KindOnce(c, d, rest, rest');
    PackOnce(Fields(c), Fields(d), rest, rest');
    SameFields(c, d);
  }

  lemma KindOnce(c: Call, d: Call, rest: seq<Byte>, rest': seq<Byte>)
    requires AllInt32(Fields(c)) && AllInt32(Fields(d)) && Encode(c) + rest <= Encode(d) + rest'
    ensures Kind(c) == Kind(d) && Pack(Fields(c)) + rest <= Pack(Fields(d)) + rest'
  {
    var x, y := Pack(Fields(c)) + rest, Pack(Fields(d)) + rest';
    Reassociate(Pack([Kind(c)]), Pack(Fields(c)), rest);
    Reassociate(Pack([Kind(d)]), Pack(Fields(d)), rest');
    PackOnce([Kind(c)], [Kind(d)], x, y);
    assert [Kind(c)][0] == [Kind(d)][0];
  }

  lemma Reassociate(a: seq<Byte>, b: seq<Byte>, c: seq<Byte>)
    ensures (a + b) + c == a + (b + c)
  {}

  lemma SameFields(c: Call, d: Call)
    requires Kind(c) == Kind(d) && Fields(c) == Fields(d)
    ensures c == d
  {}

  /** The stream determines the calls, and one that breaks off between two calls determines
      the calls up to there. */
  lemma {:induction false} StreamsAgree(cs: seq<Call>, ds: seq<Call>)
    requires Sendable(cs) && Sendable(ds) && Stream(cs) <= Stream(ds)
    ensures cs <= ds
  {
    if cs != [] {
      assert ds != [];
      EncodeOnce(cs[0], ds[0], Stream(cs[1..]), Stream(ds[1..]));
      StreamsAgree(cs[1..], ds[1..]);
    }
  }

  // ---- What a server does with a list of calls ----

  /** The handler drops a log request from leader -1. */
  predicate Answered(c: Call) { c.Append? ==> c.log.leaderId != -1 }

  predicate InBounds(fix: Repairs, n: NodeState, c: Call) {
    c.Append? && Answered(c) ==> LogInBounds(fix, n, c.log)
  }

  function Handle(fix: Repairs, n: NodeState, c: Call): NodeState
    requires InBounds(fix, n, c)
  {
    if !Answered(c) then n
    else if c.Vote? then MeetCandidate(n, c.vote)
    else TakeLog(fix, n, c.log)
  }

  function ReplyFields(fix: Repairs, n: NodeState, c: Call): seq<int> {
    if !Answered(c) then []
    else if c.Vote? then VoteReplyFields(AnswerVote(n, c.vote))
    else LogReplyFields(AnswerLog(fix, n, c.log))
  }

  /** A vote request is always answered, with three fields; a log request with four, unless it is
      from leader -1, which is dropped and leaves the server as it was. */
  lemma CallAnswered(fix: Repairs, n: NodeState, c: Call)
    requires InBounds(fix, n, c)
    ensures c.Vote? ==>
              var r := AnswerVote(n, c.vote);
              ReplyFields(fix, n, c) == [r.id, r.term, if r.voted then 1 else 0]
              && Handle(fix, n, c) == MeetCandidate(n, c.vote)
    ensures c.Append? && c.log.leaderId != -1 ==>
              var r := AnswerLog(fix, n, c.log);
              ReplyFields(fix, n, c) == [r.followerId, r.term, r.ack, if r.success then 1 else 0]
              && Handle(fix, n, c) == TakeLog(fix, n, c.log)
    ensures c.Append? && c.log.leaderId == -1 ==> ReplyFields(fix, n, c) == [] && Handle(fix, n, c) == n
  {}

  ghost predicate CanHandle(fix: Repairs, n: NodeState, c: Call) {
    InBounds(fix, n, c) && AllInt32(ReplyFields(fix, n, c))
  }

  /** Whether each call can be handled in the state that it finds. */
  ghost predicate CanServe(fix: Repairs, found: seq<NodeState>, cs: seq<Call>) {
    |found| == |cs| && forall k :: 0 <= k < |cs| ==> CanHandle(fix, found[k], cs[k])
  }

  /** The replies to the calls, each from the state that the call finds. */
  ghost function Replies(fix: Repairs, found: seq<NodeState>, cs: seq<Call>): seq<Byte>
    requires CanServe(fix, found, cs)
  {
    if cs == [] then []
    else
      var k := |cs| - 1;
      Replies(fix, found[..k], cs[..k]) + Pack(ReplyFields(fix, found[k], cs[k]))
  }

  // ---- The sending side ----

  method SendIdentifier(socket: Socket, identifier: int) returns (ok: bool)
    requires Int32(identifier)
    modifies socket`open, socket`outgoing, socket`accepts
    ensures ok ==> socket.outgoing == old(socket.outgoing) + Pack([identifier])
    ensures Partly(old(socket.outgoing), Pack([identifier]), socket.outgoing)
    ensures old(socket.Reliable()) ==> ok && socket.Reliable()
  {
    var buffer := new Byte[4];
    var offset := Put(buffer, 0, identifier, [identifier], 0);
    AllWritten(buffer[..], [identifier]);
    ghost var before := socket.outgoing;
    ok := socket.Send(buffer, 4);
    Written(before, Pack([identifier]), buffer[..], socket.outgoing, ok);
  }

  /** Some of the bytes have been written, from the first on. */
  ghost predicate Partly(before: seq<Byte>, bytes: seq<Byte>, after: seq<Byte>) {
    exists k: nat :: k <= |bytes| && after == before + bytes[..k]
  }

  lemma Written(before: seq<Byte>, bytes: seq<Byte>, buffer: seq<Byte>, after: seq<Byte>, ok: bool)
    requires |bytes| <= |buffer| && buffer[..|bytes|] == bytes
    requires ok ==> after == before + bytes
    requires !ok ==> exists k: nat :: k < |bytes| && after == before + buffer[..k]
    ensures Partly(before, bytes, after)
  {
    if ok {
      assert bytes[..|bytes|] == bytes;
    } else {
      var k: nat :| k < |bytes| && after == before + buffer[..k];
      assert buffer[..k] == bytes[..k];
    }
  }

  method SendRequestVote(socket: Socket, m: VoteRequest) returns (ok: bool)
    requires AllInt32(Fields(Vote(m)))
    modifies socket`open, socket`outgoing, socket`accepts
    ensures ok ==> socket.outgoing == old(socket.outgoing) + Pack(VoteFields(m))
    ensures Partly(old(socket.outgoing), Pack(VoteFields(m)), socket.outgoing)
    ensures old(socket.Reliable()) ==> ok && socket.Reliable()
  {
    ghost var before := socket.outgoing;
    var msg := new RequestVoteMessage();
    var buffer := new Byte[32];
    msg.Set(m);
    msg.Marshal(buffer);
    ok := socket.Send(buffer, 16);
    Written(before, Pack(VoteFields(m)), buffer[..], socket.outgoing, ok);
  }

  method SendLogRequest(socket: Socket, m: LogRequest) returns (ok: bool)
    requires AllInt32(Fields(Append(m)))
    modifies socket`open, socket`outgoing, socket`accepts
    ensures ok ==> socket.outgoing == old(socket.outgoing) + Pack(LogFields(m))
    ensures Partly(old(socket.outgoing), Pack(LogFields(m)), socket.outgoing)
    ensures old(socket.Reliable()) ==> ok && socket.Reliable()
  {
    ghost var before := socket.outgoing;
    var msg := new LogRequestMessage();
    var buffer := new Byte[64];
    msg.Set(m);
    msg.Marshal(buffer);
    ok := socket.Send(buffer, 32);
    Written(before, Pack(LogFields(m)), buffer[..], socket.outgoing, ok);
  }

  /** One call on the wire: the identifier, then the message. */
  method SendCall(socket: Socket, c: Call) returns (ok: bool)
    requires AllInt32(Fields(c))
    modifies socket`open, socket`outgoing, socket`accepts
    ensures ok ==> socket.outgoing == old(socket.outgoing) + Encode(c)
    ensures Partly(old(socket.outgoing), Encode(c), socket.outgoing)
    ensures ok ==>
              var sent := socket.outgoing[|old(socket.outgoing)|..];
              && |sent| == (if c.Vote? then 20 else 36)
              && sent[..4] == [0, 0, 0, if c.Vote? then 0 else 1]
    ensures old(socket.Reliable()) ==> ok && socket.Reliable()
  {
    KindBytes(c);
    ghost var before := socket.outgoing;
    ok := SendIdentifier(socket, Kind(c));
    PartOfCall(before, c, socket.outgoing, ok);
    if ok {
      if c.Vote? { ok := SendRequestVote(socket, c.vote); } else { ok := SendLogRequest(socket, c.log); }
    }
    if ok { assert socket.outgoing[|before|..] == Encode(c); }
  }

  /** What part of a call has been written after the identifier, and after part of the message. */
  lemma PartOfCall(before: seq<Byte>, c: Call, after: seq<Byte>, ok: bool)
    requires AllInt32(Fields(c)) && Partly(before, Pack([Kind(c)]), after)
    requires ok ==> after == before + Pack([Kind(c)])
    ensures Partly(before, Encode(c), after)
    ensures ok ==> forall later :: Partly(after, Pack(Fields(c)), later) ==> Partly(before, Encode(c), later)
  {
    var head, body := Pack([Kind(c)]), Pack(Fields(c));
    var k: nat :| k <= |head| && after == before + head[..k];
    assert Encode(c)[..k] == head[..k];
    if ok {
      forall later | Partly(after, body, later) ensures Partly(before, Encode(c), later) {
        var j: nat :| j <= |body| && later == after + body[..j];
        assert Encode(c)[..|head| + j] == head + body[..j];
        assert before + Encode(c)[..|head| + j] == later;
      }
    }
  }

  // ---- Responses ----

  /** A failed receive leaves a response without a sender. */
  method RecvLogResponse(socket: Socket) returns (r: LogResponse)
    modifies socket`open, socket`incoming, socket`arrivals
    ensures old(socket.Reliable()) && 16 <= |old(socket.incoming)| ==>
              socket.Reliable() && r == LogReplyOf(old(socket.incoming)[..16])
              && socket.incoming == old(socket.incoming)[16..]
    ensures r == NoResponse
            || (|old(socket.incoming)| >= 16 && r == LogReplyOf(old(socket.incoming)[..16])
                && socket.incoming == old(socket.incoming)[16..])
  {
    var msg := new LogResponseMessage();
    var buffer := new Byte[32];
    var ok := socket.Recv(buffer, 16);
    if ok { msg.Unmarshal(buffer); }
    r := msg.Value();
  }

  // ---- The receiving side ----

  class ServerStub {
    const socket: Socket

    constructor (socket: Socket)
      ensures this.socket == socket
    {
      this.socket := socket;
    }

    /** After a failed receive the identifier is whatever the buffer held. */
    method IdentifyRPC() returns (rpc: int)
      modifies socket`open, socket`incoming, socket`arrivals
      ensures old(socket.Reliable()) && 4 <= |old(socket.incoming)| ==>
                socket.Reliable() && [rpc] == Ints(old(socket.incoming)[..4])
                    && socket.incoming == old(socket.incoming)[4..]
    {
      var buffer := new Byte[4];
      var ok := socket.Recv(buffer, 4);
      var offset;
      rpc, offset := Get(buffer, 0, 0);
      assert buffer[..4] == buffer[..];
    }

    /** A failed receive gives whatever the memory held. */
    method RecvRequestVote(memory: VoteRequest) returns (m: VoteRequest)
      modifies socket`open, socket`incoming, socket`arrivals
      ensures old(socket.Reliable()) && 16 <= |old(socket.incoming)| ==>
                socket.Reliable() && m == VoteOf(old(socket.incoming)[..16])
                    && socket.incoming == old(socket.incoming)[16..]
      ensures m == memory
              || (|old(socket.incoming)| >= 16 && m == VoteOf(old(socket.incoming)[..16])
                  && socket.incoming == old(socket.incoming)[16..])
    {
      var msg := new RequestVoteMessage.Unset(memory);
      var buffer := new Byte[32];
      var ok := socket.Recv(buffer, 16);
      if ok { msg.Unmarshal(buffer); }
      m := msg.Value();
    }

    /** A failed receive gives a request from leader -1, which the handler drops. */
    method RecvLogRequest() returns (m: LogRequest)
      modifies socket`open, socket`incoming, socket`arrivals
      ensures old(socket.Reliable()) && 32 <= |old(socket.incoming)| ==>
                socket.Reliable() && m == LogOf(old(socket.incoming)[..32])
                    && socket.incoming == old(socket.incoming)[32..]
      ensures m.leaderId != -1 ==>
                |old(socket.incoming)| >= 32 && m == LogOf(old(socket.incoming)[..32])
                    && socket.incoming == old(socket.incoming)[32..]
    {
      var msg := new LogRequestMessage();
      var buffer := new Byte[64];
      var ok := socket.Recv(buffer, 32);
      if ok { msg.Unmarshal(buffer); }
      m := msg.Value();
    }

    method SendVoteResponse(r: VoteResponse) returns (ok: bool)
      requires AllInt32(VoteReplyFields(r))
      modifies socket`open, socket`outgoing, socket`accepts
      ensures ok ==> socket.outgoing == old(socket.outgoing) + Pack(VoteReplyFields(r))
      ensures exists k: nat :: k <= 12 && socket.outgoing == old(socket.outgoing) + Pack(VoteReplyFields(r))[..k]
      ensures old(socket.Reliable()) ==> ok && socket.Reliable()
    {
      var msg := new RequestVoteResponse();
      var buffer := new Byte[32];
      ghost var bytes := Pack(VoteReplyFields(r));
      msg.Set(r);
      msg.Marshal(buffer);
      ok := socket.Send(buffer, 12);
      if ok {
        assert bytes[..12] == bytes;
      } else {
        ghost var k: nat :| k < 12 && socket.outgoing == old(socket.outgoing) + buffer[..k];
        assert buffer[..k] == bytes[..k];
      }
    }

    method SendLogResponse(r: LogResponse) returns (ok: bool)
      requires AllInt32(LogReplyFields(r))
      modifies socket`open, socket`outgoing, socket`accepts
      ensures ok ==> socket.outgoing == old(socket.outgoing) + Pack(LogReplyFields(r))
      ensures exists k: nat :: k <= 16 && socket.outgoing == old(socket.outgoing) + Pack(LogReplyFields(r))[..k]
      ensures old(socket.Reliable()) ==> ok && socket.Reliable()
    {
      var msg := new LogResponseMessage();
      var buffer := new Byte[32];
      ghost var bytes := Pack(LogReplyFields(r));
      msg.Set(r);
      msg.Marshal(buffer);
      ok := socket.Send(buffer, 16);
      if ok {
        assert bytes[..16] == bytes;
      } else {
        ghost var k: nat :| k < 16 && socket.outgoing == old(socket.outgoing) + buffer[..k];
        assert buffer[..k] == bytes[..k];
      }
    }
  }

  /** What answering vote request `m` does, with the first `k` bytes of the reply written. */
  ghost predicate HandlesVote(n: NodeState, m: VoteRequest, outgoing: seq<Byte>, n': NodeState, outgoing': seq<Byte>,
                              k: nat)
  {
    && n' == MeetCandidate(n, m) && AllInt32(VoteReplyFields(AnswerVote(n, m)))
    && k <= |Pack(VoteReplyFields(AnswerVote(n, m)))|
    && outgoing' == outgoing + Pack(VoteReplyFields(AnswerVote(n, m)))[..k]
  }

  /** Handles the vote request at the head of the stream. The code goes on after a link that
      fails inside it, with whatever the memory held for a request. */
  method CandidateVoteHandler(stub: ServerStub, metadata: Server.ServerMetadata, memory: VoteRequest)
    returns (ghost m: VoteRequest)
    requires metadata.Valid() && AllInt32(VoteReplyFields(AnswerVote(metadata.State(), memory)))
    requires 16 <= |stub.socket.incoming| ==>
               AllInt32(VoteReplyFields(AnswerVote(metadata.State(), VoteOf(stub.socket.incoming[..16]))))
    modifies metadata`currentTerm, metadata`status, metadata`votedFor, metadata`voteReceived, stub.socket
    ensures metadata.Valid()
    ensures exists k: nat :: HandlesVote(old(metadata.State()), m, old(stub.socket.outgoing), metadata.State(),
                                         stub.socket.outgoing, k)
    ensures m == memory
            || (16 <= |old(stub.socket.incoming)| && m == VoteOf(old(stub.socket.incoming)[..16])
                && stub.socket.incoming == old(stub.socket.incoming)[16..])
    ensures old(stub.socket.Reliable()) && 16 <= |old(stub.socket.incoming)| ==>
              && stub.socket.Reliable() && stub.socket.incoming == old(stub.socket.incoming)[16..]
              && m == VoteOf(old(stub.socket.incoming)[..16])
              && HandlesVote(old(metadata.State()), m, old(stub.socket.outgoing), metadata.State(),
                             stub.socket.outgoing, |Pack(VoteReplyFields(AnswerVote(old(metadata.State()), m)))|)
  {
    ghost var n, outgoing := metadata.State(), stub.socket.outgoing;
    var msg := stub.RecvRequestVote(memory);
    m := msg;
    var res := metadata.GetVoteResponse(msg);
    var sent := stub.SendVoteResponse(res);
    ghost var k: nat :| k <= 12 && stub.socket.outgoing == outgoing + Pack(VoteReplyFields(res))[..k];
    assert HandlesVote(n, m, outgoing, metadata.State(), stub.socket.outgoing, k);
  }

  /** What handling the log request at the head of the stream does, with the first `k` bytes
      of the reply written. */
  ghost predicate HandlesLog(fix: Repairs, n: NodeState, incoming: seq<Byte>, outgoing: seq<Byte>,
                             n': NodeState, incoming': seq<Byte>, outgoing': seq<Byte>, k: nat)
  {
    && 32 <= |incoming| && incoming' == incoming[32..]
    && var c := Append(LogOf(incoming[..32]));
       && InBounds(fix, n, c) && n' == Handle(fix, n, c) && AllInt32(ReplyFields(fix, n, c))
       && k <= |Pack(ReplyFields(fix, n, c))| && outgoing' == outgoing + Pack(ReplyFields(fix, n, c))[..k]
  }

  /** Handles one whole log request, or none: a link that fails inside the request leaves the
      server as it was, and one that fails in the reply cuts the reply short. */
  method AppendLogHandler(stub: ServerStub, metadata: Server.ServerMetadata) returns (r: int)
    requires metadata.Valid()
    requires 32 <= |stub.socket.incoming| ==>
               var c := Append(LogOf(stub.socket.incoming[..32]));
               InBounds(metadata.repairs, metadata.State(), c)
                   && AllInt32(ReplyFields(metadata.repairs, metadata.State(), c))
    modifies metadata`leaderId, metadata`currentTerm, metadata`status, metadata`votedFor, metadata`voteReceived
    modifies metadata`smrLog, metadata`logSize, metadata`commitLength, metadata`customerRecord, stub.socket
    ensures metadata.Valid() && (r == 0 || r == 1)
    ensures old(stub.socket.Reliable()) && 32 <= |old(stub.socket.incoming)| ==>
              (r == 1 <==> LogOf(old(stub.socket.incoming)[..32]).leaderId != -1)
    ensures (metadata.State() == old(metadata.State()) && stub.socket.outgoing == old(stub.socket.outgoing))
            || exists k: nat :: HandlesLog(metadata.repairs, old(metadata.State()), old(stub.socket.incoming),
                old(stub.socket.outgoing),
                                           metadata.State(), stub.socket.incoming, stub.socket.outgoing, k)
    ensures old(stub.socket.Reliable()) && 32 <= |old(stub.socket.incoming)| ==>
              && stub.socket.Reliable()
              && var c := Append(LogOf(old(stub.socket.incoming)[..32]));
                 HandlesLog(metadata.repairs, old(metadata.State()), old(stub.socket.incoming),
                     old(stub.socket.outgoing),
                            metadata.State(), stub.socket.incoming, stub.socket.outgoing,
                            |Pack(ReplyFields(metadata.repairs, old(metadata.State()), c))|)
  {
    ghost var n, incoming, outgoing := metadata.State(), stub.socket.incoming, stub.socket.outgoing;
    var request := stub.RecvLogRequest();
    if request.leaderId == -1 { return 0; }
    var res := metadata.GetLogResponse(request);
    assert stub.socket.incoming == incoming[32..] && stub.socket.outgoing == outgoing;
    var sent := stub.SendLogResponse(res);
    ghost var k: nat :| k <= 16 && stub.socket.outgoing == outgoing + Pack(LogReplyFields(res))[..k];
    assert HandlesLog(metadata.repairs, n, incoming, outgoing, metadata.State(), stub.socket.incoming,
        stub.socket.outgoing, k);
    r := if sent then 1 else 0;
  }

  /** One round of ServerHandler; an unknown identifier would be skipped. */
  method HandleCall(stub: ServerStub, metadata: Server.ServerMetadata, memory: VoteRequest, ghost c: Call,
                    ghost later: seq<Byte>)
    requires metadata.Valid() && stub.socket.Reliable() && CanHandle(metadata.repairs, metadata.State(), c)
    requires AllInt32(Fields(c)) && stub.socket.incoming == Encode(c) + later
    requires AllInt32(VoteReplyFields(AnswerVote(metadata.State(), memory)))
    modifies metadata`leaderId, metadata`currentTerm, metadata`status, metadata`votedFor, metadata`voteReceived
    modifies metadata`smrLog, metadata`logSize, metadata`commitLength, metadata`customerRecord, stub.socket
    ensures metadata.Valid() && metadata.State() == Handle(metadata.repairs, old(metadata.State()), c)
    ensures stub.socket.Reliable() && stub.socket.incoming == later
    ensures stub.socket.outgoing ==
            old(stub.socket.outgoing) + Pack(ReplyFields(metadata.repairs, old(metadata.State()), c))
  {
    var rpc := NextIdentifier(stub, c, later);
    if rpc == RequestVoteRpc {
      VoteRoundTrip(c.vote);
      assert stub.socket.incoming[..16] == Pack(VoteFields(c.vote)) && stub.socket.incoming[16..] == later;
      ghost var m := CandidateVoteHandler(stub, metadata, memory);
    } else if rpc == AppendLogRpc {
      LogRoundTrip(c.log);
      assert stub.socket.incoming[..32] == Pack(LogFields(c.log)) && stub.socket.incoming[32..] == later;
      var r := AppendLogHandler(stub, metadata);
    }
  }

  /** What other threads do to the server while they hold its lock. */
  method OthersAct(metadata: Server.ServerMetadata, n: NodeState)
    requires metadata.Valid() && n.me == metadata.factoryId && n.members == metadata.members
    modifies metadata
    ensures metadata.Valid() && metadata.State() == n
  {
    metadata.leaderId, metadata.currentTerm, metadata.status := n.leaderId, n.term, n.status;
    metadata.votedFor, metadata.voteReceived := n.votedFor, n.votes;
    metadata.smrLog, metadata.logSize, metadata.commitLength := n.log, |n.log|, n.commitLength;
    metadata.customerRecord := n.record;
    metadata.sentLength := new int[|n.sent|](k requires 0 <= k < |n.sent| => n.sent[k]);
    metadata.ackLength := new int[|n.ack|](k requires 0 <= k < |n.ack| => n.ack[k]);
  }

  /** The states that calls find are states of this server. */
  ghost predicate StatesOf(metadata: Server.ServerMetadata, found: seq<NodeState>) {
    forall k :: 0 <= k < |found| ==> found[k].me == metadata.factoryId && found[k].members == metadata.members
  }

  /** Whatever sizes the bytes of a list of calls arrive in, and whatever other threads do to
      the server between them: exactly these calls are handled, once each and in order, each in
      the state `found` in which the other threads leave the server to it, and their replies are
      written back in order. */
  method ServerHandler(stub: ServerStub, metadata: Server.ServerMetadata, found: seq<NodeState>, memory: VoteRequest,
                       ghost cs: seq<Call>)
    requires metadata.Valid() && stub.socket.Reliable() && Sendable(cs) && stub.socket.incoming == Stream(cs)
    requires CanServe(metadata.repairs, found, cs) && StatesOf(metadata, found)
    requires forall k :: 0 <= k < |found| ==> AllInt32(VoteReplyFields(AnswerVote(found[k], memory)))
    modifies metadata, stub.socket
    ensures metadata.Valid() && stub.socket.Reliable() && stub.socket.incoming == []
    ensures stub.socket.outgoing == old(stub.socket.outgoing) + Replies(metadata.repairs, found, cs)
    ensures metadata.State() ==
            if cs == [] then old(metadata.State()) else Handle(metadata.repairs, found[|cs| - 1], cs[|cs| - 1])
  {
    ghost var written, n0 := stub.socket.outgoing, metadata.State();
    var k: nat := 0;
    while stub.socket.incoming != []
      invariant k <= |cs| && Between(stub, metadata, found, cs, k, written, n0)
      decreases |cs| - k
    {
      NonEmpty(cs, k);
      HandleNext(stub, metadata, found, memory, cs, k, written, n0);
      k := k + 1;
    }
    Finished(stub, metadata, found, cs, k, written, n0);
  }

  /** After the last call. */
  lemma Finished(stub: ServerStub, metadata: Server.ServerMetadata, found: seq<NodeState>, cs: seq<Call>, k: nat,
                 written: seq<Byte>, n0: NodeState)
    requires k <= |cs| && Between(stub, metadata, found, cs, k, written, n0) && stub.socket.incoming == []
    ensures k == |cs| && stub.socket.outgoing == written + Replies(metadata.repairs, found, cs)
    ensures metadata.State() == if cs == [] then n0 else Handle(metadata.repairs, found[|cs| - 1], cs[|cs| - 1])
  {
    AllRead(cs, k);
    assert cs[..k] == cs && found[..k] == found;
  }

  /** The handler is before call `k`. */
  ghost predicate Between(stub: ServerStub, metadata: Server.ServerMetadata, found: seq<NodeState>, cs: seq<Call>,
                          k: nat, written: seq<Byte>, n0: NodeState)
    requires k <= |cs|
    reads metadata, metadata.sentLength, metadata.ackLength, stub.socket
  {
    && metadata.Valid() && stub.socket.Reliable() && Sendable(cs) && stub.socket.incoming == Stream(cs[k..])
    && CanServe(metadata.repairs, found, cs) && CanServe(metadata.repairs, found[..k], cs[..k])
    && stub.socket.outgoing == written + Replies(metadata.repairs, found[..k], cs[..k])
    && metadata.State() == if k == 0 then n0 else Handle(metadata.repairs, found[k - 1], cs[k - 1])
  }

  /** One round of ServerHandler, seen within the whole list. */
  method HandleNext(stub: ServerStub, metadata: Server.ServerMetadata, found: seq<NodeState>, memory: VoteRequest,
                    ghost cs: seq<Call>, k: nat, ghost written: seq<Byte>, ghost n0: NodeState)
    requires k < |cs| && Between(stub, metadata, found, cs, k, written, n0) && StatesOf(metadata, found)
    requires AllInt32(VoteReplyFields(AnswerVote(found[k], memory)))
    modifies metadata, stub.socket
    ensures Between(stub, metadata, found, cs, k + 1, written, n0)
  {
    StreamNext(cs, k);
    RepliesNext(metadata.repairs, found, cs, k, written);
    FindAndHandle(stub, metadata, found[k], memory, cs[k], Stream(cs[k + 1..]));
  }

  /** A call and the state it finds. */
  method FindAndHandle(stub: ServerStub, metadata: Server.ServerMetadata, n: NodeState, memory: VoteRequest,
                       ghost c: Call, ghost later: seq<Byte>)
    requires metadata.Valid() && stub.socket.Reliable() && CanHandle(metadata.repairs, n, c)
    requires n.me == metadata.factoryId && n.members == metadata.members
    requires AllInt32(Fields(c)) && stub.socket.incoming == Encode(c) + later
    requires AllInt32(VoteReplyFields(AnswerVote(n, memory)))
    modifies metadata, stub.socket
    ensures metadata.Valid() && metadata.State() == Handle(metadata.repairs, n, c)
    ensures stub.socket.Reliable() && stub.socket.incoming == later
    ensures stub.socket.outgoing == old(stub.socket.outgoing) + Pack(ReplyFields(metadata.repairs, n, c))
  {
    OthersAct(metadata, n);
    HandleCall(stub, metadata, memory, c, later);
  }

  lemma NonEmpty(cs: seq<Call>, k: nat)
    requires k <= |cs| && Sendable(cs) && Stream(cs[k..]) != []
    ensures k < |cs|
  {}

  lemma AllRead(cs: seq<Call>, k: nat)
    requires k <= |cs| && Sendable(cs) && Stream(cs[k..]) == []
    ensures k == |cs|
  {}

  lemma StreamNext(cs: seq<Call>, k: nat)
    requires k < |cs| && Sendable(cs)
    ensures AllInt32(Fields(cs[k])) && Stream(cs[k..]) == Encode(cs[k]) + Stream(cs[k + 1..])
  {
    var rest := cs[k..];
    assert rest[0] == cs[k] && rest[1..] == cs[k + 1..];
  }

  lemma RepliesNext(fix: Repairs, found: seq<NodeState>, cs: seq<Call>, k: nat, written: seq<Byte>)
    requires k < |cs| && CanServe(fix, found, cs)
    ensures CanServe(fix, found[..k], cs[..k]) && CanServe(fix, found[..k + 1], cs[..k + 1])
    ensures written + Replies(fix, found[..k + 1], cs[..k + 1]) ==
            (written + Replies(fix, found[..k], cs[..k])) + Pack(ReplyFields(fix, found[k], cs[k]))
  {
    assert found[..k + 1][..k] == found[..k] && cs[..k + 1][..k] == cs[..k];
  }

  method NextIdentifier(stub: ServerStub, ghost c: Call, ghost later: seq<Byte>) returns (rpc: int)
    requires stub.socket.Reliable() && AllInt32(Fields(c)) && stub.socket.incoming == Encode(c) + later
    modifies stub.socket`open, stub.socket`incoming, stub.socket`arrivals
    ensures rpc == Kind(c) && stub.socket.Reliable() && stub.socket.incoming == Pack(Fields(c)) + later
  {
    PackRoundTrip([Kind(c)]);
    assert stub.socket.incoming[..4] == Pack([Kind(c)]) && stub.socket.incoming[4..] == Pack(Fields(c)) + later;
    rpc := stub.IdentifyRPC();
    assert [rpc][0] == [Kind(c)][0];
  }
}
