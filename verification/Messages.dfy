/** The protocol messages as bytes: fields are signed 32-bit integers, in big-endian two's
    complement, written into a buffer at a moving offset. */
module Messages {
  import opened RaftTypes

  type Byte = b: int | 0 <= b < 256

  // ---- One field ----

  predicate Int32(x: int) { -0x8000_0000 <= x < 0x8000_0000 }

  function Power(n: nat): nat { if n == 0 then 1 else 256 * Power(n - 1) }

  /** The low `n` bytes of a number, highest first. */
  function Digits(u: nat, n: nat): (b: seq<Byte>)
    ensures |b| == n
  {
    if n == 0 then [] else Digits(u / 256, n - 1) + [u % 256]
  }

  function Unsigned(b: seq<Byte>): nat {
    if b == [] then 0 else Unsigned(b[..|b| - 1]) * 256 + b[|b| - 1]
  }

  lemma {:induction false} DigitsRoundTrip(u: nat, n: nat)
    requires u < Power(n)
    ensures Unsigned(Digits(u, n)) == u
  {
    if n > 0 {
      DigitsRoundTrip(u / 256, n - 1);
      assert Digits(u, n)[..n - 1] == Digits(u / 256, n - 1);
    }
  }

  lemma {:induction false} UnsignedRoundTrip(b: seq<Byte>)
    ensures Unsigned(b) < Power(|b|) && Digits(Unsigned(b), |b|) == b
  {
    if b != [] {
      UnsignedRoundTrip(b[..|b| - 1]);
      assert Unsigned(b) / 256 == Unsigned(b[..|b| - 1]);
    }
  }

  function IntBytes(x: int): (b: seq<Byte>)
    requires Int32(x)
    ensures |b| == 4
  {
    Digits(if x < 0 then x + 0x1_0000_0000 else x, 4)
  }

  function BytesInt(b: seq<Byte>): int
    requires |b| == 4
  {
    var u := Unsigned(b);
    if u >= 0x8000_0000 then u - 0x1_0000_0000 else u
  }

  lemma IntRoundTrip(x: int)
    requires Int32(x)
    ensures BytesInt(IntBytes(x)) == x
  {
    assert Power(4) == 0x1_0000_0000;
    DigitsRoundTrip(if x < 0 then x + 0x1_0000_0000 else x, 4);
  }

  lemma BytesRoundTrip(b: seq<Byte>)
    requires |b| == 4
    ensures Int32(BytesInt(b)) && IntBytes(BytesInt(b)) == b
  {
    assert Power(4) == 0x1_0000_0000;
    UnsignedRoundTrip(b);
  }

  /** Field `x` is at offset `o`, highest byte first, a negative one as its two's complement. */
  predicate Holds(b: seq<Byte>, o: nat, x: int)
    requires o + 4 <= |b|
  {
    var b0: int, b1: int, b2: int, b3: int := b[o], b[o + 1], b[o + 2], b[o + 3];
    b0 * 0x100_0000 + b1 * 0x1_0000 + b2 * 0x100 + b3 == if x < 0 then x + 0x1_0000_0000 else x
  }

  lemma UnsignedIs(b: seq<Byte>)
    requires |b| == 4
    ensures var b0: int, b1: int, b2: int, b3: int := b[0], b[1], b[2], b[3];
            Unsigned(b) == b0 * 0x100_0000 + b1 * 0x1_0000 + b2 * 0x100 + b3
  {
    var b0: int, b1: int, b2: int, b3: int := b[0], b[1], b[2], b[3];
    assert b[..3][..2] == b[..2] && b[..2][..1] == b[..1] && b[..1][..0] == [];
    assert Unsigned(b[..1]) == b0;
    assert Unsigned(b[..2]) == b0 * 0x100 + b1;
    assert Unsigned(b[..3]) == (b0 * 0x100 + b1) * 0x100 + b2;
  }

  /** The bytes of a field, by arithmetic. */
  lemma IntBytesHold(x: int)
    requires Int32(x)
    ensures Holds(IntBytes(x), 0, x)
  {
    assert Power(4) == 0x1_0000_0000;
    DigitsRoundTrip(if x < 0 then x + 0x1_0000_0000 else x, 4);
    UnsignedIs(IntBytes(x));
  }

  // ---- A row of fields ----

  ghost predicate AllInt32(fs: seq<int>) { forall k :: 0 <= k < |fs| ==> Int32(fs[k]) }

  ghost function Pack(fs: seq<int>): (b: seq<Byte>)
    requires AllInt32(fs)
    ensures |b| == 4 * |fs|
  {
    if fs == [] then [] else Pack(fs[..|fs| - 1]) + IntBytes(fs[|fs| - 1])
  }

  /** The fields that a row of bytes reads as. */
  function Ints(b: seq<Byte>): (fs: seq<int>)
    ensures |fs| == |b| / 4
  {
    if |b| < 4 then [] else [BytesInt(b[..4])] + Ints(b[4..])
  }

  lemma {:induction false} IntsAt(b: seq<Byte>, k: nat)
    requires 4 * k + 4 <= |b|
    ensures Ints(b)[k] == BytesInt(b[4 * k..4 * k + 4])
  {
    var tail := b[4..];
    assert Ints(b) == [BytesInt(b[..4])] + Ints(tail);
    if k > 0 {
      assert 4 * (k - 1) + 4 <= |tail|;
      IntsAt(tail, k - 1);
      assert tail[4 * (k - 1)..4 * (k - 1) + 4] == b[4 * k..4 * k + 4];
      assert Ints(b)[k] == Ints(tail)[k - 1];
    }
  }

  lemma {:induction false} IntsInt32(b: seq<Byte>)
    ensures AllInt32(Ints(b))
  {
    if |b| >= 4 {
      BytesRoundTrip(b[..4]);
      IntsInt32(b[4..]);
    }
  }

  lemma FirstFour(b: seq<Byte>, c: seq<Byte>)
    requires |b| >= 4
    ensures (b + c)[..4] == b[..4] && (b + c)[4..] == b[4..] + c
  {}

  lemma FirstInt(b: seq<Byte>)
    requires |b| >= 4
    ensures Ints(b) == [BytesInt(b[..4])] + Ints(b[4..])
  {}

  lemma Regroup(x: int, a: seq<int>, b: seq<int>)
    ensures [x] + (a + b) == ([x] + a) + b
  {}

  lemma {:induction false} IntsAppend(b: seq<Byte>, c: seq<Byte>)
    requires |b| % 4 == 0
    ensures Ints(b + c) == Ints(b) + Ints(c)
  {
    if b == [] {
      assert b + c == c;
    } else {
      assert |b[4..]| == |b| - 4 && |b| >= 4;
      IntsAppend(b[4..], c);
      FirstFour(b, c);
      FirstInt(b + c);
      FirstInt(b);
      Regroup(BytesInt(b[..4]), Ints(b[4..]), Ints(c));
    }
  }

  lemma PackOneMore(fs: seq<int>, k: nat)
    requires AllInt32(fs) && k < |fs|
    ensures Pack(fs[..k + 1]) == Pack(fs[..k]) + IntBytes(fs[k])
  {
    assert fs[..k + 1][..k] == fs[..k];
  }

  /** What was packed is read back. */
  lemma {:induction false} PackRoundTrip(fs: seq<int>)
    requires AllInt32(fs)
    ensures Ints(Pack(fs)) == fs
  {
    if fs != [] {
      var front, b := fs[..|fs| - 1], IntBytes(fs[|fs| - 1]);
      PackRoundTrip(front);
      IntsAppend(Pack(front), b);
      IntRoundTrip(fs[|fs| - 1]);
      assert b[..4] == b && Ints(b) == [BytesInt(b)];
      assert fs == front + [fs[|fs| - 1]];
    }
  }

  /** Every row of bytes is the packed row that it reads as. */
  lemma {:induction false} IntsRoundTrip(b: seq<Byte>)
    requires |b| % 4 == 0
    ensures AllInt32(Ints(b)) && Pack(Ints(b)) == b
  {
    IntsInt32(b);
    if b != [] {
      var n := |b| - 4;
      var front, last := b[..n], b[n..];
      IntsRoundTrip(front);
      assert b == front + last && last[..4] == last;
      IntsAppend(front, last);
      assert Ints(last) == [BytesInt(last)];
      BytesRoundTrip(last);
      assert Ints(b)[..|Ints(b)| - 1] == Ints(front);
    }
  }

  /** Each field of a packed row is at its offset. */
  lemma {:induction false} PackHolds(fs: seq<int>, k: nat)
    requires AllInt32(fs) && k < |fs|
    ensures Holds(Pack(fs), 4 * k, fs[k])
  {
    var n := |fs| - 1;
    if k < n { PackHolds(fs[..n], k); } else { IntBytesHold(fs[k]); }
  }

  /** Each field that a row of bytes reads as is at its offset. */
  lemma IntsHold(b: seq<Byte>, k: nat)
    requires 4 * k + 4 <= |b|
    ensures Int32(Ints(b)[k]) && Holds(b, 4 * k, Ints(b)[k])
  {
    var four := b[4 * k..4 * k + 4];
    IntsAt(b, k);
    BytesRoundTrip(four);
    IntBytesHold(BytesInt(four));
  }

  lemma AllRead(b: seq<Byte>, fs: seq<int>)
    requires 4 * |fs| <= |b| && fs <= Ints(b)
    ensures forall k :: 0 <= k < |fs| ==> Int32(fs[k]) && Holds(b, 4 * k, fs[k])
  {
    forall k | 0 <= k < |fs| ensures Int32(fs[k]) && Holds(b, 4 * k, fs[k]) { IntsHold(b, k); }
  }

  /** A buffer that starts with a packed row. */
  lemma AllHeld(b: seq<Byte>, fs: seq<int>)
    requires AllInt32(fs) && 4 * |fs| <= |b| && b[..4 * |fs|] == Pack(fs)
    ensures forall k :: 0 <= k < |fs| ==> Holds(b, 4 * k, fs[k])
  {
    forall k | 0 <= k < |fs| ensures Holds(b, 4 * k, fs[k]) {
      PackHolds(fs, k);
      assert forall i :: 0 <= i < 4 * |fs| ==> b[i] == Pack(fs)[i];
    }
  }

  /** The first `k` fields are in place. */
  ghost predicate Written(b: seq<Byte>, fs: seq<int>, k: nat) {
    AllInt32(fs) && k <= |fs| && 4 * k <= |b| && b[..4 * k] == Pack(fs[..k])
  }

  lemma AllWritten(b: seq<Byte>, fs: seq<int>)
    requires Written(b, fs, |fs|)
    ensures b[..4 * |fs|] == Pack(fs)
  {
    assert fs[..|fs|] == fs;
  }

  /** Writes field `k` of `fs` at its offset and returns the offset after it. */
  method Put(buffer: array<Byte>, offset: nat, x: int, ghost fs: seq<int>, ghost k: nat) returns (next: nat)
    requires k < |fs| && x == fs[k] && offset == 4 * k && offset + 4 <= buffer.Length
    requires Written(buffer[..], fs, k)
    modifies buffer
    ensures next == offset + 4 && Written(buffer[..], fs, k + 1)
    ensures forall i :: next <= i < buffer.Length ==> buffer[i] == old(buffer[i])
  {
    var b := IntBytes(x);
    for j := 0 to 4
      invariant buffer[..offset] == old(buffer[..offset])
      invariant forall i :: 0 <= i < j ==> buffer[offset + i] == b[i]
      invariant forall i :: offset + 4 <= i < buffer.Length ==> buffer[i] == old(buffer[i])
    {
      buffer[offset + j] := b[j];
    }
    next := offset + 4;
    assert buffer[..][..next] == buffer[..][..offset] + b && buffer[..][..offset] == old(buffer[..])[..offset];
    PackOneMore(fs, k);
  }

  /** Reads field `k` at its offset and returns the offset after it. */
  method Get(buffer: array<Byte>, offset: nat, ghost k: nat) returns (x: int, next: nat)
    requires offset == 4 * k && offset + 4 <= buffer.Length
    ensures x == Ints(buffer[..])[k] && next == offset + 4
  {
    IntsAt(buffer[..], k);
    assert buffer[..][4 * k..4 * k + 4] == buffer[offset..offset + 4];
    x, next := BytesInt(buffer[offset..offset + 4]), offset + 4;
  }

  // ---- The four messages ----

  function VoteFields(m: VoteRequest): (fs: seq<int>)
    ensures |fs| == 4
  {
    [m.id, m.term, m.logSize, m.lastTerm]
  }

  function VoteOf(b: seq<Byte>): VoteRequest
    requires |b| == 16
  {
    var fs := Ints(b);
    VoteRequest(fs[0], fs[1], fs[2], fs[3])
  }

  function LogFields(m: LogRequest): (fs: seq<int>)
    ensures |fs| == 8
  {
    [m.leaderId, m.term, m.prefixLength, m.prefixTerm, m.commitLength, m.opTerm, m.opCustomer, m.opOrder]
  }

  function LogOf(b: seq<Byte>): LogRequest
    requires |b| == 32
  {
    var fs := Ints(b);
    LogRequest(fs[0], fs[1], fs[2], fs[3], fs[4], fs[5], fs[6], fs[7])
  }

  function VoteReplyFields(r: VoteResponse): (fs: seq<int>)
    ensures |fs| == 3
  {
    [r.id, r.term, if r.voted then 1 else 0]
  }

  function VoteReplyOf(b: seq<Byte>): VoteResponse
    requires |b| == 12
  {
    var fs := Ints(b);
    VoteResponse(fs[0], fs[1], fs[2] != 0)
  }

  function LogReplyFields(r: LogResponse): (fs: seq<int>)
    ensures |fs| == 4
  {
    [r.followerId, r.term, r.ack, if r.success then 1 else 0]
  }

  function LogReplyOf(b: seq<Byte>): LogResponse
    requires |b| == 16
  {
    var fs := Ints(b);
    LogResponse(fs[0], fs[1], fs[2], fs[3] != 0)
  }

  lemma VoteRoundTrip(m: VoteRequest)
    requires AllInt32(VoteFields(m))
    ensures VoteOf(Pack(VoteFields(m))) == m
  {
    PackRoundTrip(VoteFields(m));
  }

  lemma LogRoundTrip(m: LogRequest)
    requires AllInt32(LogFields(m))
    ensures LogOf(Pack(LogFields(m))) == m
  {
    PackRoundTrip(LogFields(m));
  }

  /** Any 32 bytes are the encoding of the one request they are read as. */
  lemma LogBytesRoundTrip(b: seq<Byte>)
    requires |b| == 32
    ensures AllInt32(LogFields(LogOf(b))) && Pack(LogFields(LogOf(b))) == b
  {
    IntsRoundTrip(b);
    assert LogFields(LogOf(b)) == Ints(b);
  }

  lemma VoteBytesRoundTrip(b: seq<Byte>)
    requires |b| == 16
    ensures AllInt32(VoteFields(VoteOf(b))) && Pack(VoteFields(VoteOf(b))) == b
  {
    IntsRoundTrip(b);
    assert VoteFields(VoteOf(b)) == Ints(b);
  }

  /** A reply is read back as it was sent. */
  lemma VoteReplyRoundTrip(r: VoteResponse)
    requires AllInt32(VoteReplyFields(r))
    ensures VoteReplyOf(Pack(VoteReplyFields(r))) == r
  {
    PackRoundTrip(VoteReplyFields(r));
  }

  lemma LogReplyRoundTrip(r: LogResponse)
    requires AllInt32(LogReplyFields(r))
    ensures LogReplyOf(Pack(LogReplyFields(r))) == r
  {
    PackRoundTrip(LogReplyFields(r));
  }

  /** A message at the start of a longer buffer reads the same. */
  lemma Window(b: seq<Byte>, n: nat)
    requires n <= |b| && n % 4 == 0
    ensures |Ints(b[..n])| == n / 4 && Ints(b[..n]) <= Ints(b)
  {
    IntsAppend(b[..n], b[n..]);
    assert b == b[..n] + b[n..];
  }

  // ---- The message objects ----

  class RequestVoteMessage {
    var id: int
    var currentTerm: int
    var logSize: int
    var lastTerm: int

    constructor () {}

    /** The fields are not set: they are what the memory held. */
    constructor Unset(memory: VoteRequest)
      ensures Value() == memory
    {
      id, currentTerm, logSize, lastTerm := memory.id, memory.term, memory.logSize, memory.lastTerm;
    }

    function Value(): VoteRequest
      reads this
    {
      VoteRequest(id, currentTerm, logSize, lastTerm)
    }

    method Set(m: VoteRequest)
      modifies this
      ensures Value() == m
      ensures id == m.id && currentTerm == m.term && logSize == m.logSize && lastTerm == m.lastTerm
    {
      id, currentTerm, logSize, lastTerm := m.id, m.term, m.logSize, m.lastTerm;
    }

    method Marshal(buffer: array<Byte>)
      requires 16 <= buffer.Length && AllInt32(VoteFields(Value()))
      modifies buffer
      ensures buffer[..16] == Pack(VoteFields(Value()))
      ensures Holds(buffer[..], 0, id) && Holds(buffer[..], 4, currentTerm)
      ensures Holds(buffer[..], 8, logSize) && Holds(buffer[..], 12, lastTerm)
      ensures forall i :: 16 <= i < buffer.Length ==> buffer[i] == old(buffer[i])
    {
      ghost var fs := VoteFields(Value());
      var offset := Put(buffer, 0, id, fs, 0);
      offset := Put(buffer, offset, currentTerm, fs, 1);
      offset := Put(buffer, offset, logSize, fs, 2);
      offset := Put(buffer, offset, lastTerm, fs, 3);
      AllWritten(buffer[..], fs);
      AllHeld(buffer[..], fs);
      assert fs[0] == id && fs[1] == currentTerm && fs[2] == logSize && fs[3] == lastTerm;
    }

    method Unmarshal(buffer: array<Byte>)
      requires 16 <= buffer.Length
      modifies this
      ensures Value() == VoteOf(buffer[..16])
      ensures Int32(id) && Int32(currentTerm) && Int32(logSize) && Int32(lastTerm)
      ensures Holds(buffer[..], 0, id) && Holds(buffer[..], 4, currentTerm)
      ensures Holds(buffer[..], 8, logSize) && Holds(buffer[..], 12, lastTerm)
    {
      var offset := 0;
      var netId, netCurrentTerm, netLogSize, netLastTerm;
      netId, offset := Get(buffer, offset, 0);
      netCurrentTerm, offset := Get(buffer, offset, 1);
      netLogSize, offset := Get(buffer, offset, 2);
      netLastTerm, offset := Get(buffer, offset, 3);
      Window(buffer[..], 16);
      id, currentTerm, logSize, lastTerm := netId, netCurrentTerm, netLogSize, netLastTerm;
      ghost var fs := [id, currentTerm, logSize, lastTerm];
      AllRead(buffer[..], fs);
      assert fs[0] == id && fs[1] == currentTerm && fs[2] == logSize && fs[3] == lastTerm;
    }
  }

  class RequestVoteResponse {
    var id: int
    var currentTerm: int
    var voted: int

    constructor () {}

    function Value(): VoteResponse
      reads this
    {
      VoteResponse(id, currentTerm, voted != 0)
    }

    method Set(m: VoteResponse)
      modifies this
      ensures Value() == m
      ensures id == m.id && currentTerm == m.term && (voted == if m.voted then 1 else 0)
      ensures voted == 0 || voted == 1
    {
      id, currentTerm, voted := m.id, m.term, if m.voted then 1 else 0;
    }

    method Marshal(buffer: array<Byte>)
      requires 12 <= buffer.Length && AllInt32(VoteReplyFields(Value())) && (voted == 0 || voted == 1)
      modifies buffer
      ensures buffer[..12] == Pack(VoteReplyFields(Value()))
      ensures Holds(buffer[..], 0, id) && Holds(buffer[..], 4, currentTerm)
      ensures Holds(buffer[..], 8, voted)
      ensures forall i :: 12 <= i < buffer.Length ==> buffer[i] == old(buffer[i])
    {
      ghost var fs := VoteReplyFields(Value());
      var offset := Put(buffer, 0, id, fs, 0);
      offset := Put(buffer, offset, currentTerm, fs, 1);
      offset := Put(buffer, offset, voted, fs, 2);
      AllWritten(buffer[..], fs);
      AllHeld(buffer[..], fs);
      assert fs[0] == id && fs[1] == currentTerm && fs[2] == voted;
    }

    method Unmarshal(buffer: array<Byte>)
      requires 12 <= buffer.Length
      modifies this
      ensures Value() == VoteReplyOf(buffer[..12])
      ensures Int32(id) && Int32(currentTerm) && Int32(voted)
      ensures Holds(buffer[..], 0, id) && Holds(buffer[..], 4, currentTerm)
      ensures Holds(buffer[..], 8, voted)
    {
      var offset := 0;
      var netId, netCurrentTerm, netVoted;
      netId, offset := Get(buffer, offset, 0);
      netCurrentTerm, offset := Get(buffer, offset, 1);
      netVoted, offset := Get(buffer, offset, 2);
      Window(buffer[..], 12);
      id, currentTerm, voted := netId, netCurrentTerm, netVoted;
      ghost var fs := [id, currentTerm, voted];
      AllRead(buffer[..], fs);
      assert fs[0] == id && fs[1] == currentTerm && fs[2] == voted;
    }
  }

  class LogRequestMessage {
    var leaderId: int
    var currentTerm: int
    var prefixLength: int
    var prefixTerm: int
    var commitLength: int
    var opTerm: int
    var opArg1: int
    var opArg2: int

    constructor ()
      ensures leaderId == -1
    {
      leaderId := -1;
    }

    function Value(): LogRequest
      reads this
    {
      LogRequest(leaderId, currentTerm, prefixLength, prefixTerm, commitLength, opTerm, opArg1, opArg2)
    }

    method Set(m: LogRequest)
      modifies this
      ensures Value() == m
      ensures leaderId == m.leaderId && currentTerm == m.term
      ensures prefixLength == m.prefixLength && prefixTerm == m.prefixTerm
      ensures commitLength == m.commitLength && opTerm == m.opTerm && opArg1 == m.opCustomer && opArg2 == m.opOrder
    {
      leaderId, currentTerm, prefixLength, prefixTerm := m.leaderId, m.term, m.prefixLength, m.prefixTerm;
      commitLength, opTerm, opArg1, opArg2 := m.commitLength, m.opTerm, m.opCustomer, m.opOrder;
    }

    method Marshal(buffer: array<Byte>)
      requires 32 <= buffer.Length && AllInt32(LogFields(Value()))
      modifies buffer
      ensures buffer[..32] == Pack(LogFields(Value()))
      ensures Holds(buffer[..], 0, leaderId) && Holds(buffer[..], 4, currentTerm)
      ensures Holds(buffer[..], 8, prefixLength) && Holds(buffer[..], 12, prefixTerm)
      ensures Holds(buffer[..], 16, commitLength) && Holds(buffer[..], 20, opTerm)
      ensures Holds(buffer[..], 24, opArg1) && Holds(buffer[..], 28, opArg2)
      ensures forall i :: 32 <= i < buffer.Length ==> buffer[i] == old(buffer[i])
    {
      ghost var fs := LogFields(Value());
      var offset := Put(buffer, 0, leaderId, fs, 0);
      offset := Put(buffer, offset, currentTerm, fs, 1);
      offset := Put(buffer, offset, prefixLength, fs, 2);
      offset := Put(buffer, offset, prefixTerm, fs, 3);
      offset := Put(buffer, offset, commitLength, fs, 4);
      offset := Put(buffer, offset, opTerm, fs, 5);
      offset := Put(buffer, offset, opArg1, fs, 6);
      offset := Put(buffer, offset, opArg2, fs, 7);
      AllWritten(buffer[..], fs);
      AllHeld(buffer[..], fs);
      assert fs[0] == leaderId && fs[1] == currentTerm && fs[2] == prefixLength && fs[3] == prefixTerm;
      assert fs[4] == commitLength && fs[5] == opTerm && fs[6] == opArg1 && fs[7] == opArg2;
    }

    method Unmarshal(buffer: array<Byte>)
      requires 32 <= buffer.Length
      modifies this
      ensures Value() == LogOf(buffer[..32])
      ensures AllInt32(LogFields(Value()))
      ensures Holds(buffer[..], 0, leaderId) && Holds(buffer[..], 4, currentTerm)
      ensures Holds(buffer[..], 8, prefixLength) && Holds(buffer[..], 12, prefixTerm)
      ensures Holds(buffer[..], 16, commitLength) && Holds(buffer[..], 20, opTerm)
      ensures Holds(buffer[..], 24, opArg1) && Holds(buffer[..], 28, opArg2)
    {
      var offset := 0;
      var netLeaderId, netCurrentTerm, netPrefixLength, netPrefixTerm, netCommitLength, netOpTerm, netOpArg1, netOpArg2;
      netLeaderId, offset := Get(buffer, offset, 0);
      netCurrentTerm, offset := Get(buffer, offset, 1);
      netPrefixLength, offset := Get(buffer, offset, 2);
      netPrefixTerm, offset := Get(buffer, offset, 3);
      netCommitLength, offset := Get(buffer, offset, 4);
      netOpTerm, offset := Get(buffer, offset, 5);
      netOpArg1, offset := Get(buffer, offset, 6);
      netOpArg2, offset := Get(buffer, offset, 7);
      Window(buffer[..], 32);
      leaderId, currentTerm, prefixLength, prefixTerm := netLeaderId, netCurrentTerm, netPrefixLength, netPrefixTerm;
      commitLength, opTerm, opArg1, opArg2 := netCommitLength, netOpTerm, netOpArg1, netOpArg2;
      LogHeld(buffer[..], Value());
    }
  }

  lemma LogHeld(b: seq<Byte>, m: LogRequest)
    requires 32 <= |b| && m == LogOf(b[..32])
    ensures AllInt32(LogFields(m))
    ensures Holds(b, 0, m.leaderId) && Holds(b, 4, m.term) && Holds(b, 8, m.prefixLength) && Holds(b, 12, m.prefixTerm)
    ensures Holds(b, 16, m.commitLength) && Holds(b, 20, m.opTerm)
    ensures Holds(b, 24, m.opCustomer) && Holds(b, 28, m.opOrder)
  {
    LogBytesRoundTrip(b[..32]);
    var fs := LogFields(m);
    AllHeld(b, fs);
    assert fs[0] == m.leaderId && fs[1] == m.term && fs[2] == m.prefixLength && fs[3] == m.prefixTerm;
    assert fs[4] == m.commitLength && fs[5] == m.opTerm && fs[6] == m.opCustomer && fs[7] == m.opOrder;
  }

  class LogResponseMessage {
    var followerId: int
    var currentTerm: int
    var ack: int
    var success: int

    constructor ()
      ensures Value() == LogResponse(-1, -1, -1, true)
    {
      followerId, currentTerm, ack, success := -1, -1, -1, -1;
    }

    function Value(): LogResponse
      reads this
    {
      LogResponse(followerId, currentTerm, ack, success != 0)
    }

    method Set(m: LogResponse)
      modifies this
      ensures Value() == m
      ensures followerId == m.followerId && currentTerm == m.term && ack == m.ack
      ensures success == if m.success then 1 else 0
      ensures success == 0 || success == 1
    {
      followerId, currentTerm, ack, success := m.followerId, m.term, m.ack, if m.success then 1 else 0;
    }

    method Marshal(buffer: array<Byte>)
      requires 16 <= buffer.Length && AllInt32(LogReplyFields(Value())) && (success == 0 || success == 1)
      modifies buffer
      ensures buffer[..16] == Pack(LogReplyFields(Value()))
      ensures Holds(buffer[..], 0, followerId) && Holds(buffer[..], 4, currentTerm)
      ensures Holds(buffer[..], 8, ack) && Holds(buffer[..], 12, success)
      ensures forall i :: 16 <= i < buffer.Length ==> buffer[i] == old(buffer[i])
    {
      ghost var fs := LogReplyFields(Value());
      var offset := Put(buffer, 0, followerId, fs, 0);
      offset := Put(buffer, offset, currentTerm, fs, 1);
      offset := Put(buffer, offset, ack, fs, 2);
      offset := Put(buffer, offset, success, fs, 3);
      AllWritten(buffer[..], fs);
      AllHeld(buffer[..], fs);
      assert fs[0] == followerId && fs[1] == currentTerm && fs[2] == ack && fs[3] == success;
    }

    method Unmarshal(buffer: array<Byte>)
      requires 16 <= buffer.Length
      modifies this
      ensures Value() == LogReplyOf(buffer[..16])
      ensures Int32(followerId) && Int32(currentTerm) && Int32(ack) && Int32(success)
      ensures Holds(buffer[..], 0, followerId) && Holds(buffer[..], 4, currentTerm)
      ensures Holds(buffer[..], 8, ack) && Holds(buffer[..], 12, success)
    {
      var offset := 0;
      var netFollowerId, netCurrentTerm, netAck, netSuccess;
      netFollowerId, offset := Get(buffer, offset, 0);
      netCurrentTerm, offset := Get(buffer, offset, 1);
      netAck, offset := Get(buffer, offset, 2);
      netSuccess, offset := Get(buffer, offset, 3);
      Window(buffer[..], 16);
      followerId, currentTerm, ack, success := netFollowerId, netCurrentTerm, netAck, netSuccess;
      ghost var fs := [followerId, currentTerm, ack, success];
      AllRead(buffer[..], fs);
      assert fs[0] == followerId && fs[1] == currentTerm && fs[2] == ack && fs[3] == success;
    }
  }
}
