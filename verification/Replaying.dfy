/** Every server's table is the replay of its committed log prefix, and no handler reads
    past the end of a log. Holds of the code as written; with the repaired truncation it
    holds as long as no truncation reaches below the commit length. */
module Replaying {
  import opened RaftTypes
  import opened Handlers
  import opened Cluster

  predicate Replays(n: NodeState) {
    n.commitLength <= |n.log| && n.record == Replay(n.log[..n.commitLength])
  }

  // ---- What a table holds ----

  /** `value` is the order of the last entry for `customer`, or -1 if there is none. */
  ghost predicate LastOrder(log: Log, customer: int, value: int) {
    || (value == -1 && forall k :: 0 <= k < |log| ==> log[k].customer != customer)
    || (exists k :: 0 <= k < |log| && log[k].customer == customer && log[k].order == value
                    && forall j :: k < j < |log| ==> log[j].customer != customer)
  }

  lemma {:induction false} ReplayLookup(log: Log, customer: int)
    ensures customer in Replay(log) <==> exists k :: 0 <= k < |log| && log[k].customer == customer
    ensures LastOrder(log, customer, if customer in Replay(log) then Replay(log)[customer] else -1)
  {
    if log != [] {
      var front, op := log[..|log| - 1], log[|log| - 1];
      assert forall k :: 0 <= k < |front| ==> front[k] == log[k];
      ReplayLookup(front, customer);
      if customer == op.customer {
        assert log[|log| - 1].customer == customer;
      } else if customer in Replay(front) {
        var k :| 0 <= k < |front| && front[k].customer == customer && front[k].order == Replay(front)[customer]
                 && forall j :: k < j < |front| ==> front[j].customer != customer;
        assert log[k].customer == customer;
      }
    }
  }

  /** A read returns the customer's last committed order, or -1. */
  lemma ReadsCommitted(n: NodeState, customer: int)
    requires Replays(n)
    ensures LastOrder(n.log[..n.commitLength], customer, GetValue(n, customer))
  {
    ReplayLookup(n.log[..n.commitLength], customer);
  }

  lemma ExecuteReplays(n: NodeState)
    requires Replays(n) && n.commitLength < |n.log|
    ensures Replays(ExecuteLog(n))
  {
    var pre := n.log[..n.commitLength + 1];
    assert pre[..|pre| - 1] == n.log[..n.commitLength];
  }

  lemma {:induction false} ExecuteToReplays(n: NodeState, k: nat)
    requires Replays(n) && k <= |n.log|
    ensures Replays(ExecuteTo(n, k)) && ExecuteTo(n, k).log == n.log
    decreases k - n.commitLength
  {
    if k > n.commitLength {
      ExecuteReplays(n);
      ExecuteToReplays(ExecuteLog(n), k);
    }
  }

  /** A truncation that keeps every committed entry. */
  predicate CutKeepsCommitted(fix: Repairs, n: NodeState, m: LogRequest) {
    fix.cutConflict && Accepts(fix, n, m) && Conflicts(n.log, m) ==> n.commitLength <= m.prefixLength
  }

  lemma TakeLogReplays(fix: Repairs, n: NodeState, m: LogRequest)
    requires Replays(n) && CutKeepsCommitted(fix, n, m) && LogInBounds(fix, n, m)
    ensures Replays(TakeLog(fix, n, m))
  {
    if Accepts(fix, n, m) {
      var n2 := MeetLeader(fix, n, m).(log := AcceptLog(fix, n.log, m));
      assert n2.log[..n.commitLength] == n.log[..n.commitLength];
      if CommitsOne(fix, n, m) { ExecuteReplays(n2); }
    }
  }

  lemma CommitReplays(fix: Repairs, n: NodeState)
    requires Replays(n)
    ensures Replays(CommitLog(fix, n)) && CommitLog(fix, n).log == n.log
  {
    ExecuteToReplays(n, CommitPoint(fix, n, |n.log|));
  }

  // ---- CommitLog ----

  function SlotsAt(ack: seq<int>, k: int): set<int> { set j | 0 <= j < |ack| && ack[j] >= k }

  /** Counting acknowledgements slot by slot counts the slots that reach `k`. */
  lemma {:induction false} CountsSlots(ack: seq<int>, k: int)
    ensures CountAck(ack, k) == |SlotsAt(ack, k)|
  {
    if ack != [] {
      var front, last := ack[..|ack| - 1], |ack| - 1;
      CountsSlots(front, k);
      assert SlotsAt(ack, k) == SlotsAt(front, k) + if ack[last] >= k then {last} else {};
    }
  }

  /** A strict majority of all servers acknowledged the first `k` entries, and with the
      repaired commit rule the last of them is of the leader's own term. */
  ghost predicate MajorityHas(fix: Repairs, n: NodeState, k: int)
    requires k <= |n.log|
  {
    && |SlotsAt(n.ack, k)| * 2 > |n.members|
    && (fix.ownTerm ==> TermAt(n.log, k - 1) == n.term)
  }

  /** CommitLog commits up to the largest point a majority has, or changes nothing if there
      is none past the commit length; the entries in between are executed once each, in
      order, whatever the acknowledgements are and with or without the repaired rule. */
  lemma CommitLogExact(fix: Repairs, n: NodeState)
    requires Replays(n)
    ensures var n' := CommitLog(fix, n);
            var k := n'.commitLength;
            && n.commitLength <= k <= |n.log|
            && n' == n.(commitLength := k, record := Replay(n.log[..k]))
            && (k > n.commitLength ==> MajorityHas(fix, n, k))
            && (forall j :: k < j <= |n.log| ==> !MajorityHas(fix, n, j))
  {
    var k := CommitPoint(fix, n, |n.log|);
    ExecuteToReplays(n, k);
    ExecuteKeeps(n, k);
    CountsSlots(n.ack, k);
    forall j | k < j <= |n.log| ensures !MajorityHas(fix, n, j) {
      CountsSlots(n.ack, j);
      assert !Acked(fix, n, j);
    }
  }

  // ---- The invariant over a cluster ----

  ghost predicate Positive(log: Log) {
    forall k :: 0 <= k < |log| ==> 1 <= log[k].term
  }

  predicate RequestInRange(m: LogRequest) {
    && 1 <= m.term && 0 <= m.prefixLength && 0 <= m.commitLength
    && (m.opTerm == -1 || 1 <= m.opTerm)
    && (m.opTerm == -1 ==> m.commitLength <= m.prefixLength)
  }

  predicate PacketOk(p: Packet) {
    match p
    case VoteCall(_, m) => 1 <= m.term
    case LogCall(_, m) => RequestInRange(m)
    case LogReply(_, m, r) => RequestInRange(m) && (r.success ==> r.ack == m.prefixLength + 1)
    case _ => true
  }

  ghost predicate SlotsOk(n: NodeState) {
    && |n.sent| == |n.ack| == |n.members| > 0
    && (forall j :: 0 <= j < |n.sent| ==> 0 <= n.sent[j] <= |n.log|)
  }

  ghost predicate ProcOk(p: Proc) {
    && Replays(p.n) && Positive(p.n.log) && 0 <= p.n.term && |p.n.members| > 0
    && (p.n.status.Leader? ==> 1 <= p.n.term && SlotsOk(p.n))
    && (p.lock.InElection() ==> 1 <= p.n.term)
    && (p.lock.AwaitVote? ==> p.lock.voteReq.term == p.n.term)
    && (p.lock.InReplication() ==> p.n.status.Leader?)
    && (p.lock.AwaitLog? ==> HasSlot(p.n, p.lock.slot) && RequestInRange(p.lock.logReq)
                             && (p.lock.logReq.opTerm != -1 ==> p.lock.logReq.prefixLength < |p.n.log|))
  }

  ghost predicate Inv(s: State) {
    && s.procs.Keys == s.ids
    && (forall i :: i in s.ids ==> ProcOk(s.procs[i]))
    && (forall p :: p in s.net ==> PacketOk(p))
  }

  /** No message ever sent can make its receiver read past the end of its log. */
  lemma DeliveryInBounds(fix: Repairs, s: State, i: int, m: LogRequest)
    requires Inv(s) && i in s.ids && LogCall(i, m) in s.net
    requires CutKeepsCommitted(fix, s.procs[i].n, m)
    ensures LogInBounds(fix, s.procs[i].n, m)
  {}

  /** A leader can build a request for every slot. */
  lemma SendingInBounds(s: State, i: int, slot: nat)
    requires Inv(s) && i in s.ids && s.procs[i].n.status.Leader? && slot < |s.procs[i].n.members|
    ensures SendInBounds(s.procs[i].n, slot)
  {}

  /** The only step that can break the replay is a truncation below the commit length. */
  predicate CutsSafely(fix: Repairs, s: State, st: Step) {
    st.DeliverLog? && st.i in s.procs ==> CutKeepsCommitted(fix, s.procs[st.i].n, st.log)
  }

  lemma ReplyReplays(fix: Repairs, p: Proc, r: LogResponse)
    requires ProcOk(p) && p.lock.AwaitLog? && PacketOk(LogReply(0, p.lock.logReq, r))
    ensures ProcOk(Replied(fix, p.n, p.lock.slot, p.lock.logReq, r))
  {
    var n, slot := p.n, p.lock.slot;
    if p.lock.logReq.opTerm != -1 && r.term == n.term && r.success {
      var n1 := n.(sent := n.sent[slot := r.ack], ack := n.ack[slot := r.ack]);
      CommitReplays(fix, n1);
      ExecuteKeeps(n1, CommitPoint(fix, n1, |n1.log|));
    }
  }

  lemma UpdateReplays(p: Proc, c: int, o: int)
    requires ProcOk(p) && p.n.status.Leader? && 0 < |p.n.ack|
    ensures ProcOk(Proc(ClientUpdate(p.n, c, o), Replicating))
  {
    assert ClientUpdate(p.n, c, o).log[..p.n.commitLength] == p.n.log[..p.n.commitLength];
  }

  /** A step keeps the invariant if the mover and its packets do. */
  lemma Frame(s: State, i: int, p: Proc, sent: set<Packet>, h: History)
    requires Inv(s) && i in s.ids && ProcOk(p)
    requires forall k :: k in sent ==> PacketOk(k)
    ensures Inv(Apply(s, i, p, sent, h))
  {}

  lemma DeliverReplays(fix: Repairs, s: State, i: int, m: LogRequest)
    requires Inv(s) && CanDeliverLog(fix, s, i, m) && CutKeepsCommitted(fix, s.procs[i].n, m)
    ensures Inv(DoDeliverLog(fix, s, i, m))
  {
    var n := s.procs[i].n;
    assert PacketOk(LogCall(i, m)) && ProcOk(s.procs[i]);
    TakeLogReplays(fix, n, m);
    Frame(s, i, Proc(TakeLog(fix, n, m), Free), {LogReply(i, m, AnswerLog(fix, n, m))}, Accepted(fix, s.hist, n, m));
  }

  lemma SendReplays(s: State, i: int, slot: nat)
    requires Inv(s) && CanSendLog(s, i, slot)
    ensures Inv(DoSendLog(s, i, slot))
  {}

  lemma ReceiveReplays(fix: Repairs, s: State, i: int, r: LogResponse)
    requires Inv(s) && CanReceiveLog(s, i, r)
    ensures Inv(DoReceiveLog(fix, s, i, r))
  {
    var p := s.procs[i];
    assert PacketOk(LogReply(p.n.members[p.lock.slot], p.lock.logReq, r)) && ProcOk(p);
    ReplyReplays(fix, p, r);
    Frame(s, i, Replied(fix, p.n, p.lock.slot, p.lock.logReq, r), {}, s.hist);
  }

  lemma VoterReplays(s: State, i: int, m: VoteRequest)
    requires Inv(s) && CanDeliverVote(s, i, m)
    ensures Inv(DoDeliverVote(s, i, m))
  {}

  lemma CandidateReplays(fix: Repairs, s: State, i: int, r: VoteResponse)
    requires Inv(s) && CanReceiveVote(s, i, r)
    ensures Inv(DoReceiveVote(fix, s, i, r))
  {}

  lemma StepKeeps(fix: Repairs, s: State, st: Step)
    requires Inv(s) && Enabled(fix, s, st) && CutsSafely(fix, s, st)
    ensures Inv(After(fix, s, st))
  {
    match st
    case Update(i, c, o) => UpdateReplays(s.procs[i], c, o);
    case DeliverLog(i, m) => DeliverReplays(fix, s, i, m);
    case SendLog(i, slot) => SendReplays(s, i, slot);
    case ReceiveLog(i, r) => ReceiveReplays(fix, s, i, r);
    case DeliverVote(i, m) => VoterReplays(s, i, m);
    case ReceiveVote(i, r) => CandidateReplays(fix, s, i, r);
    case SendVote(i, to) => SendVoteReplays(s, i, to);
    case _ => QuietReplays(fix, s, st);
  }

  lemma SendVoteReplays(s: State, i: int, to: int)
    requires Inv(s) && CanSendVote(s, i, to)
    ensures Inv(DoSendVote(s, i, to))
  {}

  /** The steps that send nothing. */
  lemma QuietReplays(fix: Repairs, s: State, st: Step)
    requires Inv(s) && Enabled(fix, s, st)
    requires st.Timeout? || st.BeginElection? || st.LoseVote? || st.EndElection? || st.BeginReplicate?
             || st.LoseLog? || st.EndReplicate?
    ensures Inv(After(fix, s, st))
  {
    var s' := After(fix, s, st);
    assert ProcOk(s.procs[st.i]);
    Frame(s, st.i, s'.procs[st.i], {}, s'.hist);
  }

  lemma InitOk(s: State)
    requires Init(s)
    ensures Inv(s)
  {}
}
