/** What each handler of a server does, as functions on the server's state.
    The class in ServerMetadata.dfy is proved against these functions and the
    cluster in Cluster.dfy takes its steps with them. */
module Handlers {
  import opened RaftTypes

  // ---- RequestVote: the candidate's side ----

  function StartElection(fix: Repairs, n: NodeState): NodeState {
    n.(votedFor := n.me, term := n.term + 1,
       votes := if fix.freshVotes then {n.me} else n.votes + {n.me})
  }

  function MakeVoteRequest(n: NodeState): VoteRequest {
    VoteRequest(n.me, n.term, |n.log|, LastTerm(n.log))
  }

  /** The literal test compares with the number of neighbours. */
  predicate WonElection(fix: Repairs, votes: nat, clusterSize: nat) {
    if fix.quorum then votes * 2 > clusterSize else votes * 2 >= clusterSize - 1
  }

  function InitLeader(n: NodeState): NodeState {
    n.(sent := seq(|n.members|, _ => |n.log|), ack := seq(|n.members|, _ => 0),
       leaderId := n.me, status := Leader)
  }

  function Demote(n: NodeState, term: int): NodeState {
    n.(term := term, status := Follower, votedFor := -1, votes := {})
  }

  function TakeVote(fix: Repairs, n: NodeState, r: VoteResponse): NodeState {
    if n.term == r.term && r.voted then
      var n1 := n.(votes := n.votes + {r.id});
      if WonElection(fix, |n1.votes|, |n.members|) then InitLeader(n1) else n1
    else if r.term > n.term then Demote(n, r.term)
    else n
  }

  /** Whether RequestVote returns right after this response. */
  predicate ElectionOver(fix: Repairs, n: NodeState, r: VoteResponse) {
    if n.term == r.term && r.voted then WonElection(fix, |n.votes + {r.id}|, |n.members|)
    else r.term > n.term
  }

  // ---- RequestVote: the voter's side ----

  predicate UpToDate(lastTerm: int, logSize: int, log: Log) {
    lastTerm > LastTerm(log) || (lastTerm == LastTerm(log) && logSize >= |log|)
  }

  function MeetCandidate(n: NodeState, m: VoteRequest): NodeState {
    if m.term > n.term
    then n.(term := m.term, status := Follower, votes := {}, votedFor := m.id)
    else n
  }

  function AnswerVote(n: NodeState, m: VoteRequest): VoteResponse {
    var n1 := MeetCandidate(n, m);
    VoteResponse(n.me, n1.term,
                 UpToDate(m.lastTerm, m.logSize, n.log) && m.term == n1.term && n1.votedFor == m.id)
  }

  /** The reply to a vote request carries the later of the two terms, which is then the voter's;
      the voter takes over a later term with its candidate, and votes for whoever it has taken
      over in that term if its own log is not better. */
  lemma VoteAnswered(n: NodeState, m: VoteRequest)
    ensures var r, n' := AnswerVote(n, m), MeetCandidate(n, m);
            && r.id == n.me && r.term == n'.term == (if m.term > n.term then m.term else n.term)
            && (if m.term > n.term
                then n' == n.(term := m.term, status := Follower, votedFor := m.id, votes := {}) else n' == n)
            && (r.voted <==>
                  && m.term >= n.term && (m.term > n.term || n.votedFor == m.id)
                  && var lastTerm := if n.log == [] then 0 else n.log[|n.log| - 1].term;
                     m.lastTerm > lastTerm || (m.lastTerm == lastTerm && m.logSize >= |n.log|))
  {}

  // ---- The log and the table ----

  function AppendLog(n: NodeState, op: MapOp): NodeState {
    n.(log := n.log + [op])
  }

  function ExecuteLog(n: NodeState): NodeState
    requires n.commitLength < |n.log|
  {
    var op := n.log[n.commitLength];
    n.(record := n.record[op.customer := op.order], commitLength := n.commitLength + 1)
  }

  function ExecuteTo(n: NodeState, k: nat): NodeState
    requires k <= n.commitLength || k <= |n.log|
    decreases k - n.commitLength
  {
    if k <= n.commitLength then n else ExecuteTo(ExecuteLog(n), k)
  }

  /** Executing moves the commit length to `k` and touches nothing but the table. */
  lemma {:induction false} ExecuteKeeps(n: NodeState, k: nat)
    requires k <= n.commitLength || k <= |n.log|
    ensures var n' := ExecuteTo(n, k);
            n' == n.(record := n'.record, commitLength := if k <= n.commitLength then n.commitLength else k)
    decreases k - n.commitLength
  {
    if k > n.commitLength { ExecuteKeeps(ExecuteLog(n), k); }
  }

  function GetValue(n: NodeState, customer: int): int {
    if customer in n.record then n.record[customer] else -1
  }

  // ---- ReplicateLog: the follower's side ----

  function MeetLeader(fix: Repairs, n: NodeState, r: LogRequest): NodeState {
    if r.term >= n.term || (n.status.Follower? && !fix.termOrder)
    then n.(term := r.term, status := Follower, leaderId := r.leaderId, votes := {}, votedFor := -1)
    else n
  }

  predicate CanLog(log: Log, r: LogRequest) {
    |log| >= r.prefixLength &&
    (r.prefixLength == 0 || TermAt(log, r.prefixLength - 1) == r.prefixTerm)
  }

  predicate Accepts(fix: Repairs, n: NodeState, r: LogRequest) {
    MeetLeader(fix, n, r).term == r.term && CanLog(n.log, r)
  }

  predicate Conflicts(log: Log, r: LogRequest) {
    r.opTerm != -1 && 0 <= r.prefixLength < |log| && log[r.prefixLength].term != r.opTerm
  }

  /** The log after the repaired truncation; the truncation as written never cuts. */
  function CutConflict(fix: Repairs, log: Log, r: LogRequest): Log {
    if fix.cutConflict && Conflicts(log, r) then log[..r.prefixLength] else log
  }

  function RequestOp(r: LogRequest): MapOp {
    MapOp(r.opTerm, r.opCustomer, r.opOrder)
  }

  /** The log an accepting follower ends with. */
  function AcceptLog(fix: Repairs, log: Log, r: LogRequest): Log {
    var cut := CutConflict(fix, log, r);
    if |cut| <= r.prefixLength && r.opTerm != -1 then cut + [RequestOp(r)] else cut
  }

  predicate CommitsOne(fix: Repairs, n: NodeState, r: LogRequest) {
    Accepts(fix, n, r) && |CutConflict(fix, n.log, r)| <= r.prefixLength
    && r.commitLength > n.commitLength
  }

  /** Whether the single entry a follower executes exists. */
  predicate LogInBounds(fix: Repairs, n: NodeState, r: LogRequest) {
    CommitsOne(fix, n, r) ==> n.commitLength < |AcceptLog(fix, n.log, r)|
  }

  function TakeLog(fix: Repairs, n: NodeState, r: LogRequest): NodeState
    requires LogInBounds(fix, n, r)
  {
    var n1 := MeetLeader(fix, n, r);
    if !Accepts(fix, n, r) then n1
    else
      var n2 := n1.(log := AcceptLog(fix, n.log, r));
      if CommitsOne(fix, n, r) then ExecuteLog(n2) else n2
  }

  function AnswerLog(fix: Repairs, n: NodeState, r: LogRequest): LogResponse {
    var term := MeetLeader(fix, n, r).term;
    if Accepts(fix, n, r) then LogResponse(n.me, term, r.prefixLength + 1, true)
    else LogResponse(n.me, term, 0, false)
  }

  /** The reply to a log request, and what the request does to the follower's log and table. */
  lemma LogAnswered(fix: Repairs, n: NodeState, m: LogRequest)
    requires LogInBounds(fix, n, m)
    ensures var r, n' := AnswerLog(fix, n, m), TakeLog(fix, n, m);
            && r.followerId == n.me && r.term == n'.term
            && n'.me == n.me && n'.members == n.members && n'.sent == n.sent && n'.ack == n.ack
            && (if m.term >= n.term || (n.status.Follower? && !fix.termOrder)
                then n'.term == m.term && n'.leaderId == m.leaderId && n'.status.Follower? && n'.votedFor == -1
                     && n'.votes == {}
                else n'.term == n.term && n'.leaderId == n.leaderId && n'.status == n.status
                     && n'.votedFor == n.votedFor && n'.votes == n.votes)
            && (r.success <==> n'.term == m.term && |n.log| >= m.prefixLength
                               && (m.prefixLength <= 0 || n.log[m.prefixLength - 1].term == m.prefixTerm)
                               && (m.prefixLength < 0 ==> m.prefixTerm == -1))
            && r.ack == (if r.success then m.prefixLength + 1 else 0)
    ensures var r, n', kept := AnswerLog(fix, n, m), TakeLog(fix, n, m), CutConflict(fix, n.log, m);
            && n'.log == (if r.success && m.opTerm != -1 && |kept| <= m.prefixLength
                          then kept + [MapOp(m.opTerm, m.opCustomer, m.opOrder)]
                          else if r.success then kept else n.log)
            && var one := r.success && |kept| <= m.prefixLength && m.commitLength > n.commitLength;
               && n'.commitLength == n.commitLength + (if one then 1 else 0)
               && (one ==> n.commitLength < |n'.log|)
               && n'.record == if one then var op := n'.log[n.commitLength]; n.record[op.customer := op.order]
                               else n.record
  {}

  // ---- ReplicateLog: the leader's side ----

  predicate HasSlot(n: NodeState, slot: nat) {
    slot < |n.members| == |n.sent| == |n.ack|
  }

  /** Whether the request for a slot can be built. */
  predicate SendInBounds(n: NodeState, slot: nat) {
    HasSlot(n, slot) && 0 <= n.sent[slot] <= |n.log|
  }

  /** The request that offers what follows the first `p` entries: one entry, or nothing. */
  function RequestAt(n: NodeState, p: int): LogRequest
    requires 0 <= p <= |n.log|
  {
    if |n.log| == p
    then LogRequest(n.me, n.term, p, PrefixTerm(n.log, p), n.commitLength, -1, -1, -1)
    else LogRequest(n.me, n.term, p, PrefixTerm(n.log, p), n.commitLength,
                    n.log[p].term, n.log[p].customer, n.log[p].order)
  }

  function MakeLogRequest(n: NodeState, slot: nat): LogRequest
    requires SendInBounds(n, slot)
  {
    RequestAt(n, n.sent[slot])
  }

  /** The number of slots that acknowledged at least `k` entries. */
  function CountAck(ack: seq<int>, k: int): nat {
    if ack == [] then 0
    else CountAck(ack[..|ack| - 1], k) + if ack[|ack| - 1] >= k then 1 else 0
  }

  predicate Acked(fix: Repairs, n: NodeState, k: int)
    requires k <= |n.log|
  {
    CountAck(n.ack, k) * 2 > |n.members| &&
    (fix.ownTerm ==> TermAt(n.log, k - 1) == n.term)
  }

  /** The commit length CommitLog reaches: the largest acknowledged `k`, or no change. */
  function CommitPoint(fix: Repairs, n: NodeState, hi: nat): (k: nat)
    requires hi <= |n.log|
    ensures k == n.commitLength || (n.commitLength < k <= hi && Acked(fix, n, k))
    ensures forall j :: k < j <= hi ==> !Acked(fix, n, j)
  {
    if hi <= n.commitLength then n.commitLength
    else if Acked(fix, n, hi) then hi
    else CommitPoint(fix, n, hi - 1)
  }

  /** Only the commit rule decides how far a leader commits. */
  lemma {:induction false} SameCommit(fix: Repairs, fix': Repairs, n: NodeState, hi: nat)
    requires hi <= |n.log| && fix'.ownTerm == fix.ownTerm
    ensures CommitPoint(fix', n, hi) == CommitPoint(fix, n, hi)
  {
    if hi > n.commitLength { SameCommit(fix, fix', n, hi - 1); }
  }

  function CommitLog(fix: Repairs, n: NodeState): NodeState {
    ExecuteTo(n, CommitPoint(fix, n, |n.log|))
  }

  /** The response to a request that carried an entry. */
  function TakeLogResponse(fix: Repairs, n: NodeState, slot: nat, r: LogResponse): NodeState
    requires HasSlot(n, slot)
  {
    if r.term == n.term && n.status.Leader? then
      if r.success then
        CommitLog(fix, n.(sent := n.sent[slot := r.ack], ack := n.ack[slot := r.ack]))
      else if n.sent[slot] > 0 then n.(sent := n.sent[slot := n.sent[slot] - 1])
      else n
    else if r.term > n.term then Demote(n, r.term)
    else n
  }

  function CleanNodeState(n: NodeState, slot: nat): NodeState
    requires HasSlot(n, slot)
  {
    n.(ack := n.ack[slot := 0], sent := n.sent[slot := 0])
  }

  /** What a receive that fails leaves in the response. */
  const NoResponse := LogResponse(-1, -1, -1, true)

  /** Whether the leader takes a response for that of a failed follower. */
  predicate NoReply(r: LogResponse) { r.followerId == -1 }

  /** The leader after the response to `m`, which for a heartbeat it looks at no further. */
  function TakeReply(fix: Repairs, n: NodeState, slot: nat, m: LogRequest, r: LogResponse): NodeState
    requires HasSlot(n, slot)
  {
    if NoReply(r) then CleanNodeState(n, slot)
    else if m.opTerm == -1 then n
    else TakeLogResponse(fix, n, slot, r)
  }

  /** LeaderMaintainLog up to the call of ReplicateLog. */
  function ClientUpdate(n: NodeState, customer: int, order: int): NodeState
    requires 0 < |n.ack|
  {
    var n1 := AppendLog(n, MapOp(n.term, customer, order));
    n1.(ack := n.ack[|n.ack| - 1 := |n1.log|])
  }
}
