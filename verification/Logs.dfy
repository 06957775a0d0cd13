/** Log matching and acknowledgements: every log, entry by entry, lies on the log of
    the leader of that entry's term, and a follower keeps what it acknowledged until a
    later leader was elected without it. */
module Logs {
  import opened RaftTypes
  import opened Handlers
  import opened Cluster
  import E = Elections

  // ---- Logs and leaders' logs ----

  /** Entry `k` of the log, with all before it, is in the log of its term's leader. */
  predicate OnLine(h: History, log: Log, k: nat)
    requires k < |log|
  {
    var t := log[k].term;
    t in h.tlog && k < |h.tlog[t]| && log[..k + 1] == h.tlog[t][..k + 1]
  }

  ghost predicate Lined(h: History, log: Log) {
    forall k :: 0 <= k < |log| ==> OnLine(h, log, k)
  }

  ghost predicate TermsUpTo(log: Log, t: int) {
    forall k :: 0 <= k < |log| ==> 1 <= log[k].term <= t
  }

  /** The log with which the leader of term `t` was elected. */
  function ElectionLog(h: History, t: int): Log {
    if t in h.lead then E.BidLog(h, h.lead[t], t) else []
  }

  ghost predicate LineOk(h: History, t: int)
    requires t in h.tlog
  {
    && t in h.lead
    && ElectionLog(h, t) <= h.tlog[t]
    && (forall k :: |ElectionLog(h, t)| <= k < |h.tlog[t]| ==> h.tlog[t][k].term == t)
    && Lined(h, h.tlog[t])
  }

  ghost predicate LinesOk(h: History) {
    && h.lead.Keys == h.tlog.Keys
    && (forall t :: t in h.tlog ==> LineOk(h, t))
  }

  ghost predicate BallotLogOk(h: History, v: int, t: int, b: Ballot) {
    Lined(h, b.log) && (b.cand == v ==> TermsUpTo(b.log, t - 1))
  }

  ghost predicate BallotLogsOk(h: History) {
    forall v, t :: Vote(v, t) in h.ballots ==> BallotLogOk(h, v, t, h.ballots[Vote(v, t)])
  }

  // ---- Acknowledgements ----

  /** `log` still holds the first `k` entries of term `t`'s leader, unless a leader
      elected after `t`, up to term `bound`, was elected without them. */
  ghost predicate Retained(h: History, log: Log, t: int, k: nat, bound: int) {
    && t in h.tlog && k <= |h.tlog[t]|
    && (h.tlog[t][..k] <= log
        || exists u :: t < u <= bound && u in h.lead && !(h.tlog[t][..k] <= ElectionLog(h, u)))
  }

  /** A server that has just voted has accepted nothing in its current term yet. */
  function Bound(n: NodeState): int {
    if n.votedFor == -1 then n.term else n.term - 1
  }

  /** An acknowledgement stands for `k` stored entries, or it is on record as hollow. */
  predicate Backed(h: History, v: int, t: int, k: int) {
    k <= Acc(h, v, t) || Hollow(v, t, k) in h.hollow
  }

  ghost predicate KeepsAcked(h: History, v: int, log: Log, below: int, bound: int) {
    forall t, k :: t < below && 0 < k <= Acc(h, v, t) ==> Retained(h, log, t, k, bound)
  }

  ghost predicate VotesKeepAcked(h: History, v: int) {
    forall t :: Vote(v, t) in h.ballots ==> KeepsAcked(h, v, h.ballots[Vote(v, t)].log, t, t - 1)
  }

  // ---- The invariant ----

  predicate LogRequestOk(h: History, m: LogRequest) {
    && m.term in h.tlog && m.term in h.lead && h.lead[m.term] == m.leaderId
    && var line := h.tlog[m.term];
       && 0 <= m.prefixLength <= |line|
       && m.prefixTerm == PrefixTerm(line, m.prefixLength)
       && (m.opTerm != -1 ==> m.prefixLength < |line| && line[m.prefixLength] == RequestOp(m))
  }

  predicate PacketOk(h: History, p: Packet) {
    match p
    case LogCall(_, m) => LogRequestOk(h, m)
    case LogReply(v, m, r) =>
      LogRequestOk(h, m) &&
      (m.opTerm != -1 && r.success ==>
         r.term == m.term && r.ack == m.prefixLength + 1 && Backed(h, v, m.term, r.ack))
    case _ => true
  }

  ghost predicate SlotsOk(h: History, n: NodeState) {
    && |n.sent| == |n.ack| == |n.members|
    && (forall j :: 0 <= j < |n.sent| ==> 0 <= n.sent[j] <= |n.log|)
    && (forall j :: 0 <= j < |n.ack| ==> n.ack[j] <= |n.log| && Backed(h, n.members[j], n.term, n.ack[j]))
  }

  ghost predicate ProcOk(h: History, p: Proc) {
    var n := p.n;
    && Lined(h, n.log) && TermsUpTo(n.log, n.term)
    && (p.lock.InElection() ==> TermsUpTo(n.log, n.term - 1))
    && (n.status.Leader? ==> n.term in h.tlog && n.log == h.tlog[n.term] && SlotsOk(h, n))
    && KeepsAcked(h, n.me, n.log, n.term + 1, Bound(n))
    && (forall t :: t > n.term ==> Acc(h, n.me, t) == 0)
    && VotesKeepAcked(h, n.me)
    && (p.lock.AwaitLog? ==> HasSlot(n, p.lock.slot) && LogRequestOk(h, p.lock.logReq) && p.lock.logReq.term == n.term)
  }

  ghost predicate ProcsOk(h: History, ids: set<int>, procs: map<int, Proc>) {
    forall i :: i in ids ==> i in procs && ProcOk(h, procs[i])
  }

  ghost predicate NetOk(h: History, net: set<Packet>) {
    forall p :: p in net ==> PacketOk(h, p)
  }

  ghost predicate Inv(s: State) {
    && E.Inv(s)
    && LinesOk(s.hist)
    && BallotLogsOk(s.hist)
    && ProcsOk(s.hist, s.ids, s.procs)
    && NetOk(s.hist, s.net)
  }

  /** The books of a cluster. */
  ghost predicate Books(s: State) {
    && E.LeadersOk(s.hist, s.ids) && E.BallotsOk(s.hist, s.ids)
    && LinesOk(s.hist) && BallotLogsOk(s.hist)
    && (forall t :: t in s.hist.lead ==> 1 <= t)
  }

  /** A server that agrees with the books; steps are proved from this. */
  ghost predicate Known(s: State, p: Proc) {
    && Books(s) && p.n.me in s.ids && Members(s.ids, p.n.me, p.n.members)
    && E.ProcOk(s.hist, p) && ProcOk(s.hist, p)
  }

  lemma Balanced(s: State)
    requires Inv(s)
    ensures Books(s)
  {
    forall t | t in s.hist.lead ensures 1 <= t { assert E.ProcOk(s.hist, s.procs[s.hist.lead[t]]); }
  }

  lemma Knows(s: State, i: int)
    requires Inv(s) && i in s.ids
    ensures Known(s, s.procs[i]) && s.procs[i].n.me == i
  {
    Balanced(s);
  }

  // ---- Growth of the history ----

  /** Leaders' logs and acknowledgements are only extended. */
  ghost predicate Extends(h: History, h': History) {
    && E.Extends(h, h')
    && (forall t :: t in h.tlog ==> t in h'.tlog && h.tlog[t] <= h'.tlog[t])
    && (forall v, t :: Acc(h, v, t) <= Acc(h', v, t))
    && h.hollow <= h'.hollow
  }

  /** After a step of server `i`, only its own log and marks are extended. */
  ghost predicate Grows(h: History, h': History, i: int) {
    && Extends(h, h') && E.Grows(h, h', i)
    && (forall t :: t in h.tlog && t in h.lead && h.lead[t] != i ==> h'.tlog[t] == h.tlog[t])
    && (forall v, t :: v != i ==> Acc(h', v, t) == Acc(h, v, t))
  }

  lemma LinedKept(h: History, h': History, log: Log)
    requires Lined(h, log) && Extends(h, h')
    ensures Lined(h', log)
  {
    forall k | 0 <= k < |log| ensures OnLine(h', log, k) {
      assert OnLine(h, log, k);
      var t := log[k].term;
      assert h.tlog[t][..k + 1] == h'.tlog[t][..k + 1];
    }
  }

  lemma ElectionLogKept(h: History, h': History, ids: set<int>, t: int)
    requires E.LeadersOk(h, ids) && Extends(h, h') && t in h.lead
    ensures t in h'.lead && ElectionLog(h', t) == ElectionLog(h, t)
  {}

  lemma RetainedKept(h: History, h': History, ids: set<int>, log: Log, t: int, k: nat, bound: int)
    requires E.LeadersOk(h, ids) && Extends(h, h')
    requires Retained(h, log, t, k, bound)
    ensures Retained(h', log, t, k, bound)
  {}

  lemma KeepsAckedKept(h: History, h': History, i: int, ids: set<int>, v: int, log: Log, below: int, bound: int)
    requires E.LeadersOk(h, ids) && Grows(h, h', i)
    requires forall t :: t < below ==> Acc(h', v, t) == Acc(h, v, t)
    requires KeepsAcked(h, v, log, below, bound)
    ensures KeepsAcked(h', v, log, below, bound)
  {
    forall t, k | t < below && 0 < k <= Acc(h', v, t) ensures Retained(h', log, t, k, bound) {
      RetainedKept(h, h', ids, log, t, k, bound);
    }
  }

  lemma VotesKept(h: History, h': History, i: int, ids: set<int>, v: int)
    requires E.LeadersOk(h, ids) && Grows(h, h', i) && VotesKeepAcked(h, v)
    requires forall t :: Vote(v, t) in h'.ballots ==> Vote(v, t) in h.ballots
    requires forall t, u :: Vote(v, u) in h.ballots && t < u ==> Acc(h', v, t) == Acc(h, v, t)
    ensures VotesKeepAcked(h', v)
  {
    forall t | Vote(v, t) in h'.ballots ensures KeepsAcked(h', v, h'.ballots[Vote(v, t)].log, t, t - 1) {
      KeepsAckedKept(h, h', i, ids, v, h.ballots[Vote(v, t)].log, t, t - 1);
    }
  }

  lemma LogRequestKept(h: History, h': History, i: int, m: LogRequest)
    requires LogRequestOk(h, m) && Grows(h, h', i)
    ensures LogRequestOk(h', m)
  {}

  lemma PacketKept(h: History, h': History, i: int, p: Packet)
    requires PacketOk(h, p) && Grows(h, h', i)
    ensures PacketOk(h', p)
  {}

  lemma ProcKept(h: History, h': History, i: int, ids: set<int>, p: Proc)
    requires E.LeadersOk(h, ids) && E.ProcOk(h, p)
    requires ProcOk(h, p) && Grows(h, h', i) && p.n.me != i
    ensures ProcOk(h', p)
  {
    LinedKept(h, h', p.n.log);
    KeepsAckedKept(h, h', i, ids, p.n.me, p.n.log, p.n.term + 1, Bound(p.n));
    VotesKept(h, h', i, ids, p.n.me);
    if p.lock.AwaitLog? { LogRequestKept(h, h', i, p.lock.logReq); }
  }

  lemma LineKept(h: History, h': History, i: int, ids: set<int>, t: int)
    requires E.LeadersOk(h, ids) && Grows(h, h', i)
    requires t in h.tlog && LineOk(h, t) && h'.tlog[t] == h.tlog[t]
    ensures LineOk(h', t)
  {
    ElectionLogKept(h, h', ids, t);
    LinedKept(h, h', h.tlog[t]);
  }

  lemma BallotLogsKept(h: History, h': History, i: int)
    requires BallotLogsOk(h) && Grows(h, h', i)
    requires forall t :: Vote(i, t) in h'.ballots && Vote(i, t) !in h.ballots ==>
               BallotLogOk(h', i, t, h'.ballots[Vote(i, t)])
    ensures BallotLogsOk(h')
  {
    forall v, t | Vote(v, t) in h'.ballots ensures BallotLogOk(h', v, t, h'.ballots[Vote(v, t)]) {
      if Vote(v, t) in h.ballots {
        assert BallotLogOk(h, v, t, h.ballots[Vote(v, t)]);
        LinedKept(h, h', h.ballots[Vote(v, t)].log);
      }
    }
  }

  lemma FrameProcs(s: State, i: int, p: Proc, h: History)
    requires E.Shape(s) && E.LeadersOk(s.hist, s.ids) && E.ProcsOk(s.hist, s.ids, s.procs)
             && ProcsOk(s.hist, s.ids, s.procs)
    requires Grows(s.hist, h, i) && ProcOk(h, p)
    ensures ProcsOk(h, s.ids, s.procs[i := p])
  {
    forall j | j in s.ids && j != i ensures ProcOk(h, s.procs[j]) { ProcKept(s.hist, h, i, s.ids, s.procs[j]); }
  }

  lemma FramePackets(h: History, h': History, i: int, net: set<Packet>, sent: set<Packet>)
    requires NetOk(h, net) && Grows(h, h', i) && forall k :: k in sent ==> PacketOk(h', k)
    ensures NetOk(h', net + sent)
  {
    forall k | k in net ensures PacketOk(h', k) { PacketKept(h, h', i, k); }
  }

  /** A step keeps the invariant if the mover, its packets and the history do. */
  lemma Frame(s: State, i: int, p: Proc, sent: set<Packet>, h: History)
    requires Inv(s) && i in s.ids && Grows(s.hist, h, i)
    requires E.Inv(Apply(s, i, p, sent, h))
    requires LinesOk(h) && BallotLogsOk(h) && ProcOk(h, p)
    requires forall k :: k in sent ==> PacketOk(h, k)
    ensures Inv(Apply(s, i, p, sent, h))
  {
    FrameProcs(s, i, p, h);
    FramePackets(s.hist, h, i, s.net, sent);
  }

  // ---- Log matching ----

  lemma LogMatching(h: History, a: Log, b: Log, k: nat)
    requires Lined(h, a) && Lined(h, b) && k < |a| && k < |b| && a[k].term == b[k].term
    ensures a[..k + 1] == b[..k + 1]
  {
    assert OnLine(h, a, k) && OnLine(h, b, k);
  }

  /** A log that can take the request agrees with the leader up to the prefix. */
  lemma PrefixMatches(h: History, log: Log, m: LogRequest)
    requires LinesOk(h) && Lined(h, log) && LogRequestOk(h, m) && CanLog(log, m)
    ensures log[..m.prefixLength] == h.tlog[m.term][..m.prefixLength]
  {
    if m.prefixLength > 0 { LogMatching(h, log, h.tlog[m.term], m.prefixLength - 1); }
  }

  /** An accepting follower holds the leader's log up to the new entry, unless it kept a
      conflicting one. Its log is unchanged, or it is exactly that prefix. */
  lemma AcceptedPrefix(fix: Repairs, h: History, log: Log, m: LogRequest)
    requires m.opTerm != -1
    requires LinesOk(h) && Lined(h, log) && LogRequestOk(h, m) && CanLog(log, m)
    ensures var log', line := AcceptLog(fix, log, m), h.tlog[m.term];
            && line[..m.prefixLength] <= log'
            && (Stored(fix, log, m) ==> line[..m.prefixLength + 1] <= log')
            && (log' == log || log' == line[..m.prefixLength + 1])
  {
    var p, line := m.prefixLength, h.tlog[m.term];
    PrefixMatches(h, log, m);
    assert line[..p + 1] == line[..p] + [line[p]];
    if |log| > p && !Conflicts(log, m) { LogMatching(h, log, line, p); }
  }

  lemma PrefixLined(h: History, log: Log, k: nat)
    requires Lined(h, log) && k <= |log|
    ensures Lined(h, log[..k])
  {
    forall j | 0 <= j < k ensures OnLine(h, log[..k], j) {
      assert OnLine(h, log, j);
      assert log[..k][..j + 1] == log[..j + 1];
    }
  }

  /** Cutting a conflict drops acknowledged entries only if the new leader was elected
      without them. */
  lemma AcceptRetains(fix: Repairs, h: History, log: Log, m: LogRequest, t: int, k: nat, bound: int)
    requires LinesOk(h) && Lined(h, log) && LogRequestOk(h, m) && CanLog(log, m)
    requires t <= m.term && bound <= m.term && 0 < k
    requires Retained(h, log, t, k, bound)
    ensures Retained(h, AcceptLog(fix, log, m), t, k, m.term)
  {}

  // ---- The steps ----

  lemma CastGrows(h: History, v: int, t: int, c: int, log: Log)
    ensures Grows(h, Cast(h, v, t, c, log), v)
  {}

  lemma SameHistory(h: History, i: int)
    ensures Grows(h, h, i)
  {}

  lemma KeepsAckedLater(h: History, v: int, log: Log, below: int, bound: int, below': int, bound': int)
    requires KeepsAcked(h, v, log, below, bound) && bound <= bound'
    requires below <= below' ==> forall t :: below <= t < below' ==> Acc(h, v, t) == 0
    ensures KeepsAcked(h, v, log, below', bound')
  {
    forall t, k | t < below' && 0 < k <= Acc(h, v, t) ensures Retained(h, log, t, k, bound') {
      assert Retained(h, log, t, k, bound);
    }
  }

  /** A server that casts a vote in term `t` records a log that keeps what it acknowledged. */
  lemma CastRetains(h: History, v: int, t: int, c: int, ids: set<int>, n: NodeState)
    requires E.LeadersOk(h, ids) && VotesKeepAcked(h, v)
    requires KeepsAcked(h, v, n.log, t, t - 1)
    requires Grows(h, Cast(h, v, t, c, n.log), v)
    ensures VotesKeepAcked(Cast(h, v, t, c, n.log), v)
  {
    var h' := Cast(h, v, t, c, n.log);
    forall u | Vote(v, u) in h'.ballots ensures KeepsAcked(h', v, h'.ballots[Vote(v, u)].log, u, u - 1) {
      if Vote(v, u) in h.ballots {
        KeepsAckedKept(h, h', v, ids, v, h.ballots[Vote(v, u)].log, u, u - 1);
      } else {
        KeepsAckedKept(h, h', v, ids, v, n.log, t, t - 1);
      }
    }
  }

  /** The mover's side of a step that leaves its log alone. */
  lemma CastProc(h: History, h': History, ids: set<int>, p: Proc, p': Proc)
    requires E.LeadersOk(h, ids) && Grows(h, h', p.n.me) && ProcOk(h, p)
    requires p'.n.me == p.n.me && p'.n.log == p.n.log && p.n.term <= p'.n.term
    requires forall t :: Acc(h', p.n.me, t) == Acc(h, p.n.me, t)
    requires Bound(p.n) <= Bound(p'.n)
    requires VotesKeepAcked(h', p.n.me)
    requires p'.n.status.Leader? ==> p'.n == p.n && h'.tlog == h.tlog
    requires !p'.lock.AwaitLog?
    requires p'.lock.InElection() ==> p.lock.InElection() || p.n.term < p'.n.term
    ensures ProcOk(h', p')
  {
    LinedKept(h, h', p.n.log);
    KeepsAckedLater(h, p.n.me, p.n.log, p.n.term + 1, Bound(p.n), p'.n.term + 1, Bound(p'.n));
    KeepsAckedKept(h, h', p.n.me, ids, p.n.me, p.n.log, p'.n.term + 1, Bound(p'.n));
  }

  lemma BeginElectionKeeps(fix: Repairs, s: State, i: int)
    requires E.Sound(fix) && Inv(s) && CanBeginElection(s, i) && E.Inv(DoBeginElection(fix, s, i))
    ensures Inv(DoBeginElection(fix, s, i))
  {
    var n := s.procs[i].n;
    var n' := StartElection(fix, n);
    var h := Cast(s.hist, i, n'.term, i, n'.log);
    Knows(s, i);
    BidderProc(s, s.procs[i], Proc(n', Electing), h);
    CastFrame(s, i, Proc(n', Electing), {}, h);
  }

  lemma BidderProc(s: State, p: Proc, p': Proc, h: History)
    requires Known(s, p)
    requires p'.n == p.n.(term := p.n.term + 1, votedFor := p.n.me, votes := p'.n.votes)
    requires p'.lock.Electing? && !p.n.status.Leader?
    requires h == Cast(s.hist, p.n.me, p'.n.term, p.n.me, p.n.log)
    ensures Grows(s.hist, h, p.n.me) && ProcOk(h, p')
    ensures forall t :: Vote(p.n.me, t) in h.ballots && Vote(p.n.me, t) !in s.hist.ballots ==>
              BallotLogOk(h, p.n.me, t, h.ballots[Vote(p.n.me, t)])
  {
    var i := p.n.me;
    CastGrows(s.hist, i, p'.n.term, i, p.n.log);
    KeepsAckedLater(s.hist, i, p.n.log, p.n.term + 1, Bound(p.n), p'.n.term, p'.n.term - 1);
    CastRetains(s.hist, i, p'.n.term, i, s.ids, p'.n);
    CastProc(s.hist, h, s.ids, p, p');
  }

  /** Voting and electing extend no leader's log. */
  lemma CastFrame(s: State, i: int, p: Proc, sent: set<Packet>, h: History)
    requires Inv(s) && i in s.ids && Grows(s.hist, h, i)
    requires h.lead == s.hist.lead && h.tlog == s.hist.tlog
    requires E.Inv(Apply(s, i, p, sent, h)) && ProcOk(h, p)
    requires forall t :: Vote(i, t) in h.ballots && Vote(i, t) !in s.hist.ballots ==>
               BallotLogOk(h, i, t, h.ballots[Vote(i, t)])
    requires forall k :: k in sent ==> PacketOk(h, k)
    ensures Inv(Apply(s, i, p, sent, h))
  {
    forall t | t in h.tlog ensures LineOk(h, t) { LineKept(s.hist, h, i, s.ids, t); }
    BallotLogsKept(s.hist, h, i);
    Frame(s, i, p, sent, h);
  }

  /** The voter's side of a vote request. */
  lemma VoterProc(s: State, p: Proc, m: VoteRequest, h: History)
    requires Known(s, p) && p.lock.Free?
    requires E.VoteRequestOk(s.hist, m) && h == Voted(s.hist, p.n, m) && m.id != -1 && 1 <= m.term
    ensures Grows(s.hist, h, p.n.me) && ProcOk(h, Proc(MeetCandidate(p.n, m), Free))
    ensures forall t :: Vote(p.n.me, t) in h.ballots && Vote(p.n.me, t) !in s.hist.ballots ==>
              BallotLogOk(h, p.n.me, t, h.ballots[Vote(p.n.me, t)])
  {
    var i := p.n.me;
    CastGrows(s.hist, i, m.term, m.id, p.n.log);
    if h != s.hist {
      KeepsAckedLater(s.hist, i, p.n.log, p.n.term + 1, Bound(p.n), m.term, m.term - 1);
      CastRetains(s.hist, i, m.term, m.id, s.ids, p.n);
      LinedKept(s.hist, h, p.n.log);
    }
    CastProc(s.hist, h, s.ids, p, Proc(MeetCandidate(p.n, m), Free));
  }

  /** A vote request on its way is a real candidate's. */
  lemma Candidate(s: State, i: int, m: VoteRequest)
    requires Inv(s) && VoteCall(i, m) in s.net
    ensures E.VoteRequestOk(s.hist, m) && m.id != -1 && 1 <= m.term
  {
    assert E.PacketOk(s.hist, VoteCall(i, m));
    assert m.id in s.ids && E.ProcOk(s.hist, s.procs[m.id]);
  }

  lemma DeliverVoteKeeps(s: State, i: int, m: VoteRequest)
    requires Inv(s) && CanDeliverVote(s, i, m) && E.Inv(DoDeliverVote(s, i, m))
    ensures Inv(DoDeliverVote(s, i, m))
  {
    var n := s.procs[i].n;
    Knows(s, i);
    Candidate(s, i, m);
    VoterProc(s, s.procs[i], m, Voted(s.hist, n, m));
    CastFrame(s, i, Proc(MeetCandidate(n, m), Free), {VoteReply(i, m, AnswerVote(n, m))}, Voted(s.hist, n, m));
  }

  /** Winning starts the term's line with the log the votes were given to. */
  lemma CrownKeeps(s: State, p: Proc)
    requires Books(s) && p.n.me in s.ids && p.n.term !in s.hist.lead
    requires Lined(s.hist, p.n.log) && TermsUpTo(p.n.log, p.n.term - 1)
    requires E.BidLog(s.hist, p.n.me, p.n.term) == p.n.log
    ensures var h := Crown(s.hist, p.n);
            Grows(s.hist, h, p.n.me) && LinesOk(h) && BallotLogsOk(h)
  {
    var h := Crown(s.hist, p.n);
    assert Grows(s.hist, h, p.n.me);
    LinedKept(s.hist, h, p.n.log);
    forall t | t in h.tlog ensures LineOk(h, t) {
      if t != p.n.term { LineKept(s.hist, h, p.n.me, s.ids, t); }
    }
    BallotLogsKept(s.hist, h, p.n.me);
  }

  /** A candidate that wins. */
  lemma WinnerProc(s: State, p: Proc, p': Proc)
    requires Known(s, p) && p.lock.InElection()
    requires p.n.term !in s.hist.lead
    requires p' == Proc(InitLeader(p.n.(votes := p'.n.votes)), Free)
    ensures var h := Crown(s.hist, p'.n);
            Grows(s.hist, h, p.n.me) && LinesOk(h) && BallotLogsOk(h) && ProcOk(h, p')
  {
    var i, h := p.n.me, Crown(s.hist, p'.n);
    CrownKeeps(s, p');
    VotesKept(s.hist, h, i, s.ids, i);
    LinedKept(s.hist, h, p.n.log);
    KeepsAckedKept(s.hist, h, i, s.ids, i, p.n.log, p.n.term + 1, Bound(p.n));
  }

  lemma ReceiveVoteKeeps(fix: Repairs, s: State, i: int, r: VoteResponse)
    requires E.Sound(fix) && Inv(s) && CanReceiveVote(s, i, r) && E.Inv(DoReceiveVote(fix, s, i, r))
    ensures Inv(DoReceiveVote(fix, s, i, r))
  {
    var p, p' := s.procs[i], Polled(fix, s.procs[i].n, r);
    if p'.n.status.Leader? {
      E.Wins(fix, s, i, r);
      Knows(s, i);
      WinnerProc(s, p, p');
      Frame(s, i, p', {}, Crown(s.hist, p'.n));
    } else {
      Knows(s, i);
      LoserProc(fix, s, p, r);
      CastFrame(s, i, p', {}, s.hist);
    }
  }

  /** A candidate that goes on asking, or finds a higher term. */
  lemma LoserProc(fix: Repairs, s: State, p: Proc, r: VoteResponse)
    requires Known(s, p) && p.lock.InElection()
    requires !TakeVote(fix, p.n, r).status.Leader?
    ensures ProcOk(s.hist, Polled(fix, p.n, r))
  {
    CastProc(s.hist, s.hist, s.ids, p, Polled(fix, p.n, r));
  }

  /** A step that changes neither logs, terms nor history. */
  lemma Quiet(s: State, i: int, p: Proc, sent: set<Packet>)
    requires Inv(s) && i in s.ids && E.Inv(Apply(s, i, p, sent, s.hist))
    requires var n := s.procs[i].n;
             p.n.me == n.me && p.n.log == n.log && p.n.term == n.term && p.n.votedFor == n.votedFor
    requires p.n.status.Leader? ==> s.procs[i].n.status.Leader? && SlotsOk(s.hist, p.n)
    requires p.lock.InElection() ==> s.procs[i].lock.InElection()
    requires p.lock.AwaitLog? ==>
               && HasSlot(p.n, p.lock.slot) && LogRequestOk(s.hist, p.lock.logReq)
               && p.lock.logReq.term == p.n.term
    requires forall k :: k in sent ==> PacketOk(s.hist, k)
    ensures Inv(Apply(s, i, p, sent, s.hist))
  {
    QuietProc(s.hist, s.procs[i], p);
    Frame(s, i, p, sent, s.hist);
  }

  lemma QuietProc(h: History, p: Proc, p': Proc)
    requires ProcOk(h, p) && p'.n.me == p.n.me && p'.n.log == p.n.log && p'.n.term == p.n.term
             && p'.n.votedFor == p.n.votedFor
    requires p'.n.status.Leader? ==> p.n.status.Leader? && SlotsOk(h, p'.n)
    requires p'.lock.InElection() ==> p.lock.InElection()
    requires p'.lock.AwaitLog? ==>
               && HasSlot(p'.n, p'.lock.slot) && LogRequestOk(h, p'.lock.logReq)
               && p'.lock.logReq.term == p'.n.term
    ensures ProcOk(h, p')
  {
    assert Bound(p'.n) == Bound(p.n);
  }

  lemma UpdateKeeps(s: State, i: int, c: int, o: int)
    requires Inv(s) && CanUpdate(s, i) && E.Inv(DoUpdate(s, i, c, o))
    ensures Inv(DoUpdate(s, i, c, o))
  {
    var n := s.procs[i].n;
    var op := MapOp(n.term, c, o);
    var h := Extend(s.hist, n, op);
    Knows(s, i);
    UpdateLine(s, s.procs[i], op, h);
    UpdaterProc(s, s.procs[i], c, o, h);
    Frame(s, i, Proc(ClientUpdate(n, c, o), Replicating), {}, h);
  }

  /** A client update extends the leader's own line by one entry of its own term. */
  lemma UpdateLine(s: State, p: Proc, op: MapOp, h: History)
    requires Known(s, p) && p.n.status.Leader? && op.term == p.n.term && h == Extend(s.hist, p.n, op)
    ensures Grows(s.hist, h, p.n.me) && LinesOk(h) && BallotLogsOk(h) && Lined(h, p.n.log + [op])
  {
    var n := p.n;
    ExtendGrows(s, p, op);
    LongerLined(s, n, op, h);
    forall t | t in h.tlog ensures LineOk(h, t) {
      ElectionLogKept(s.hist, h, s.ids, t);
      if t != n.term { LineKept(s.hist, h, n.me, s.ids, t); } else { assert LineOk(s.hist, t); }
    }
    BallotLogsKept(s.hist, h, n.me);
  }

  lemma LongerLined(s: State, n: NodeState, op: MapOp, h: History)
    requires Lined(s.hist, n.log) && op.term == n.term && h == Extend(s.hist, n, op) && Extends(s.hist, h)
    ensures Lined(h, n.log + [op])
  {
    LinedKept(s.hist, h, n.log);
    var log' := n.log + [op];
    forall k | 0 <= k < |log'| ensures OnLine(h, log', k) {
      if k < |n.log| {
        assert OnLine(h, n.log, k);
        assert log'[..k + 1] == n.log[..k + 1];
      }
    }
  }

  lemma ExtendGrows(s: State, p: Proc, op: MapOp)
    requires Known(s, p) && p.n.status.Leader?
    ensures Grows(s.hist, Extend(s.hist, p.n, op), p.n.me)
    ensures Acc(Extend(s.hist, p.n, op), p.n.me, p.n.term) == |p.n.log| + 1
    ensures forall t :: t != p.n.term ==> Acc(Extend(s.hist, p.n, op), p.n.me, t) == Acc(s.hist, p.n.me, t)
  {
    AckedInLine(s, p);
  }

  /** What a server acknowledged in its current term lies on that term's line. */
  lemma AckedInLine(s: State, p: Proc)
    requires Known(s, p) && p.n.status.Leader?
    ensures Acc(s.hist, p.n.me, p.n.term) <= |p.n.log|
  {
    var k := Acc(s.hist, p.n.me, p.n.term);
    if k > 0 { assert Retained(s.hist, p.n.log, p.n.term, k, Bound(p.n)); }
  }

  lemma UpdaterProc(s: State, p: Proc, c: int, o: int, h: History)
    requires Known(s, p) && p.n.status.Leader? && 0 < |p.n.ack|
    requires h == Extend(s.hist, p.n, MapOp(p.n.term, c, o))
    requires Grows(s.hist, h, p.n.me) && Lined(h, p.n.log + [MapOp(p.n.term, c, o)])
    ensures ProcOk(h, Proc(ClientUpdate(p.n, c, o), Replicating))
  {
    var n, i := p.n, p.n.me;
    ExtendGrows(s, p, MapOp(n.term, c, o));
    VotesKept(s.hist, h, i, s.ids, i);
    UpdaterKeeps(s, p, MapOp(n.term, c, o), h);
    UpdaterSlots(s.hist, h, n, c, o);
    UpdatedProc(s.hist, h, p, c, o);
  }

  lemma UpdatedProc(h: History, h': History, p: Proc, c: int, o: int)
    requires ProcOk(h, p) && p.n.status.Leader? && 0 < |p.n.ack| && h' == Extend(h, p.n, MapOp(p.n.term, c, o))
    requires var log' := p.n.log + [MapOp(p.n.term, c, o)];
             Lined(h', log') && KeepsAcked(h', p.n.me, log', p.n.term + 1, Bound(p.n))
    requires VotesKeepAcked(h', p.n.me) && SlotsOk(h', ClientUpdate(p.n, c, o)) && 1 <= p.n.term
    requires forall t :: t != p.n.term ==> Acc(h', p.n.me, t) == Acc(h, p.n.me, t)
    ensures ProcOk(h', Proc(ClientUpdate(p.n, c, o), Replicating))
  {}

  lemma UpdaterSlots(h: History, h': History, n: NodeState, c: int, o: int)
    requires SlotsOk(h, n) && Grows(h, h', n.me) && 0 < |n.ack|
    requires n.members[|n.members| - 1] == n.me && Acc(h', n.me, n.term) == |n.log| + 1
    ensures SlotsOk(h', ClientUpdate(n, c, o))
  {}

  lemma UpdaterKeeps(s: State, p: Proc, op: MapOp, h: History)
    requires Known(s, p) && p.n.status.Leader?
    requires h == Extend(s.hist, p.n, op) && Grows(s.hist, h, p.n.me) && Acc(h, p.n.me, p.n.term) == |p.n.log| + 1
    ensures KeepsAcked(h, p.n.me, p.n.log + [op], p.n.term + 1, Bound(p.n))
  {
    var n := p.n;
    var log' := n.log + [op];
    forall t, k | t < n.term + 1 && 0 < k <= Acc(h, n.me, t) ensures Retained(h, log', t, k, Bound(n)) {
      if t != n.term {
        assert Retained(s.hist, n.log, t, k, Bound(n));
        assert Retained(s.hist, log', t, k, Bound(n));
        RetainedKept(s.hist, h, s.ids, log', t, k, Bound(n));
      }
    }
  }

  /** Hanging up on earlier exchanges keeps the invariant. */
  lemma Dials(s: State, to: int, call: Packet)
    requires Inv(s)
    ensures Inv(Dial(s, to, call))
  {}

  lemma SendLogKeeps(s: State, i: int, slot: nat)
    requires Inv(s) && CanSendLog(s, i, slot) && E.Inv(DoSendLog(s, i, slot))
    ensures Inv(DoSendLog(s, i, slot))
  {
    var p, to := s.procs[i], s.procs[i].n.members[slot];
    var m := MakeLogRequest(p.n, slot);
    Dials(s, to, LogCall(to, m));
    Knows(s, i);
    SenderOk(s, p, slot);
    Quiet(Dial(s, to, LogCall(to, m)), i, Proc(p.n, AwaitLog(slot, m)), {LogCall(to, m)});
  }

  lemma SenderOk(s: State, p: Proc, slot: nat)
    requires Known(s, p) && p.lock.Replicating? && SendInBounds(p.n, slot)
    ensures LogRequestOk(s.hist, MakeLogRequest(p.n, slot)) && p.n.status.Leader? && SlotsOk(s.hist, p.n)
  {}

  lemma {:induction false} AcksKept(fix: Repairs, n: NodeState, slot: nat, r: LogResponse)
    requires HasSlot(n, slot)
    ensures var n' := TakeLogResponse(fix, n, slot, r);
            if r.term == n.term && n.status.Leader? && r.success
            then n'.sent == n.sent[slot := r.ack] && n'.ack == n.ack[slot := r.ack]
            else n'.ack == n.ack
                 && (n'.sent == n.sent || (n.sent[slot] > 0 && n'.sent == n.sent[slot := n.sent[slot] - 1]))
  {
    if r.term == n.term && n.status.Leader? && r.success {
      var n1 := n.(sent := n.sent[slot := r.ack], ack := n.ack[slot := r.ack]);
      ExecuteKeeps(n1, CommitPoint(fix, n1, |n1.log|));
    }
  }

  /** The leader's side of a reply. */
  lemma ReplyProc(fix: Repairs, s: State, p: Proc, r: LogResponse)
    requires Known(s, p)
    requires p.lock.AwaitLog? && HasSlot(p.n, p.lock.slot)
    requires PacketOk(s.hist, LogReply(p.n.members[p.lock.slot], p.lock.logReq, r))
    ensures var p' := Replied(fix, p.n, p.lock.slot, p.lock.logReq, r);
            && p'.n.me == p.n.me && p'.n.log == p.n.log
            && (p'.lock.Free? ==> p'.n == Demote(p.n, r.term) && r.term > p.n.term)
            && (!p'.lock.Free? ==> p'.lock.Replicating? && p'.n.status == p.n.status && SlotsOk(s.hist, p'.n)
                                   && p'.n.term == p.n.term && p'.n.votedFor == p.n.votedFor)
  {
    E.ResponseFrame(fix, p.n, p.lock.slot, r);
    AcksKept(fix, p.n, p.lock.slot, r);
  }

  lemma ReceiveLogKeeps(fix: Repairs, s: State, i: int, r: LogResponse)
    requires Inv(s) && CanReceiveLog(s, i, r) && E.Inv(DoReceiveLog(fix, s, i, r))
    ensures Inv(DoReceiveLog(fix, s, i, r))
  {
    var p := s.procs[i];
    var p' := Replied(fix, p.n, p.lock.slot, p.lock.logReq, r);
    assert PacketOk(s.hist, LogReply(p.n.members[p.lock.slot], p.lock.logReq, r));
    Knows(s, i);
    ReplyProc(fix, s, p, r);
    if p'.lock.Free? {
      CastProc(s.hist, s.hist, s.ids, p, p');
      CastFrame(s, i, p', {}, s.hist);
    } else {
      Quiet(s, i, p', {});
    }
  }

  lemma DeliverLogKeeps(fix: Repairs, s: State, i: int, m: LogRequest)
    requires E.Sound(fix) && Inv(s) && CanDeliverLog(fix, s, i, m) && E.Inv(DoDeliverLog(fix, s, i, m))
    ensures Inv(DoDeliverLog(fix, s, i, m))
  {
    var n := s.procs[i].n;
    assert PacketOk(s.hist, LogCall(i, m));
    Knows(s, i);
    FollowerProc(fix, s, s.procs[i], Proc(TakeLog(fix, n, m), Free), m);
    var reply := LogReply(i, m, AnswerLog(fix, n, m));
    AcceptedFrame(s, i, Proc(TakeLog(fix, n, m), Free), reply, Accepted(fix, s.hist, n, m));
  }

  lemma AcceptedFrame(s: State, i: int, p: Proc, reply: Packet, h: History)
    requires Inv(s) && i in s.ids && Grows(s.hist, h, i)
    requires h.ballots == s.hist.ballots && h.lead == s.hist.lead && h.tlog == s.hist.tlog
    requires E.Inv(Apply(s, i, p, {reply}, h)) && ProcOk(h, p) && PacketOk(h, reply)
    ensures Inv(Apply(s, i, p, {reply}, h))
  {
    CastFrame(s, i, p, {reply}, h);
  }

  /** The follower's side of a log request. */
  lemma FollowerProc(fix: Repairs, s: State, p: Proc, p': Proc, m: LogRequest)
    requires E.Sound(fix) && Known(s, p) && p.lock.Free?
    requires LogRequestOk(s.hist, m) && LogInBounds(fix, p.n, m)
    requires p' == Proc(TakeLog(fix, p.n, m), Free)
    ensures var h := Accepted(fix, s.hist, p.n, m);
            && Grows(s.hist, h, p.n.me) && ProcOk(h, p')
            && h.ballots == s.hist.ballots && h.lead == s.hist.lead && h.tlog == s.hist.tlog
            && PacketOk(h, LogReply(p.n.me, m, AnswerLog(fix, p.n, m)))
  {
    MarkGrows(fix, s.hist, p.n, m);
    if Accepts(fix, p.n, m) {
      AcceptorProc(fix, s, p, p', m);
      AcceptorReply(fix, s.hist, p.n, m);
    } else {
      CastProc(s.hist, s.hist, s.ids, p, p');
    }
  }

  lemma AcceptorReply(fix: Repairs, h: History, n: NodeState, m: LogRequest)
    requires LogRequestOk(h, m) && Accepts(fix, n, m)
    ensures var h' := Accepted(fix, h, n, m); PacketOk(h', LogReply(n.me, m, AnswerLog(fix, n, m)))
  {}

  lemma AcceptorProc(fix: Repairs, s: State, p: Proc, p': Proc, m: LogRequest)
    requires Known(s, p)
    requires LogRequestOk(s.hist, m) && Accepts(fix, p.n, m) && p'.lock.Free?
    requires p'.n.me == p.n.me && p'.n.term == m.term && p'.n.votedFor == -1 && p'.n.status.Follower?
    requires p'.n.log == AcceptLog(fix, p.n.log, m) && p.n.term <= m.term
    ensures var h := Accepted(fix, s.hist, p.n, m);
            Grows(s.hist, h, p.n.me) && ProcOk(h, p')
  {
    var i, h := p.n.me, Accepted(fix, s.hist, p.n, m);
    AcceptGrows(fix, s, p, m);
    AcceptorLog(fix, s, p.n.log, m);
    LinedKept(s.hist, h, p'.n.log);
    VotesKept(s.hist, h, i, s.ids, i);
    AcceptorKeeps(fix, s, p, p'.n.log, m, h);
  }

  /** Accepting an entry only raises the acceptor's own mark in the request's term. */
  lemma AcceptGrows(fix: Repairs, s: State, p: Proc, m: LogRequest)
    requires Known(s, p) && p.n.term <= m.term && LogRequestOk(s.hist, m)
    ensures var n, h := p.n, Accepted(fix, s.hist, p.n, m);
            && Grows(s.hist, h, n.me) && h.ballots == s.hist.ballots && h.lead == s.hist.lead && h.tlog == s.hist.tlog
            && (forall t :: t != m.term ==> Acc(h, n.me, t) == Acc(s.hist, n.me, t))
            && (forall t :: t > m.term ==> Acc(h, n.me, t) == 0)
            && MarkedUpTo(fix, s.hist, h, n, m)
            && (forall t, u :: Vote(n.me, u) in h.ballots && t < u ==> Acc(h, n.me, t) == Acc(s.hist, n.me, t))
  {
    MarkGrows(fix, s.hist, p.n, m);
  }

  lemma MarkGrows(fix: Repairs, h: History, n: NodeState, m: LogRequest)
    ensures var h' := Accepted(fix, h, n, m);
            && h'.ballots == h.ballots && h'.lead == h.lead && h'.tlog == h.tlog && Grows(h, h', n.me)
            && (forall t :: t != m.term ==> Acc(h', n.me, t) == Acc(h, n.me, t))
            && MarkedUpTo(fix, h, h', n, m)
  {
    var h' := Accepted(fix, h, n, m);
    if h' != h {
      var k := if Stored(fix, n.log, m) then m.prefixLength + 1 else m.prefixLength;
      var h1 := h.(hollow := h'.hollow);
      assert h' == Note(h1, n.me, m.term, k);
      NoteGrows(h, h1, n.me, m.term, k);
    }
  }

  lemma NoteGrows(h: History, h1: History, v: int, t: int, k: nat)
    requires h1 == h.(hollow := h1.hollow) && h.hollow <= h1.hollow
    ensures var h' := Note(h1, v, t, k);
            && h' == h1.(acc := h'.acc) && Grows(h, h', v)
            && (forall u :: u != t ==> Acc(h', v, u) == Acc(h, v, u))
            && (Acc(h', v, t) == Acc(h, v, t) || Acc(h', v, t) == k)
  {}

  /** The acceptor's mark is where it was, or no higher than what it stores. */
  predicate MarkedUpTo(fix: Repairs, h: History, h': History, n: NodeState, m: LogRequest) {
    || Acc(h', n.me, m.term) == Acc(h, n.me, m.term)
    || (m.opTerm != -1 && Acc(h', n.me, m.term) <= m.prefixLength + if Stored(fix, n.log, m) then 1 else 0)
  }

  lemma AcceptorKeeps(fix: Repairs, s: State, p: Proc, log': Log, m: LogRequest, h: History)
    requires Known(s, p)
    requires LogRequestOk(s.hist, m) && CanLog(p.n.log, m) && p.n.term <= m.term && Bound(p.n) <= m.term
    requires log' == AcceptLog(fix, p.n.log, m)
    requires Grows(s.hist, h, p.n.me) && h.tlog == s.hist.tlog
    requires forall t :: t != m.term ==> Acc(h, p.n.me, t) == Acc(s.hist, p.n.me, t)
    requires MarkedUpTo(fix, s.hist, h, p.n, m)
    ensures KeepsAcked(h, p.n.me, log', m.term + 1, m.term)
  {
    var n := p.n;
    forall t, k | t < m.term + 1 && 0 < k <= Acc(h, n.me, t) ensures Retained(h, log', t, k, m.term) {
      if k <= Acc(s.hist, n.me, t) {
        AckedKnown(s, p, t, k);
        AcceptRetains(fix, s.hist, n.log, m, t, k, Bound(n));
        RetainedKept(s.hist, h, s.ids, log', t, k, m.term);
      } else {
        AcceptedPrefix(fix, s.hist, n.log, m);
      }
    }
  }

  lemma AckedKnown(s: State, p: Proc, t: int, k: nat)
    requires Known(s, p) && 0 < k <= Acc(s.hist, p.n.me, t)
    ensures t <= p.n.term && Retained(s.hist, p.n.log, t, k, Bound(p.n))
  {}

  lemma AcceptorLog(fix: Repairs, s: State, log: Log, m: LogRequest)
    requires Books(s) && LogRequestOk(s.hist, m) && CanLog(log, m)
    requires Lined(s.hist, log) && TermsUpTo(log, m.term)
    ensures Lined(s.hist, AcceptLog(fix, log, m)) && TermsUpTo(AcceptLog(fix, log, m), m.term)
  {
    if m.opTerm != -1 {
      AcceptedPrefix(fix, s.hist, log, m);
      BookTerms(s, m.term);
      PrefixLined(s.hist, s.hist.tlog[m.term], m.prefixLength + 1);
    }
  }

  /** Along a leader's log terms stay within its own, and start lower. */
  lemma BookTerms(s: State, t: int)
    requires Books(s) && t in s.hist.tlog
    ensures 1 <= t && TermsUpTo(s.hist.tlog[t], t) && TermsUpTo(ElectionLog(s.hist, t), t - 1)
  {
    assert LineOk(s.hist, t) && BallotLogOk(s.hist, s.hist.lead[t], t, s.hist.ballots[Vote(s.hist.lead[t], t)]);
  }

  lemma StepKeeps(fix: Repairs, s: State, st: Step)
    requires E.Sound(fix) && Inv(s) && Enabled(fix, s, st)
    ensures Inv(After(fix, s, st))
  {
    E.StepKeeps(fix, s, st);
    if VoteStep(st) { VoteStepKeeps(fix, s, st); } else { LogStepKeeps(fix, s, st); }
  }

  predicate VoteStep(st: Step) { st.BeginElection? || st.SendVote? || st.DeliverVote? || st.ReceiveVote? }

  lemma VoteStepKeeps(fix: Repairs, s: State, st: Step)
    requires E.Sound(fix) && Inv(s) && Enabled(fix, s, st) && E.Inv(After(fix, s, st)) && VoteStep(st)
    ensures Inv(After(fix, s, st))
  {
    match st
    case BeginElection(i) => BeginElectionKeeps(fix, s, i);
    case SendVote(i, to) => SendVoteKeeps(s, i, to);
    case DeliverVote(i, m) => DeliverVoteKeeps(s, i, m);
    case ReceiveVote(i, r) => ReceiveVoteKeeps(fix, s, i, r);
  }

  lemma LogStepKeeps(fix: Repairs, s: State, st: Step)
    requires E.Sound(fix) && Inv(s) && Enabled(fix, s, st) && E.Inv(After(fix, s, st)) && !VoteStep(st)
    ensures Inv(After(fix, s, st))
  {
    match st
    case Update(i, c, o) => UpdateKeeps(s, i, c, o);
    case SendLog(i, slot) => SendLogKeeps(s, i, slot);
    case DeliverLog(i, m) => DeliverLogKeeps(fix, s, i, m);
    case ReceiveLog(i, r) => ReceiveLogKeeps(fix, s, i, r);
    case LoseLog(i) => LoseLogKeeps(s, i);
    case _ => QuietStepKeeps(fix, s, st);
  }

  lemma SendVoteKeeps(s: State, i: int, to: int)
    requires Inv(s) && CanSendVote(s, i, to) && E.Inv(DoSendVote(s, i, to))
    ensures Inv(DoSendVote(s, i, to))
  {
    var n := s.procs[i].n;
    var m := MakeVoteRequest(n);
    Dials(s, to, VoteCall(to, m));
    Knows(s, i);
    Quiet(Dial(s, to, VoteCall(to, m)), i, Proc(n, AwaitVote(to, m)), {VoteCall(to, m)});
  }

  lemma LoseLogKeeps(s: State, i: int)
    requires Inv(s) && CanLoseLog(s, i) && E.Inv(DoLoseLog(s, i))
    ensures Inv(DoLoseLog(s, i))
  {
    Knows(s, i);
    CleanOk(s, s.procs[i], s.procs[i].lock.slot);
    Quiet(s, i, Proc(CleanNodeState(s.procs[i].n, s.procs[i].lock.slot), Replicating), {});
  }

  lemma CleanOk(s: State, p: Proc, slot: nat)
    requires Known(s, p) && p.lock.AwaitLog? && HasSlot(p.n, slot)
    ensures p.n.status.Leader? && SlotsOk(s.hist, CleanNodeState(p.n, slot))
  {}

  lemma QuietStepKeeps(fix: Repairs, s: State, st: Step)
    requires Inv(s) && Enabled(fix, s, st) && E.Inv(After(fix, s, st))
    requires st.Timeout? || st.LoseVote? || st.EndElection? || st.BeginReplicate? || st.EndReplicate?
    ensures Inv(After(fix, s, st))
  {
    assert ProcOk(s.hist, s.procs[st.i]);
    Quiet(s, st.i, After(fix, s, st).procs[st.i], {});
  }

  /** No step takes anything out of the history. */
  lemma StepGrows(fix: Repairs, s: State, st: Step)
    requires E.Sound(fix) && Inv(s) && Enabled(fix, s, st)
    ensures Grows(s.hist, After(fix, s, st).hist, st.i)
  {
    Knows(s, st.i);
    match st
    case BeginElection(i) => BidGrows(fix, s, i);
    case DeliverVote(i, m) => VoteGrows(s, i, m);
    case ReceiveVote(i, r) => WonGrows(fix, s, i, r);
    case Update(i, c, o) => ExtendGrows(s, s.procs[i], MapOp(s.procs[i].n.term, c, o));
    case DeliverLog(i, m) => AcceptedGrows(fix, s, i, m);
    case _ =>
  }

  lemma BidGrows(fix: Repairs, s: State, i: int)
    requires CanBeginElection(s, i) && Known(s, s.procs[i]) && s.procs[i].n.me == i
    ensures Grows(s.hist, DoBeginElection(fix, s, i).hist, i)
  {
    var n' := StartElection(fix, s.procs[i].n);
    BidderProc(s, s.procs[i], Proc(n', Electing), Cast(s.hist, i, n'.term, i, n'.log));
  }

  lemma VoteGrows(s: State, i: int, m: VoteRequest)
    requires Inv(s) && CanDeliverVote(s, i, m)
    ensures Grows(s.hist, DoDeliverVote(s, i, m).hist, i)
  {
    Knows(s, i);
    Candidate(s, i, m);
    VoterProc(s, s.procs[i], m, Voted(s.hist, s.procs[i].n, m));
  }

  lemma WonGrows(fix: Repairs, s: State, i: int, r: VoteResponse)
    requires E.Sound(fix) && Inv(s) && CanReceiveVote(s, i, r)
    ensures Grows(s.hist, DoReceiveVote(fix, s, i, r).hist, i)
  {
    if TakeVote(fix, s.procs[i].n, r).status.Leader? {
      E.Wins(fix, s, i, r);
      Knows(s, i);
      WinnerProc(s, s.procs[i], Polled(fix, s.procs[i].n, r));
    }
  }

  lemma AcceptedGrows(fix: Repairs, s: State, i: int, m: LogRequest)
    requires E.Sound(fix) && Inv(s) && CanDeliverLog(fix, s, i, m)
    ensures Grows(s.hist, Accepted(fix, s.hist, s.procs[i].n, m), i)
  {
    assert PacketOk(s.hist, LogCall(i, m));
    Knows(s, i);
    if Accepts(fix, s.procs[i].n, m) { AcceptGrows(fix, s, s.procs[i], m); }
  }

  lemma InitOk(s: State)
    requires Init(s)
    ensures Inv(s)
  {}

  // ---- Runs ----

  lemma NextHolds(fix: Repairs, run: seq<State>, i: nat)
    requires E.Sound(fix) && Run(fix, run) && i + 1 < |run| && Inv(run[i])
    ensures Inv(run[i + 1])
  {
    var st := StepAt(fix, run, i);
    StepKeeps(fix, run[i], st);
  }

  lemma {:induction false} Holds(fix: Repairs, run: seq<State>, i: nat)
    requires E.Sound(fix) && Run(fix, run) && i < |run|
    ensures Inv(run[i])
  {
    if i == 0 {
      InitOk(run[0]);
    } else {
      Holds(fix, run, i - 1);
      NextHolds(fix, run, i - 1);
    }
  }
}
