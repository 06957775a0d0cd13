/** Election safety: the votes behind every leader were cast in its own term, by a
    strict majority, and no server votes for two candidates in a term. */
module Elections {
  import opened RaftTypes
  import opened Handlers
  import opened Cluster

  // ---- Majorities ----

  predicate Majority(ids: set<int>, q: set<int>) {
    q <= ids && 2 * |q| > |ids|
  }

  /** Half of the servers: enough to meet every majority. */
  predicate Half(ids: set<int>, q: set<int>) {
    q <= ids && 2 * |q| >= |ids|
  }

  lemma HalfMeets(ids: set<int>, p: set<int>, q: set<int>) returns (v: int)
    requires Majority(ids, p) && Half(ids, q)
    ensures v in p && v in q
  {
    if forall u :: u in p ==> u !in q {
      assert p * q == {};
      SubsetSize(p + q, ids);
      assert false;
    }
    v :| v in p && v in q;
  }

  /** A majority of at most two is everyone. */
  lemma Everyone(ids: set<int>, q: set<int>)
    requires Majority(ids, q) && |ids| <= 2
    ensures q == ids
  {
    assert ids == q + (ids - q);
    assert |ids - q| == 0;
  }

  lemma SubsetSize(a: set<int>, b: set<int>)
    requires a <= b
    ensures |a| <= |b|
  {
    assert b == a + (b - a);
  }

  // ---- The invariant ----

  predicate VotedFor(h: History, v: int, t: int, c: int) {
    Vote(v, t) in h.ballots && h.ballots[Vote(v, t)].cand == c
  }

  /** The log a candidate had when it started its election. */
  function BidLog(h: History, c: int, t: int): Log {
    if Vote(c, t) in h.ballots then h.ballots[Vote(c, t)].log else []
  }

  predicate AllVoted(h: History, q: set<int>, t: int, c: int) {
    forall v :: v in q ==> VotedFor(h, v, t, c)
  }

  ghost predicate Elected(h: History, ids: set<int>, t: int, c: int) {
    exists q: set<int> :: Majority(ids, q) && AllVoted(h, q, t, c)
  }

  /** A vote went to a real candidate whose log was at least as up to date. */
  predicate BallotOk(h: History, ids: set<int>, t: int, b: Ballot) {
    && b.cand in ids
    && VotedFor(h, b.cand, t, b.cand)
    && UpToDate(LastTerm(BidLog(h, b.cand, t)), |BidLog(h, b.cand, t)|, b.log)
  }

  ghost predicate BallotsOk(h: History, ids: set<int>) {
    forall v, t :: Vote(v, t) in h.ballots ==> v in ids && BallotOk(h, ids, t, h.ballots[Vote(v, t)])
  }

  ghost predicate LeadersOk(h: History, ids: set<int>) {
    forall t :: t in h.lead ==>
      h.lead[t] in ids && VotedFor(h, h.lead[t], t, h.lead[t]) && Elected(h, ids, t, h.lead[t])
  }

  predicate VoteRequestOk(h: History, m: VoteRequest) {
    && VotedFor(h, m.id, m.term, m.id)
    && m.logSize == |BidLog(h, m.id, m.term)|
    && m.lastTerm == LastTerm(BidLog(h, m.id, m.term))
  }

  predicate PacketOk(h: History, p: Packet) {
    match p
    case VoteCall(_, m) => VoteRequestOk(h, m)
    case VoteReply(v, m, r) =>
      VoteRequestOk(h, m) && r.id == v && (r.voted ==> r.term == m.term && VotedFor(h, v, m.term, m.id))
    case _ => true
  }

  ghost predicate ProcOk(h: History, p: Proc) {
    var n := p.n;
    && n.me != -1 && 0 <= n.term
    && (forall t :: Vote(n.me, t) in h.ballots ==>
          && 1 <= t <= n.term
          && (t == n.term ==> n.votedFor == -1 || n.votedFor == h.ballots[Vote(n.me, t)].cand))
    && (forall t :: t in h.lead && h.lead[t] == n.me ==> 1 <= t <= n.term)
    && (n.status.Leader? ==> n.term in h.lead && h.lead[n.term] == n.me)
    && (p.lock.InReplication() ==> n.status.Leader?)
    && (p.lock.InElection() ==>
          && !n.status.Leader?
          && Vote(n.me, n.term) in h.ballots && h.ballots[Vote(n.me, n.term)] == Ballot(n.me, n.log)
          && (n.term in h.lead ==> h.lead[n.term] != n.me)
          && AllVoted(h, n.votes, n.term, n.me))
    && (p.lock.AwaitVote? ==> p.lock.voteReq == MakeVoteRequest(n))
  }

  ghost predicate Shape(s: State) {
    && s.procs.Keys == s.ids
    && (forall i :: i in s.ids ==> s.procs[i].n.me == i && Members(s.ids, i, s.procs[i].n.members))
  }

  ghost predicate ProcsOk(h: History, ids: set<int>, procs: map<int, Proc>) {
    forall i :: i in ids ==> i in procs && ProcOk(h, procs[i])
  }

  ghost predicate NetOk(h: History, net: set<Packet>) {
    forall p :: p in net ==> PacketOk(h, p)
  }

  ghost predicate Inv(s: State) {
    && Shape(s)
    && BallotsOk(s.hist, s.ids)
    && LeadersOk(s.hist, s.ids)
    && ProcsOk(s.hist, s.ids, s.procs)
    && NetOk(s.hist, s.net)
  }

  /** No vote and no election is ever forgotten. */
  ghost predicate Extends(h: History, h': History) {
    && (forall v, t :: Vote(v, t) in h.ballots ==>
          && Vote(v, t) in h'.ballots
          && h'.ballots[Vote(v, t)] == h.ballots[Vote(v, t)])
    && (forall t :: t in h.lead ==> t in h'.lead && h'.lead[t] == h.lead[t])
  }

  /** The history after a step of server `i`: only `i` casts or wins anything new. */
  ghost predicate Grows(h: History, h': History, i: int) {
    && Extends(h, h')
    && (forall v, t :: Vote(v, t) in h'.ballots && v != i ==> Vote(v, t) in h.ballots)
    && (forall t :: t in h'.lead && t !in h.lead ==> h'.lead[t] == i)
  }

  // ---- What other servers and old packets keep ----

  lemma ProcKept(h: History, h': History, i: int, p: Proc)
    requires ProcOk(h, p) && Grows(h, h', i) && p.n.me != i
    ensures ProcOk(h', p)
  {}

  lemma PacketKept(h: History, h': History, i: int, p: Packet)
    requires PacketOk(h, p) && Grows(h, h', i)
    ensures PacketOk(h', p)
  {}

  lemma ElectedKept(h: History, h': History, i: int, ids: set<int>, t: int, c: int)
    requires Elected(h, ids, t, c) && Grows(h, h', i)
    ensures Elected(h', ids, t, c)
  {}

  lemma FrameProcs(s: State, i: int, p: Proc, h: History)
    requires Shape(s) && ProcsOk(s.hist, s.ids, s.procs) && Grows(s.hist, h, i) && ProcOk(h, p)
    ensures ProcsOk(h, s.ids, s.procs[i := p])
  {
    forall j | j in s.ids && j != i ensures ProcOk(h, s.procs[j]) { ProcKept(s.hist, h, i, s.procs[j]); }
  }

  lemma FramePackets(h: History, h': History, i: int, net: set<Packet>, sent: set<Packet>)
    requires NetOk(h, net) && Grows(h, h', i) && forall k :: k in sent ==> PacketOk(h', k)
    ensures NetOk(h', net + sent)
  {
    forall k | k in net ensures PacketOk(h', k) { PacketKept(h, h', i, k); }
  }

  lemma FrameShape(s: State, i: int, p: Proc)
    requires Shape(s) && i in s.ids && p.n.me == i && p.n.members == s.procs[i].n.members
    ensures Shape(Apply(s, i, p, {}, s.hist))
  {}

  /** A step keeps the invariant if the mover, its packets and the history do. */
  lemma Frame(s: State, i: int, p: Proc, sent: set<Packet>, h: History)
    requires Inv(s) && i in s.ids && Grows(s.hist, h, i)
    requires BallotsOk(h, s.ids) && LeadersOk(h, s.ids) && ProcOk(h, p)
    requires p.n.me == i && p.n.members == s.procs[i].n.members
    requires forall k :: k in sent ==> PacketOk(h, k)
    ensures Inv(Apply(s, i, p, sent, h))
  {
    FrameShape(s, i, p);
    FrameProcs(s, i, p, h);
    FramePackets(s.hist, h, i, s.net, sent);
  }

  // ---- The steps ----

  predicate Sound(fix: Repairs) { fix.quorum && fix.freshVotes && fix.termOrder }

  /** Voting for `c`, whose request is genuine, keeps the ballots in order. */
  lemma CastKeeps(h: History, ids: set<int>, v: int, t: int, c: int, log: Log)
    requires BallotsOk(h, ids) && LeadersOk(h, ids)
    requires v in ids && c in ids
    requires v == c || (VotedFor(h, c, t, c) && UpToDate(LastTerm(BidLog(h, c, t)), |BidLog(h, c, t)|, log))
    ensures BallotsOk(Cast(h, v, t, c, log), ids) && LeadersOk(Cast(h, v, t, c, log), ids)
    ensures Grows(h, Cast(h, v, t, c, log), v)
  {}

  lemma BeginElectionKeeps(fix: Repairs, s: State, i: int)
    requires Sound(fix) && Inv(s) && CanBeginElection(s, i)
    ensures Inv(DoBeginElection(fix, s, i))
  {
    var n' := StartElection(fix, s.procs[i].n);
    var h := Cast(s.hist, i, n'.term, i, n'.log);
    CastKeeps(s.hist, s.ids, i, n'.term, i, n'.log);
    assert ProcOk(h, Proc(n', Electing));
    Frame(s, i, Proc(n', Electing), {}, h);
  }

  lemma SendVoteKeeps(s: State, i: int, to: int)
    requires Inv(s) && CanSendVote(s, i, to)
    ensures Inv(DoSendVote(s, i, to))
  {
    var m := MakeVoteRequest(s.procs[i].n);
    Frame(s, i, Proc(s.procs[i].n, AwaitVote(to, m)), {VoteCall(to, m)}, s.hist);
  }

  lemma DeliverVoteKeeps(s: State, i: int, m: VoteRequest)
    requires Inv(s) && CanDeliverVote(s, i, m)
    ensures Inv(DoDeliverVote(s, i, m))
  {
    var n := s.procs[i].n;
    assert PacketOk(s.hist, VoteCall(i, m));
    VoterOk(s, n, m);
    Frame(s, i, Proc(MeetCandidate(n, m), Free), {VoteReply(i, m, AnswerVote(n, m))}, Voted(s.hist, n, m));
  }

  lemma VoterOk(s: State, n: NodeState, m: VoteRequest)
    requires Inv(s) && n.me in s.ids && s.procs[n.me].n == n && VoteRequestOk(s.hist, m)
    requires s.procs[n.me].lock.Free?
    ensures var h := Voted(s.hist, n, m);
            && BallotsOk(h, s.ids) && LeadersOk(h, s.ids) && Grows(s.hist, h, n.me)
            && ProcOk(h, Proc(MeetCandidate(n, m), Free))
            && PacketOk(h, VoteReply(n.me, m, AnswerVote(n, m)))
  {
    var p := s.procs[n.me];
    assert ProcOk(s.hist, p);
    if AnswerVote(n, m).voted {
      CastKeeps(s.hist, s.ids, n.me, m.term, m.id, n.log);
    }
    assert m.id in s.ids && ProcOk(s.hist, s.procs[m.id]);
    VoterProcOk(s.hist, p, m);
  }

  lemma VoterProcOk(h: History, p: Proc, m: VoteRequest)
    requires ProcOk(h, p) && p.lock.Free? && VoteRequestOk(h, m) && m.id != -1 && 1 <= m.term
    ensures var h' := Voted(h, p.n, m);
            ProcOk(h', Proc(MeetCandidate(p.n, m), Free)) && PacketOk(h', VoteReply(p.n.me, m, AnswerVote(p.n, m)))
  {}

  /** Two candidates cannot both be elected in a term. */
  lemma OneWinner(h: History, ids: set<int>, t: int, a: int, b: int)
    requires Elected(h, ids, t, a) && Elected(h, ids, t, b)
    ensures a == b
  {
    var p :| Majority(ids, p) && AllVoted(h, p, t, a);
    var q :| Majority(ids, q) && AllVoted(h, q, t, b);
    var v := HalfMeets(ids, p, q);

  }

  /** The vote that wins comes from a majority, in a term that had no leader yet. */
  lemma Wins(fix: Repairs, s: State, i: int, r: VoteResponse)
    requires Sound(fix) && Inv(s) && CanReceiveVote(s, i, r)
    requires TakeVote(fix, s.procs[i].n, r).status.Leader?
    ensures Elected(s.hist, s.ids, s.procs[i].n.term, i) && s.procs[i].n.term !in s.hist.lead
  {
    var p := s.procs[i];
    assert PacketOk(s.hist, VoteReply(p.lock.peer, p.lock.voteReq, r)) && ProcOk(s.hist, p);
    var votes := p.n.votes + {r.id};
    assert AllVoted(s.hist, votes, p.n.term, i);
    assert votes <= s.ids by {
      forall v | v in votes ensures v in s.ids { assert VotedFor(s.hist, v, p.n.term, i); }
    }
    assert WonElection(fix, |votes|, |p.n.members|) && Members(s.ids, i, p.n.members);
    assert Majority(s.ids, votes);
    if p.n.term in s.hist.lead {
      OneWinner(s.hist, s.ids, p.n.term, i, s.hist.lead[p.n.term]);
    }
  }

  /** Recording an elected leader of a term that had none. */
  lemma CrownKeeps(s: State, n: NodeState)
    requires Inv(s) && n.me in s.ids && n.term !in s.hist.lead
    requires VotedFor(s.hist, n.me, n.term, n.me) && Elected(s.hist, s.ids, n.term, n.me)
    ensures var h := Crown(s.hist, n);
            BallotsOk(h, s.ids) && LeadersOk(h, s.ids) && Grows(s.hist, h, n.me)
  {}

  lemma WinnerOk(fix: Repairs, h: History, p: Proc, r: VoteResponse)
    requires ProcOk(h, p) && p.lock.InElection() && TakeVote(fix, p.n, r).status.Leader? && p.n.term !in h.lead
    ensures var p' := Polled(fix, p.n, r);
            p'.lock.Free? && p'.n.me == p.n.me && p'.n.term == p.n.term && ProcOk(Crown(h, p'.n), p')
  {}

  lemma LoserOk(fix: Repairs, h: History, p: Proc, r: VoteResponse)
    requires ProcOk(h, p) && p.lock.InElection() && !TakeVote(fix, p.n, r).status.Leader?
    requires r.term == p.n.term && r.voted ==> VotedFor(h, r.id, p.n.term, p.n.me)
    ensures ProcOk(h, Polled(fix, p.n, r))
  {}

  lemma ReceiveVoteKeeps(fix: Repairs, s: State, i: int, r: VoteResponse)
    requires Sound(fix) && Inv(s) && CanReceiveVote(s, i, r)
    ensures Inv(DoReceiveVote(fix, s, i, r))
  {
    var p, p' := s.procs[i], Polled(fix, s.procs[i].n, r);
    assert PacketOk(s.hist, VoteReply(p.lock.peer, p.lock.voteReq, r)) && ProcOk(s.hist, p);
    if p'.n.status.Leader? {
      Wins(fix, s, i, r);
      CrownKeeps(s, p'.n);
      WinnerOk(fix, s.hist, p, r);
      Frame(s, i, p', {}, Crown(s.hist, p'.n));
    } else {
      LoserOk(fix, s.hist, p, r);
      Quiet(s, i, p', {}, s.hist);
    }
  }

  /** A step that casts and wins nothing. */
  lemma Quiet(s: State, i: int, p: Proc, sent: set<Packet>, h: History)
    requires Inv(s) && i in s.ids && ProcOk(s.hist, p)
    requires h.ballots == s.hist.ballots && h.lead == s.hist.lead
    requires p.n.me == i && p.n.members == s.procs[i].n.members
    requires forall k :: k in sent ==> PacketOk(h, k)
    ensures Inv(Apply(s, i, p, sent, h))
  {
    QuietBooks(s.hist, h, s.ids, i);
    QuietProc(s.hist, h, p);
    Frame(s, i, p, sent, h);
  }

  lemma QuietBooks(h: History, h': History, ids: set<int>, i: int)
    requires BallotsOk(h, ids) && LeadersOk(h, ids) && h'.ballots == h.ballots && h'.lead == h.lead
    ensures BallotsOk(h', ids) && LeadersOk(h', ids) && Grows(h, h', i)
  {
    forall t | t in h.lead ensures Elected(h', ids, t, h.lead[t]) { ElectedKept(h, h', i, ids, t, h.lead[t]); }
  }

  lemma QuietProc(h: History, h': History, p: Proc)
    requires ProcOk(h, p) && h'.ballots == h.ballots && h'.lead == h.lead
    ensures ProcOk(h', p)
  {
    assert AllVoted(h, p.n.votes, p.n.term, p.n.me) ==> AllVoted(h', p.n.votes, p.n.term, p.n.me);
  }

  /** What the response to a log request may change in its receiver. */
  lemma ResponseFrame(fix: Repairs, n: NodeState, slot: nat, r: LogResponse)
    requires HasSlot(n, slot)
    ensures var n' := TakeLogResponse(fix, n, slot, r);
            && n'.me == n.me && n'.members == n.members && n'.log == n.log
            && (r.term <= n.term ==> n' == n.(sent := n'.sent, ack := n'.ack, record := n'.record,
                commitLength := n'.commitLength))
            && (r.term > n.term ==> n' == Demote(n, r.term))
  {
    if r.term == n.term && n.status.Leader? && r.success {
      var n1 := n.(sent := n.sent[slot := r.ack], ack := n.ack[slot := r.ack]);
      ExecuteKeeps(n1, CommitPoint(fix, n1, |n1.log|));
    }
  }

  lemma UpdateKeeps(s: State, i: int, c: int, o: int)
    requires Inv(s) && CanUpdate(s, i)
    ensures Inv(DoUpdate(s, i, c, o))
  {
    var n := s.procs[i].n;
    assert ProcOk(s.hist, s.procs[i]);
    Quiet(s, i, Proc(ClientUpdate(n, c, o), Replicating), {}, Extend(s.hist, n, MapOp(n.term, c, o)));
  }

  lemma SendLogKeeps(s: State, i: int, slot: nat)
    requires Inv(s) && CanSendLog(s, i, slot)
    ensures Inv(DoSendLog(s, i, slot))
  {
    var n := s.procs[i].n;
    var m := MakeLogRequest(n, slot);
    assert ProcOk(s.hist, s.procs[i]);
    Quiet(s, i, Proc(n, AwaitLog(slot, m)), {LogCall(n.members[slot], m)}, s.hist);
  }

  lemma FollowerOk(fix: Repairs, h: History, p: Proc, m: LogRequest)
    requires fix.termOrder && ProcOk(h, p) && p.lock.Free? && LogInBounds(fix, p.n, m)
    ensures ProcOk(h, Proc(TakeLog(fix, p.n, m), Free))
  {}

  lemma DeliverLogKeeps(fix: Repairs, s: State, i: int, m: LogRequest)
    requires Sound(fix) && Inv(s) && CanDeliverLog(fix, s, i, m)
    ensures Inv(DoDeliverLog(fix, s, i, m))
  {
    var n := s.procs[i].n;
    FollowerOk(fix, s.hist, s.procs[i], m);
    AcceptedVotes(fix, s.hist, n, m);
    Quiet(s, i, Proc(TakeLog(fix, n, m), Free), {LogReply(i, m, AnswerLog(fix, n, m))}, Accepted(fix, s.hist, n, m));
  }

  lemma AcceptedVotes(fix: Repairs, h: History, n: NodeState, m: LogRequest)
    ensures var h' := Accepted(fix, h, n, m); h'.ballots == h.ballots && h'.lead == h.lead
  {}

  lemma ReplyOk(fix: Repairs, h: History, p: Proc, r: LogResponse)
    requires ProcOk(h, p) && p.lock.AwaitLog? && HasSlot(p.n, p.lock.slot)
    ensures var p' := Replied(fix, p.n, p.lock.slot, p.lock.logReq, r);
            ProcOk(h, p') && p'.n.me == p.n.me && p'.n.members == p.n.members
  {
    ResponseFrame(fix, p.n, p.lock.slot, r);
  }

  lemma ReceiveLogKeeps(fix: Repairs, s: State, i: int, r: LogResponse)
    requires Inv(s) && CanReceiveLog(s, i, r)
    ensures Inv(DoReceiveLog(fix, s, i, r))
  {
    var p := s.procs[i];
    ReplyOk(fix, s.hist, p, r);
    Quiet(s, i, Replied(fix, p.n, p.lock.slot, p.lock.logReq, r), {}, s.hist);
  }

  lemma StepKeeps(fix: Repairs, s: State, st: Step)
    requires Sound(fix) && Inv(s) && Enabled(fix, s, st)
    ensures Inv(After(fix, s, st))
  {
    match st
    case BeginElection(i) => BeginElectionKeeps(fix, s, i);
    case SendVote(i, to) => SendVoteKeeps(s, i, to);
    case DeliverVote(i, m) => DeliverVoteKeeps(s, i, m);
    case ReceiveVote(i, r) => ReceiveVoteKeeps(fix, s, i, r);
    case Update(i, c, o) => UpdateKeeps(s, i, c, o);
    case SendLog(i, slot) => SendLogKeeps(s, i, slot);
    case DeliverLog(i, m) => DeliverLogKeeps(fix, s, i, m);
    case ReceiveLog(i, r) => ReceiveLogKeeps(fix, s, i, r);
    case _ => QuietStepKeeps(fix, s, st);
  }

  predicate QuietStep(st: Step) {
    st.Timeout? || st.LoseVote? || st.EndElection? || st.BeginReplicate? || st.LoseLog? || st.EndReplicate?
  }

  lemma QuietOk(fix: Repairs, s: State, st: Step)
    requires QuietStep(st) && Enabled(fix, s, st) && ProcOk(s.hist, s.procs[st.i])
    ensures var p := After(fix, s, st).procs[st.i];
            && After(fix, s, st) == Apply(s, st.i, p, {}, s.hist)
            && ProcOk(s.hist, p) && p.n.me == s.procs[st.i].n.me && p.n.members == s.procs[st.i].n.members
  {}

  lemma QuietStepKeeps(fix: Repairs, s: State, st: Step)
    requires Inv(s) && Enabled(fix, s, st) && QuietStep(st)
    ensures Inv(After(fix, s, st))
  {
    QuietOk(fix, s, st);
    Quiet(s, st.i, After(fix, s, st).procs[st.i], {}, s.hist);
  }

  lemma StepGrows(fix: Repairs, s: State, st: Step)
    requires Sound(fix) && Inv(s) && Enabled(fix, s, st)
    ensures Grows(s.hist, After(fix, s, st).hist, st.i)
  {
    match st
    case BeginElection(i) => BeginElectionGrows(fix, s, i);
    case DeliverVote(i, m) => VoterGrows(s, i, m);
    case ReceiveVote(i, r) => WinnerGrows(fix, s, i, r);
    case _ => OtherGrows(fix, s, st);
  }

  lemma CastGrows(h: History, v: int, t: int, c: int, log: Log)
    ensures Grows(h, Cast(h, v, t, c, log), v)
  {}

  lemma VoterGrows(s: State, i: int, m: VoteRequest)
    requires CanDeliverVote(s, i, m) && s.procs[i].n.me == i
    ensures Grows(s.hist, DoDeliverVote(s, i, m).hist, i)
  {
    CastGrows(s.hist, i, m.term, m.id, s.procs[i].n.log);
  }

  lemma WinnerGrows(fix: Repairs, s: State, i: int, r: VoteResponse)
    requires Sound(fix) && Inv(s) && CanReceiveVote(s, i, r)
    ensures Grows(s.hist, DoReceiveVote(fix, s, i, r).hist, i)
  {
    if TakeVote(fix, s.procs[i].n, r).status.Leader? {
      Wins(fix, s, i, r);
      CrownGrows(s.hist, TakeVote(fix, s.procs[i].n, r));
    }
  }

  lemma CrownGrows(h: History, n: NodeState)
    requires n.term !in h.lead
    ensures Grows(h, Crown(h, n), n.me)
  {}

  lemma BeginElectionGrows(fix: Repairs, s: State, i: int)
    requires CanBeginElection(s, i)
    ensures Grows(s.hist, DoBeginElection(fix, s, i).hist, i)
  {
    var n' := StartElection(fix, s.procs[i].n);
    CastGrows(s.hist, i, n'.term, i, n'.log);
  }

  lemma OtherGrows(fix: Repairs, s: State, st: Step)
    requires Enabled(fix, s, st) && !st.BeginElection? && !st.DeliverVote? && !st.ReceiveVote?
    ensures Grows(s.hist, After(fix, s, st).hist, st.i)
  {}

  lemma InitOk(s: State)
    requires Init(s)
    ensures Inv(s)
  {}

  // ---- Runs ----

  lemma NextHolds(fix: Repairs, run: seq<State>, i: nat)
    requires Sound(fix) && Run(fix, run) && i + 1 < |run| && Inv(run[i])
    ensures Inv(run[i + 1])
  {
    var st := StepAt(fix, run, i);
    StepKeeps(fix, run[i], st);
  }

  lemma {:induction false} Holds(fix: Repairs, run: seq<State>, i: nat)
    requires Sound(fix) && Run(fix, run) && i < |run|
    ensures Inv(run[i])
  {
    if i == 0 {
      InitOk(run[0]);
    } else {
      Holds(fix, run, i - 1);
      NextHolds(fix, run, i - 1);
    }
  }
}
