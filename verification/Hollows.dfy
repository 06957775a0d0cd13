/** Acknowledgements of entries that the follower does not store, which the code as written
    gives when it meets a conflict. At most the last acknowledged entry is missing, and if it
    is of the leader's own term, then the follower did not vote for that leader. */
module Hollows {
  import opened RaftTypes
  import opened Handlers
  import opened Cluster
  import E = Elections
  import L = Logs

  ghost predicate HollowOk(h: History, n: NodeState) {
    forall t, k :: Hollow(n.me, t, k) in h.hollow ==>
      && t <= n.term && (t == n.term ==> n.votedFor == -1)
      && t in h.tlog && t in h.lead && 0 < k <= |h.tlog[t]| && k - 1 <= Acc(h, n.me, t)
      && (h.tlog[t][k - 1].term == t ==> !E.VotedFor(h, n.me, t, h.lead[t]))
  }

  /** Since its vote in its term a server has logged nothing, or has come to lie on the log
      of that term's leader. */
  predicate VoteLog(h: History, n: NodeState) {
    Vote(n.me, n.term) in h.ballots ==>
      || n.log == h.ballots[Vote(n.me, n.term)].log
      || (n.term in h.tlog && n.log <= h.tlog[n.term])
  }

  ghost predicate Ok(h: History, n: NodeState) { HollowOk(h, n) && VoteLog(h, n) }

  ghost predicate Inv(s: State) {
    forall i :: i in s.ids ==> i in s.procs && Ok(s.hist, s.procs[i].n)
  }

  /** Only the mover's acknowledgements can turn out hollow. */
  predicate Grows(h: History, h': History, i: int) {
    forall x :: x in h'.hollow && x.follower != i ==> x in h.hollow
  }

  lemma OtherKept(h: History, h': History, i: int, n: NodeState)
    requires L.Grows(h, h', i) && Grows(h, h', i) && n.me != i && Ok(h, n)
    ensures Ok(h', n)
  {
    forall t, k | Hollow(n.me, t, k) in h'.hollow
      ensures t in h'.tlog && 0 < k <= |h'.tlog[t]| && k - 1 <= Acc(h', n.me, t)
      ensures h'.tlog[t][k - 1].term == t ==> !E.VotedFor(h', n.me, t, h'.lead[t])
    {
      assert h'.tlog[t][k - 1] == h.tlog[t][k - 1];
    }
  }

  lemma Frame(s: State, i: int, p: Proc, sent: set<Packet>, h: History)
    requires E.Shape(s) && Inv(s) && i in s.ids && L.Grows(s.hist, h, i) && Grows(s.hist, h, i) && Ok(h, p.n)
    ensures Inv(Apply(s, i, p, sent, h))
  {
    forall j | j in s.ids && j != i ensures Ok(h, s.procs[j].n) { OtherKept(s.hist, h, i, s.procs[j].n); }
  }

  // ---- The mover ----

  /** A server that keeps its log, and at most raises its term or casts a vote with it. */
  lemma Rising(h: History, h': History, p: Proc, n': NodeState)
    requires E.ProcOk(h, p) && Ok(h, p.n) && L.Grows(h, h', p.n.me)
    requires h'.hollow == h.hollow && n'.me == p.n.me && n'.log == p.n.log && p.n.term <= n'.term
    requires forall t :: Vote(p.n.me, t) in h'.ballots && Vote(p.n.me, t) !in h.ballots ==>
               && t == n'.term && h'.ballots[Vote(p.n.me, t)].log == n'.log
               && (t == p.n.term ==> p.n.votedFor != -1)
    requires n'.term == p.n.term ==> n'.votedFor == p.n.votedFor || n'.votedFor == -1
    ensures Ok(h', n')
  {
    forall t, k | Hollow(p.n.me, t, k) in h'.hollow
      ensures t in h'.tlog && 0 < k <= |h'.tlog[t]| && k - 1 <= Acc(h', p.n.me, t)
      ensures h'.tlog[t][k - 1].term == t ==> !E.VotedFor(h', p.n.me, t, h'.lead[t])
    {
      assert h'.tlog[t][k - 1] == h.tlog[t][k - 1];
    }
  }

  /** A leader that logs an update. */
  lemma Updated(h: History, h': History, p: Proc, n': NodeState)
    requires Ok(h, p.n) && L.Grows(h, h', p.n.me) && h'.hollow == h.hollow && h'.ballots == h.ballots
    requires n'.me == p.n.me && n'.term == p.n.term && n'.votedFor == p.n.votedFor
    requires n'.term in h'.tlog && n'.log <= h'.tlog[n'.term]
    ensures Ok(h', n')
  {
    forall t, k | Hollow(p.n.me, t, k) in h'.hollow
      ensures t in h'.tlog && 0 < k <= |h'.tlog[t]|
      ensures h'.tlog[t][k - 1].term == t ==> !E.VotedFor(h', p.n.me, t, h'.lead[t])
    {
      assert h'.tlog[t][k - 1] == h.tlog[t][k - 1];
    }
  }

  /** Terms do not fall along a log. */
  lemma LastIsHighest(s: State, log: Log, k: nat)
    requires L.Books(s) && L.Lined(s.hist, log) && k < |log|
    ensures 1 <= log[k].term <= LastTerm(log)
  {
    assert L.OnLine(s.hist, log, |log| - 1);
    var w := LastTerm(log);
    L.BookTerms(s, w);
    assert log[..|log|] == s.hist.tlog[w][..|log|];
    assert log[k] == log[..|log|][k];
  }

  /** A follower that has another entry where the leader has one of its own term did not
      vote for it: its log would have been the more up to date. */
  lemma ConflictIsNoVote(s: State, p: Proc, m: LogRequest)
    requires L.Known(s, p) && VoteLog(s.hist, p.n) && p.n.term <= m.term
    requires L.LogRequestOk(s.hist, m) && CanLog(p.n.log, m) && Conflicts(p.n.log, m)
    ensures s.hist.tlog[m.term][m.prefixLength].term == m.term ==>
              !E.VotedFor(s.hist, p.n.me, m.term, s.hist.lead[m.term])
  {
    var h, t, log := s.hist, m.term, p.n.log;
    if h.tlog[t][m.prefixLength].term == t && E.VotedFor(h, p.n.me, t, h.lead[t]) {
      assert E.BallotOk(h, s.ids, t, h.ballots[Vote(p.n.me, t)]);
      OutvotesLeader(s, log, m);
    }
  }

  lemma OutvotesLeader(s: State, log: Log, m: LogRequest)
    requires L.Books(s) && L.Lined(s.hist, log) && L.LogRequestOk(s.hist, m) && CanLog(log, m) && Conflicts(log, m)
    requires s.hist.tlog[m.term][m.prefixLength].term == m.term
    ensures var start := L.ElectionLog(s.hist, m.term); !UpToDate(LastTerm(start), |start|, log)
  {
    var line, start := s.hist.tlog[m.term], L.ElectionLog(s.hist, m.term);
    L.BookTerms(s, m.term);
    assert L.LineOk(s.hist, m.term);
    assert forall k :: 0 <= k < |start| ==> line[k] == start[k] && line[k].term <= m.term - 1;
    L.PrefixMatches(s.hist, log, m);
    LastIsHighest(s, log, 0);
    if |start| > 0 {
      assert log[..m.prefixLength][|start| - 1] == line[..m.prefixLength][|start| - 1];
      LastIsHighest(s, log, |start| - 1);
    }
  }

  /** A follower that accepts an entry, storing it or not. */
  lemma AcceptedOk(fix: Repairs, s: State, p: Proc, m: LogRequest, n': NodeState)
    requires L.Known(s, p) && Ok(s.hist, p.n) && Accepts(fix, p.n, m) && p.n.term <= m.term && L.LogRequestOk(s.hist, m)
    requires n'.me == p.n.me && n'.term == m.term && n'.votedFor == -1 && n'.log == AcceptLog(fix, p.n.log, m)
    ensures Ok(Accepted(fix, s.hist, p.n, m), n')
  {
    var h, h' := s.hist, Accepted(fix, s.hist, p.n, m);
    L.MarkGrows(fix, h, p.n, m);
    if m.opTerm != -1 { L.AcceptedPrefix(fix, h, p.n.log, m); }
    AcceptedHollow(fix, s, p, m, n');
  }

  lemma AcceptedHollow(fix: Repairs, s: State, p: Proc, m: LogRequest, n': NodeState)
    requires L.Known(s, p) && Ok(s.hist, p.n) && Accepts(fix, p.n, m) && p.n.term <= m.term && L.LogRequestOk(s.hist, m)
    requires n'.me == p.n.me && n'.term == m.term && n'.votedFor == -1
    ensures HollowOk(Accepted(fix, s.hist, p.n, m), n')
  {
    var h' := Accepted(fix, s.hist, p.n, m);
    L.MarkGrows(fix, s.hist, p.n, m);
    if Conflicts(p.n.log, m) { ConflictIsNoVote(s, p, m); }
  }

  // ---- The steps ----

  lemma BeginElectionKeeps(fix: Repairs, s: State, i: int)
    requires L.Inv(s) && Inv(s) && CanBeginElection(s, i)
    ensures Inv(DoBeginElection(fix, s, i))
  {
    L.Knows(s, i);
    var n' := StartElection(fix, s.procs[i].n);
    var h := Cast(s.hist, i, n'.term, i, n'.log);
    L.CastGrows(s.hist, i, n'.term, i, n'.log);
    Rising(s.hist, h, s.procs[i], n');
    Frame(s, i, Proc(n', Electing), {}, h);
  }

  lemma DeliverVoteKeeps(s: State, i: int, m: VoteRequest)
    requires L.Inv(s) && Inv(s) && CanDeliverVote(s, i, m)
    ensures Inv(DoDeliverVote(s, i, m))
  {
    L.Knows(s, i);
    L.Candidate(s, i, m);
    var n := s.procs[i].n;
    VoterOk(s, s.procs[i], m);
    Frame(s, i, Proc(MeetCandidate(n, m), Free), {VoteReply(i, m, AnswerVote(n, m))}, Voted(s.hist, n, m));
  }

  lemma VoterOk(s: State, p: Proc, m: VoteRequest)
    requires L.Known(s, p) && Ok(s.hist, p.n) && m.id != -1
    ensures var h := Voted(s.hist, p.n, m);
            L.Grows(s.hist, h, p.n.me) && Grows(s.hist, h, p.n.me) && Ok(h, MeetCandidate(p.n, m))
  {
    L.CastGrows(s.hist, p.n.me, m.term, m.id, p.n.log);
    Rising(s.hist, Voted(s.hist, p.n, m), p, MeetCandidate(p.n, m));
  }

  lemma ReceiveVoteKeeps(fix: Repairs, s: State, i: int, r: VoteResponse)
    requires E.Sound(fix) && L.Inv(s) && Inv(s) && CanReceiveVote(s, i, r)
    ensures Inv(DoReceiveVote(fix, s, i, r))
  {
    L.Knows(s, i);
    L.WonGrows(fix, s, i, r);
    var h, p' := DoReceiveVote(fix, s, i, r).hist, Polled(fix, s.procs[i].n, r);
    Rising(s.hist, h, s.procs[i], p'.n);
    Frame(s, i, p', {}, h);
  }

  lemma UpdateKeeps(s: State, i: int, c: int, o: int)
    requires L.Inv(s) && Inv(s) && CanUpdate(s, i)
    ensures Inv(DoUpdate(s, i, c, o))
  {
    L.Knows(s, i);
    var n := s.procs[i].n;
    var h := Extend(s.hist, n, MapOp(n.term, c, o));
    L.ExtendGrows(s, s.procs[i], MapOp(n.term, c, o));
    Updated(s.hist, h, s.procs[i], ClientUpdate(n, c, o));
    Frame(s, i, Proc(ClientUpdate(n, c, o), Replicating), {}, h);
  }

  lemma DeliverLogKeeps(fix: Repairs, s: State, i: int, m: LogRequest)
    requires E.Sound(fix) && L.Inv(s) && Inv(s) && CanDeliverLog(fix, s, i, m)
    ensures Inv(DoDeliverLog(fix, s, i, m))
  {
    L.Knows(s, i);
    assert L.PacketOk(s.hist, LogCall(i, m));
    var n, h := s.procs[i].n, Accepted(fix, s.hist, s.procs[i].n, m);
    FollowerOk(fix, s, s.procs[i], m);
    Frame(s, i, Proc(TakeLog(fix, n, m), Free), {LogReply(i, m, AnswerLog(fix, n, m))}, h);
  }

  lemma FollowerOk(fix: Repairs, s: State, p: Proc, m: LogRequest)
    requires fix.termOrder && L.Known(s, p) && Ok(s.hist, p.n) && L.LogRequestOk(s.hist, m) && LogInBounds(fix, p.n, m)
    ensures var h := Accepted(fix, s.hist, p.n, m);
            L.Grows(s.hist, h, p.n.me) && Grows(s.hist, h, p.n.me) && Ok(h, TakeLog(fix, p.n, m))
  {
    L.MarkGrows(fix, s.hist, p.n, m);
    if Accepts(fix, p.n, m) {
      AcceptedOk(fix, s, p, m, TakeLog(fix, p.n, m));
    } else {
      Rising(s.hist, s.hist, p, TakeLog(fix, p.n, m));
    }
  }

  lemma OtherKeeps(fix: Repairs, s: State, st: Step)
    requires L.Inv(s) && Inv(s) && Enabled(fix, s, st) && LightStep(st)
    ensures Inv(After(fix, s, st))
  {
    L.Knows(s, st.i);
    LightStepKeeps(fix, s, st);
    var p' := After(fix, s, st).procs[st.i];
    L.SameHistory(s.hist, st.i);
    Rising(s.hist, s.hist, s.procs[st.i], p'.n);
    Frame(s, st.i, p', {}, s.hist);
    SameServers(Apply(s, st.i, p', {}, s.hist), After(fix, s, st));
  }

  lemma SameServers(s: State, s': State)
    requires Inv(s) && s'.ids == s.ids && s'.procs == s.procs && s'.hist == s.hist
    ensures Inv(s')
  {}

  lemma StepKeeps(fix: Repairs, s: State, st: Step)
    requires E.Sound(fix) && L.Inv(s) && Inv(s) && Enabled(fix, s, st)
    ensures Inv(After(fix, s, st))
  {
    match st
    case BeginElection(i) => BeginElectionKeeps(fix, s, i);
    case DeliverVote(i, m) => DeliverVoteKeeps(s, i, m);
    case ReceiveVote(i, r) => ReceiveVoteKeeps(fix, s, i, r);
    case Update(i, c, o) => UpdateKeeps(s, i, c, o);
    case DeliverLog(i, m) => DeliverLogKeeps(fix, s, i, m);
    case _ => OtherKeeps(fix, s, st);
  }

  lemma InitOk(s: State)
    requires Init(s)
    ensures Inv(s)
  {}

  // ---- With the truncation repaired ----

  predicate None(fix: Repairs, s: State) { fix.cutConflict ==> s.hist.hollow == {} }

  /** A follower that cuts conflicts acknowledges nothing it does not store. */
  lemma NoneKept(fix: Repairs, s: State, st: Step)
    requires None(fix, s) && Enabled(fix, s, st)
    ensures None(fix, After(fix, s, st))
  {}
}
