/** A cluster of at most two servers needs no truncation: every election takes both votes, so
    a new leader has everything the other server has, and no request ever meets a conflict. */
module TwoServers {
  import opened RaftTypes
  import opened Handlers
  import opened Cluster
  import E = Elections
  import L = Logs
  import H = Hollows

  /** The latest term that has had a leader. */
  ghost predicate Top(h: History, u: int) {
    u in h.lead && forall t :: t in h.lead ==> t <= u
  }

  ghost predicate Beyond(h: History, w: int) {
    forall t :: t in h.lead ==> t < w
  }

  /** A log is within the latest leader's log, and a server that has voted since has not
      changed it. */
  ghost predicate Within(h: History, n: NodeState) {
    && (forall u :: Top(h, u) && u in h.tlog ==> n.log <= h.tlog[u])
    && (h.lead == map[] ==> n.log == [])
    && (forall w :: Vote(n.me, w) in h.ballots && Beyond(h, w) ==> h.ballots[Vote(n.me, w)].log == n.log)
  }

  ghost predicate Inv(s: State) {
    |s.ids| <= 2 && forall i :: i in s.ids ==> i in s.procs && Within(s.hist, s.procs[i].n)
  }

  /** Every leader had every server's vote. */
  lemma VotedForLeader(s: State, t: int, v: int)
    requires L.Inv(s) && |s.ids| <= 2 && t in s.hist.lead && v in s.ids
    ensures E.VotedFor(s.hist, v, t, s.hist.lead[t]) && t <= s.procs[v].n.term
  {
    L.Knows(s, v);
    assert E.Elected(s.hist, s.ids, t, s.hist.lead[t]);
    var q :| E.Majority(s.ids, q) && E.AllVoted(s.hist, q, t, s.hist.lead[t]);
    E.Everyone(s.ids, q);
  }

  lemma TopIs(s: State, i: int, t: int)
    requires L.Inv(s) && |s.ids| <= 2 && i in s.ids && t in s.hist.lead && s.procs[i].n.term <= t
    ensures Top(s.hist, t) && s.procs[i].n.term == t
  {
    forall u | u in s.hist.lead ensures u <= t { VotedForLeader(s, u, i); }
    VotedForLeader(s, t, i);
  }

  // ---- No conflicts ----

  /** A request that a server accepts finds no entry of another term in its place. */
  lemma NoConflict(fix: Repairs, s: State, i: int, m: LogRequest)
    requires fix.termOrder && L.Inv(s) && Inv(s) && i in s.ids && LogCall(i, m) in s.net
             && Accepts(fix, s.procs[i].n, m)
    ensures !Conflicts(s.procs[i].n.log, m) && Top(s.hist, m.term) && s.procs[i].n.term == m.term
  {
    assert L.PacketOk(s.hist, LogCall(i, m));
    TopIs(s, i, m.term);
    assert Within(s.hist, s.procs[i].n);
  }

  // ---- Steps ----

  lemma OtherKept(h: History, h': History, i: int, n: NodeState)
    requires L.LinesOk(h) && L.Grows(h, h', i) && h'.lead == h.lead && n.me != i && Within(h, n)
    ensures Within(h', n)
  {
    forall u | Top(h', u) && u in h'.tlog ensures n.log <= h'.tlog[u] { assert Top(h, u); }
    forall w | Vote(n.me, w) in h'.ballots && Beyond(h', w) ensures h'.ballots[Vote(n.me, w)].log == n.log {
      assert Beyond(h, w);
    }
  }

  lemma Frame(s: State, i: int, p: Proc, sent: set<Packet>, h: History)
    requires E.Shape(s) && L.LinesOk(s.hist) && Inv(s) && i in s.ids
    requires L.Grows(s.hist, h, i) && h.lead == s.hist.lead
    requires Within(h, p.n)
    ensures Inv(Apply(s, i, p, sent, h))
  {
    forall j | j in s.ids && j != i ensures Within(h, s.procs[j].n) { OtherKept(s.hist, h, i, s.procs[j].n); }
  }

  /** A mover that keeps its log, and at most casts votes with it. */
  lemma Idles(h: History, h': History, n: NodeState, n': NodeState)
    requires Within(h, n) && L.Grows(h, h', n.me) && h'.lead == h.lead && n'.me == n.me && n'.log == n.log
    requires forall w :: Vote(n.me, w) in h'.ballots && Vote(n.me, w) !in h.ballots ==>
               h'.ballots[Vote(n.me, w)].log == n.log
    requires L.LinesOk(h)
    ensures Within(h', n')
  {
    forall u | Top(h', u) && u in h'.tlog ensures n.log <= h'.tlog[u] { assert Top(h, u); }
    forall w | Vote(n.me, w) in h'.ballots && Beyond(h', w) ensures h'.ballots[Vote(n.me, w)].log == n.log {
      assert Beyond(h, w);
    }
  }

  lemma BeginElectionKeeps(fix: Repairs, s: State, i: int)
    requires L.Inv(s) && Inv(s) && CanBeginElection(s, i)
    ensures Inv(DoBeginElection(fix, s, i))
  {
    var n, n' := s.procs[i].n, StartElection(fix, s.procs[i].n);
    L.CastGrows(s.hist, i, n'.term, i, n'.log);
    Idles(s.hist, Cast(s.hist, i, n'.term, i, n'.log), n, n');
    Frame(s, i, Proc(n', Electing), {}, Cast(s.hist, i, n'.term, i, n'.log));
  }

  lemma DeliverVoteKeeps(s: State, i: int, m: VoteRequest)
    requires L.Inv(s) && Inv(s) && CanDeliverVote(s, i, m)
    ensures Inv(DoDeliverVote(s, i, m))
  {
    var n, n' := s.procs[i].n, MeetCandidate(s.procs[i].n, m);
    L.CastGrows(s.hist, i, m.term, m.id, n.log);
    Idles(s.hist, Voted(s.hist, n, m), n, n');
    Frame(s, i, Proc(n', Free), {VoteReply(i, m, AnswerVote(n, m))}, Voted(s.hist, n, m));
  }

  /** Of two logs on one line, the one that is not less up to date holds the other. */
  lemma UpToDateHolds(s: State, line: Log, bid: Log, log: Log)
    requires L.Books(s) && L.Lined(s.hist, log) && bid <= line && log <= line
    requires UpToDate(LastTerm(bid), |bid|, log)
    ensures log <= bid
  {
    assert forall k :: 0 <= k < |bid| && k < |log| ==> bid[k] == line[k] == log[k];
    if |bid| < |log| { H.LastIsHighest(s, log, if bid == [] then 0 else |bid| - 1); }
  }

  /** A winner has every vote in a term later than all leaders', and votes go to logs that
      are not less up to date. */
  lemma WinnerVotes(fix: Repairs, s: State, i: int, r: VoteResponse, v: int)
    requires E.Sound(fix) && L.Inv(s) && |s.ids| <= 2 && CanReceiveVote(s, i, r) && v in s.ids
    requires TakeVote(fix, s.procs[i].n, r).status.Leader?
    ensures var h, n := s.hist, s.procs[i].n;
            && n.me == i && s.procs[v].n.me == v && Beyond(h, n.term) && Vote(i, n.term) in h.ballots
                && Vote(v, n.term) in h.ballots
            && var bid := h.ballots[Vote(i, n.term)].log;
               UpToDate(LastTerm(bid), |bid|, h.ballots[Vote(v, n.term)].log)
  {
    var h, t := s.hist, s.procs[i].n.term;
    E.Wins(fix, s, i, r);
    L.Knows(s, i);
    L.Knows(s, v);
    forall u | u in h.lead ensures u < t { VotedForLeader(s, u, i); }
    var q :| E.Majority(s.ids, q) && E.AllVoted(h, q, t, i);
    E.Everyone(s.ids, q);
    assert E.VotedFor(h, v, t, i) && E.BallotOk(h, s.ids, t, h.ballots[Vote(v, t)]);
  }

  /** A winner's log holds every log. */
  lemma WinnerHolds(fix: Repairs, s: State, i: int, r: VoteResponse, v: int)
    requires E.Sound(fix) && L.Inv(s) && Inv(s) && CanReceiveVote(s, i, r) && v in s.ids
    requires TakeVote(fix, s.procs[i].n, r).status.Leader?
    ensures Beyond(s.hist, s.procs[i].n.term) && s.procs[v].n.log <= s.procs[i].n.log
  {
    WinnerVotes(fix, s, i, r, v);
    assert Within(s.hist, s.procs[i].n) && Within(s.hist, s.procs[v].n);
    L.Knows(s, v);
    BidHolds(s, s.procs[i].n, s.procs[v].n);
  }

  lemma BidHolds(s: State, n: NodeState, voter: NodeState)
    requires L.Books(s) && Within(s.hist, n) && Within(s.hist, voter) && L.Lined(s.hist, voter.log)
    requires UpToDate(LastTerm(n.log), |n.log|, voter.log)
    ensures voter.log <= n.log
  {
    var h := s.hist;
    if h.lead != map[] {
      var u := Latest(h.lead.Keys);
      assert Top(h, u);
      UpToDateHolds(s, h.tlog[u], n.log, voter.log);
    }
  }

  lemma Latest(ts: set<int>) returns (u: int)
    requires ts != {}
    ensures u in ts && forall t :: t in ts ==> t <= u
  {
    assert (forall t :: t !in ts) ==> ts == {};
    u :| u in ts;
    if ts != {u} {
      assert ts == (ts - {u}) + {u};
      var w := Latest(ts - {u});
      if w > u { u := w; }
    }
  }

  /** The winner's log holds every server's log. */
  lemma HoldsAll(fix: Repairs, s: State, i: int, r: VoteResponse)
    requires E.Sound(fix) && L.Inv(s) && Inv(s) && CanReceiveVote(s, i, r)
    requires TakeVote(fix, s.procs[i].n, r).status.Leader?
    ensures forall v :: v in s.ids ==> Beyond(s.hist, s.procs[i].n.term) && s.procs[v].n.log <= s.procs[i].n.log
  {
    forall v | v in s.ids { WinnerHolds(fix, s, i, r, v); }
  }

  lemma CrownedAll(s: State, n': NodeState)
    requires Inv(s) && forall v :: v in s.ids ==> Beyond(s.hist, n'.term) && s.procs[v].n.log <= n'.log
    ensures forall v :: v in s.ids ==> Within(Crown(s.hist, n'), s.procs[v].n)
  {
    forall v | v in s.ids ensures Within(Crown(s.hist, n'), s.procs[v].n) { Crowned(s.hist, n', s.procs[v].n); }
  }

  lemma CrownKeeps(s: State, i: int, n': NodeState)
    requires E.Shape(s) && Inv(s) && i in s.ids && n'.me == i && n'.log == s.procs[i].n.log
    requires forall v :: v in s.ids ==> Beyond(s.hist, n'.term) && s.procs[v].n.log <= n'.log
    ensures Inv(Apply(s, i, Proc(n', Free), {}, Crown(s.hist, n')))
  {
    CrownedAll(s, n');
    assert Within(Crown(s.hist, n'), n');
  }

  /** The winner's term is now the latest. */
  lemma Crowned(h: History, n': NodeState, n: NodeState)
    requires Within(h, n) && Beyond(h, n'.term) && n.log <= n'.log
    ensures forall u :: Top(Crown(h, n'), u) ==> u == n'.term
    ensures Within(Crown(h, n'), n)
  {
    var h' := Crown(h, n');
    forall u | Top(h', u) ensures u == n'.term { assert n'.term in h'.lead; }
    forall w | Vote(n.me, w) in h'.ballots && Beyond(h', w) ensures h'.ballots[Vote(n.me, w)].log == n.log {
      forall t | t in h.lead ensures t < w { assert t in h'.lead; }
      assert Beyond(h, w);
    }
  }

  lemma PollKeeps(fix: Repairs, s: State, i: int, r: VoteResponse)
    requires E.Shape(s) && L.LinesOk(s.hist) && Inv(s) && CanReceiveVote(s, i, r) && i in s.ids
    ensures Inv(Apply(s, i, Polled(fix, s.procs[i].n, r), {}, s.hist))
  {
    L.SameHistory(s.hist, i);
    Idles(s.hist, s.hist, s.procs[i].n, Polled(fix, s.procs[i].n, r).n);
    Frame(s, i, Polled(fix, s.procs[i].n, r), {}, s.hist);
  }

  lemma WonKeeps(fix: Repairs, s: State, i: int, r: VoteResponse)
    requires E.Shape(s) && Inv(s) && CanReceiveVote(s, i, r) && TakeVote(fix, s.procs[i].n, r).status.Leader?
    requires forall v :: v in s.ids ==> Beyond(s.hist, s.procs[i].n.term) && s.procs[v].n.log <= s.procs[i].n.log
    ensures Inv(DoReceiveVote(fix, s, i, r))
  {
    CrownKeeps(s, i, TakeVote(fix, s.procs[i].n, r));
  }

  lemma ReceiveVoteKeeps(fix: Repairs, s: State, i: int, r: VoteResponse)
    requires E.Sound(fix) && L.Inv(s) && Inv(s) && CanReceiveVote(s, i, r)
    ensures Inv(DoReceiveVote(fix, s, i, r))
  {
    if TakeVote(fix, s.procs[i].n, r).status.Leader? {
      HoldsAll(fix, s, i, r);
      WonKeeps(fix, s, i, r);
    } else {
      PollKeeps(fix, s, i, r);
    }
  }

  lemma UpdateKeeps(s: State, i: int, c: int, o: int)
    requires L.Inv(s) && Inv(s) && CanUpdate(s, i)
    ensures Inv(DoUpdate(s, i, c, o))
  {
    L.Knows(s, i);
    TopIs(s, i, s.procs[i].n.term);
    UpdaterWithin(s, s.procs[i], c, o);
    var n := s.procs[i].n;
    Frame(s, i, Proc(ClientUpdate(n, c, o), Replicating), {}, Extend(s.hist, n, MapOp(n.term, c, o)));
  }

  lemma UpdaterWithin(s: State, p: Proc, c: int, o: int)
    requires L.Known(s, p) && p.n.status.Leader? && 0 < |p.n.ack| && Top(s.hist, p.n.term)
    ensures var h := Extend(s.hist, p.n, MapOp(p.n.term, c, o));
            L.Grows(s.hist, h, p.n.me) && h.lead == s.hist.lead && Within(h, ClientUpdate(p.n, c, o))
  {
    var h, n' := Extend(s.hist, p.n, MapOp(p.n.term, c, o)), ClientUpdate(p.n, c, o);
    L.ExtendGrows(s, p, MapOp(p.n.term, c, o));
    Logged(s.hist, h, p.n, n');
  }

  /** A server of the latest leader's term that has come to lie on that leader's log. */
  lemma Logged(h: History, h': History, n: NodeState, n': NodeState)
    requires Top(h, n'.term) && h'.lead == h.lead && h'.ballots == h.ballots
    requires n'.me == n.me && n'.term in h'.tlog && n'.log <= h'.tlog[n'.term]
    requires forall w :: Vote(n.me, w) in h.ballots ==> w <= n'.term
    ensures Within(h', n')
  {
    forall u | Top(h', u) ensures u == n'.term { assert Top(h, u); }
    forall w | Vote(n.me, w) in h'.ballots ensures !Beyond(h', w) { assert n'.term in h'.lead; }
  }

  lemma DeliverLogKeeps(fix: Repairs, s: State, i: int, m: LogRequest)
    requires E.Sound(fix) && L.Inv(s) && Inv(s) && CanDeliverLog(fix, s, i, m)
    ensures Inv(DoDeliverLog(fix, s, i, m))
  {
    var n, n', h := s.procs[i].n, TakeLog(fix, s.procs[i].n, m), Accepted(fix, s.hist, s.procs[i].n, m);
    L.Knows(s, i);
    L.MarkGrows(fix, s.hist, n, m);
    if Accepts(fix, n, m) {
      NoConflict(fix, s, i, m);
      StaysWithin(fix, s, i, m);
      Logged(s.hist, h, n, n');
    } else {
      Idles(s.hist, h, n, n');
    }
    Frame(s, i, Proc(n', Free), {LogReply(i, m, AnswerLog(fix, n, m))}, h);
  }

  lemma StaysWithin(fix: Repairs, s: State, i: int, m: LogRequest)
    requires L.Inv(s) && Inv(s) && i in s.ids && LogCall(i, m) in s.net && Accepts(fix, s.procs[i].n, m)
    requires !Conflicts(s.procs[i].n.log, m) && Top(s.hist, m.term)
    ensures m.term in s.hist.tlog && AcceptLog(fix, s.procs[i].n.log, m) <= s.hist.tlog[m.term]
  {
    assert L.PacketOk(s.hist, LogCall(i, m)) && Within(s.hist, s.procs[i].n);
    L.Knows(s, i);
    LongerWithin(fix, s.hist, s.procs[i].n, m);
  }

  lemma LongerWithin(fix: Repairs, h: History, n: NodeState, m: LogRequest)
    requires L.LinesOk(h) && L.Lined(h, n.log) && L.LogRequestOk(h, m) && Within(h, n) && Top(h, m.term)
    requires CanLog(n.log, m) && !Conflicts(n.log, m)
    ensures AcceptLog(fix, n.log, m) <= h.tlog[m.term]
  {
    if m.opTerm != -1 { L.AcceptedPrefix(fix, h, n.log, m); }
  }

  lemma OtherKeeps(fix: Repairs, s: State, st: Step)
    requires E.Shape(s) && L.LinesOk(s.hist) && Inv(s) && Enabled(fix, s, st) && LightStep(st)
    ensures Inv(After(fix, s, st))
  {
    LightStepKeeps(fix, s, st);
    var n, p' := s.procs[st.i].n, After(fix, s, st).procs[st.i];
    L.SameHistory(s.hist, st.i);
    Idles(s.hist, s.hist, n, p'.n);
    Frame(s, st.i, p', {}, s.hist);
    SameServers(Apply(s, st.i, p', {}, s.hist), After(fix, s, st));
  }

  lemma SameServers(s: State, s': State)
    requires Inv(s) && s'.ids == s.ids && s'.procs == s.procs && s'.hist == s.hist
    ensures Inv(s')
  {}

  lemma StepKeeps(fix: Repairs, s: State, st: Step)
    requires E.Sound(fix) && L.Inv(s) && Inv(s) && Enabled(fix, s, st)
    ensures Inv(After(fix, s, st))
  {
    match st
    case BeginElection(i) => BeginElectionKeeps(fix, s, i);
    case DeliverVote(i, m) => DeliverVoteKeeps(s, i, m);
    case ReceiveVote(i, r) => ReceiveVoteKeeps(fix, s, i, r);
    case Update(i, c, o) => UpdateKeeps(s, i, c, o);
    case DeliverLog(i, m) => DeliverLogKeeps(fix, s, i, m);
    case _ => OtherKeeps(fix, s, st);
  }

  lemma InitOk(s: State)
    requires Init(s) && |s.ids| <= 2
    ensures Inv(s)
  {}

  // ---- The truncation changes no step ----

  lemma SameStep(fix: Repairs, fix': Repairs, s: State, st: Step)
    requires fix.termOrder && fix' == fix.(cutConflict := true) && L.Inv(s) && Inv(s) && Enabled(fix, s, st)
    ensures Enabled(fix', s, st) && After(fix', s, st) == After(fix, s, st)
  {
    match st
    case DeliverLog(i, m) =>
      if Accepts(fix, s.procs[i].n, m) { NoConflict(fix, s, i, m); }
      SameDelivery(fix, fix', s, i, m);
    case ReceiveLog(_, r) => SameReply(fix, fix', s.procs[st.i], r);
    case _ =>
  }

  lemma SameDelivery(fix: Repairs, fix': Repairs, s: State, i: int, m: LogRequest)
    requires fix' == fix.(cutConflict := true) && CanDeliverLog(fix, s, i, m)
    requires Accepts(fix, s.procs[i].n, m) ==> !Conflicts(s.procs[i].n.log, m)
    ensures CanDeliverLog(fix', s, i, m) && DoDeliverLog(fix', s, i, m) == DoDeliverLog(fix, s, i, m)
  {}

  lemma NextHolds(fix: Repairs, run: seq<State>, i: nat)
    requires E.Sound(fix) && Run(fix, run) && i + 1 < |run| && Inv(run[i])
    ensures Inv(run[i + 1])
  {
    L.Holds(fix, run, i);
    var st := StepAt(fix, run, i);
    StepKeeps(fix, run[i], st);
  }

  lemma {:induction false} Holds(fix: Repairs, run: seq<State>, i: nat)
    requires E.Sound(fix) && Run(fix, run) && i < |run| && |run[0].ids| <= 2
    ensures Inv(run[i])
  {
    if i == 0 {
      InitOk(run[0]);
    } else {
      Holds(fix, run, i - 1);
      NextHolds(fix, run, i - 1);
    }
  }

  /** A run of at most two servers without the truncation is also a run with it. */
  lemma UncutRuns(fix: Repairs, fix': Repairs, run: seq<State>)
    requires E.Sound(fix) && Run(fix, run) && |run[0].ids| <= 2 && fix' == fix.(cutConflict := true)
    ensures Run(fix', run)
  {
    forall i | 0 <= i < |run| - 1 ensures NextAt(fix', run, i) {
      L.Holds(fix, run, i);
      Holds(fix, run, i);
      var st := StepAt(fix, run, i);
      SameStep(fix, fix', run[i], st);
    }
  }
}
