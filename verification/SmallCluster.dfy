/** In a cluster of at most three servers the election as written is already sound:
    a candidate wins with the first vote it is given, so it never enters an election with
    a vote other than its own. */
module SmallCluster {
  import opened RaftTypes
  import opened Handlers
  import opened Cluster

  ghost predicate ProcOk(p: Proc, size: nat) {
    && |p.n.members| == size
    && (!p.n.status.Leader? ==> p.n.votes <= {p.n.me})
    && (p.lock.InElection() ==> !p.n.status.Leader? && p.n.votes == {p.n.me})
    && (p.lock.AwaitVote? ==> p.lock.peer != p.n.me)
    && (p.lock.InReplication() ==> p.n.status.Leader?)
  }

  ghost predicate Inv(s: State) {
    && s.procs.Keys == s.ids && |s.ids| <= 3
    && (forall i :: i in s.ids ==> s.procs[i].n.me == i && ProcOk(s.procs[i], |s.ids|))
    && (forall v, m, r :: VoteReply(v, m, r) in s.net ==> r.id == v)
  }

  lemma PollKeeps(fix: Repairs, n: NodeState, r: VoteResponse)
    requires ProcOk(Proc(n, AwaitVote(r.id, VoteRequest(0, 0, 0, 0))), |n.members|) && |n.members| <= 3
    ensures ProcOk(Polled(fix, n, r), |n.members|)
    ensures forall fix': Repairs :: Polled(fix', n, r) == Polled(fix, n, r)
  {}

  lemma ReplyKeeps(fix: Repairs, p: Proc, r: LogResponse)
    requires ProcOk(p, |p.n.members|) && p.lock.AwaitLog? && HasSlot(p.n, p.lock.slot)
    ensures var p' := Replied(fix, p.n, p.lock.slot, p.lock.logReq, r); ProcOk(p', |p.n.members|) && p'.n.me == p.n.me
  {
    var n, slot := p.n, p.lock.slot;
    if r.term == n.term && r.success {
      var n1 := n.(sent := n.sent[slot := r.ack], ack := n.ack[slot := r.ack]);
      ExecuteKeeps(n1, CommitPoint(fix, n1, |n1.log|));
    }
  }

  /** A step keeps the invariant if the mover does and its replies carry its own id. */
  lemma Frame(s: State, i: int, p: Proc, sent: set<Packet>, h: History)
    requires Inv(s) && i in s.ids && p.n.me == i && ProcOk(p, |s.ids|)
    requires forall v, m, r :: VoteReply(v, m, r) in sent ==> r.id == v
    ensures Inv(Apply(s, i, p, sent, h))
  {}

  lemma ReceiveVoteKeeps(fix: Repairs, s: State, i: int, r: VoteResponse)
    requires Inv(s) && CanReceiveVote(s, i, r)
    ensures Inv(DoReceiveVote(fix, s, i, r))
  {}

  lemma DeliverLogKeeps(fix: Repairs, s: State, i: int, m: LogRequest)
    requires Inv(s) && CanDeliverLog(fix, s, i, m)
    ensures Inv(DoDeliverLog(fix, s, i, m))
  {}

  lemma ReceiveLogKeeps(fix: Repairs, s: State, i: int, r: LogResponse)
    requires Inv(s) && CanReceiveLog(s, i, r)
    ensures Inv(DoReceiveLog(fix, s, i, r))
  {
    assert ProcOk(s.procs[i], |s.ids|);
    ReplyKeeps(fix, s.procs[i], r);
    Frame(s, i, Replied(fix, s.procs[i].n, s.procs[i].lock.slot, s.procs[i].lock.logReq, r), {}, s.hist);
  }

  lemma SendVoteKeeps(s: State, i: int, to: int)
    requires Inv(s) && CanSendVote(s, i, to)
    ensures Inv(DoSendVote(s, i, to))
  {}

  lemma DeliverVoteKeeps(s: State, i: int, m: VoteRequest)
    requires Inv(s) && CanDeliverVote(s, i, m)
    ensures Inv(DoDeliverVote(s, i, m))
  {}

  lemma StepKeeps(fix: Repairs, s: State, st: Step)
    requires Inv(s) && Enabled(fix, s, st)
    ensures Inv(After(fix, s, st))
  {
    match st
    case SendVote(i, to) => SendVoteKeeps(s, i, to);
    case DeliverVote(i, m) => DeliverVoteKeeps(s, i, m);
    case ReceiveVote(i, r) => ReceiveVoteKeeps(fix, s, i, r);
    case DeliverLog(i, m) => DeliverLogKeeps(fix, s, i, m);
    case ReceiveLog(i, r) => ReceiveLogKeeps(fix, s, i, r);
    case SendLog(i, slot) => SendLogKeeps(s, i, slot);
    case _ => QuietKeeps(fix, s, st);
  }

  lemma SendLogKeeps(s: State, i: int, slot: nat)
    requires Inv(s) && CanSendLog(s, i, slot)
    ensures Inv(DoSendLog(s, i, slot))
  {}

  /** The steps that send nothing. */
  lemma QuietKeeps(fix: Repairs, s: State, st: Step)
    requires Inv(s) && Enabled(fix, s, st)
    requires st.Timeout? || st.BeginElection? || st.LoseVote? || st.EndElection? || st.Update? || st.BeginReplicate?
             || st.LoseLog? || st.EndReplicate?
    ensures Inv(After(fix, s, st))
  {
    var s' := After(fix, s, st);
    assert ProcOk(s.procs[st.i], |s.ids|);
    Frame(s, st.i, s'.procs[st.i], {}, s'.hist);
  }

  /** The election repairs change no step of a small cluster. */
  lemma SameStep(fix: Repairs, fix': Repairs, s: State, st: Step)
    requires Inv(s) && Enabled(fix, s, st) && fix' == fix.(quorum := true, freshVotes := true)
    ensures Enabled(fix', s, st) && After(fix', s, st) == After(fix, s, st)
  {
    var p := s.procs[st.i];
    assert ProcOk(p, |s.ids|);
    match st
    case BeginElection(_) => assert p.n.votes + {p.n.me} == {p.n.me};
    case ReceiveVote(_, r) => PollKeeps(fix, p.n, r);
    case DeliverLog(_, m) => SameDelivery(fix, fix', p.n, m);
    case ReceiveLog(_, r) => SameReply(fix, fix', p, r);
    case _ =>
  }

  lemma SameDelivery(fix: Repairs, fix': Repairs, n: NodeState, m: LogRequest)
    requires LogInBounds(fix, n, m) && fix' == fix.(quorum := true, freshVotes := true)
    ensures LogInBounds(fix', n, m) && TakeLog(fix', n, m) == TakeLog(fix, n, m)
    ensures AnswerLog(fix', n, m) == AnswerLog(fix, n, m) && Accepts(fix', n, m) == Accepts(fix, n, m)
  {}

  lemma InitOk(s: State)
    requires Init(s) && |s.ids| <= 3
    ensures Inv(s)
  {}

  lemma NextHolds(fix: Repairs, run: seq<State>, i: nat)
    requires Run(fix, run) && i + 1 < |run| && Inv(run[i])
    ensures Inv(run[i + 1]) && run[i + 1].ids == run[i].ids
  {
    var st := StepAt(fix, run, i);
    StepKeeps(fix, run[i], st);
    StepKeepsIds(fix, run[i], st);
  }

  lemma {:induction false} Holds(fix: Repairs, run: seq<State>, i: nat)
    requires Run(fix, run) && i < |run| && |run[0].ids| <= 3
    ensures Inv(run[i]) && run[i].ids == run[0].ids
  {
    if i == 0 {
      InitOk(run[0]);
    } else {
      Holds(fix, run, i - 1);
      NextHolds(fix, run, i - 1);
    }
  }

  lemma SmallRuns(fix: Repairs, fix': Repairs, run: seq<State>)
    requires Run(fix, run) && |run[0].ids| <= 3 && fix' == fix.(quorum := true, freshVotes := true)
    ensures Run(fix', run)
  {
    forall i | 0 <= i < |run| - 1 ensures NextAt(fix', run, i) {
      Holds(fix, run, i);
      var st := StepAt(fix, run, i);
      SameStep(fix, fix', run[i], st);
    }
  }
}
