/** In a cluster of at most two servers there is never a second leader, as written: a server
    wins with the vote of the other, which has just stepped down to give it. */
module Duel {
  import opened RaftTypes
  import opened Handlers
  import opened Cluster

  predicate ProcOk(ids: set<int>, p: Proc, i: int) {
    && p.n.me == i
    && (p.n.status.Leader? ==> p.n.votedFor == i)
    && (p.lock.InElection() ==> p.n.votedFor == i)
    && (p.lock.AwaitVote? ==> p.lock.peer in ids && p.lock.peer != i && p.lock.voteReq.id == i)
  }

  /** Server `y` has a vote of server `x` to read. */
  ghost predicate Granted(s: State, y: int, x: int)
    requires y in s.procs
  {
    var l := s.procs[y].lock;
    l.AwaitVote? && l.peer == x && exists r: VoteResponse :: VoteReply(x, l.voteReq, r) in s.net && r.voted
  }

  /** Not both lead, and who gave a vote that is yet to be read neither leads nor reads one. */
  ghost predicate Apart(s: State, x: int, y: int)
    requires x in s.procs && y in s.procs
  {
    && !(s.procs[x].n.status.Leader? && s.procs[y].n.status.Leader?)
    && (Granted(s, y, x) ==> !s.procs[x].n.status.Leader? && !Granted(s, x, y))
  }

  ghost predicate Inv(s: State) {
    && |s.ids| <= 2 && s.procs.Keys == s.ids
    && (forall i :: i in s.ids ==> ProcOk(s.ids, s.procs[i], i))
    && (forall x, y :: x in s.ids && y in s.ids && x != y ==> Apart(s, x, y))
  }

  lemma TheOther(ids: set<int>, x: int, y: int, z: int)
    requires |ids| <= 2 && x in ids && y in ids && z in ids && x != y && z != y
    ensures z == x
  {
    var rest := ids - {x} - {y};
    assert |rest| == |ids| - 2;
    assert rest == {};
  }

  /** A mover that neither starts to lead nor asks for a vote, and gives none. */
  lemma Frame(s: State, i: int, p: Proc, sent: set<Packet>, h: History)
    requires Inv(s) && i in s.ids && ProcOk(s.ids, p, i)
    requires p.n.status.Leader? ==> s.procs[i].n.status.Leader?
    requires p.lock.AwaitVote? ==> p.lock == s.procs[i].lock
    requires forall v, m, r :: VoteReply(v, m, r) in sent ==> !r.voted
    ensures Inv(Apply(s, i, p, sent, h))
  {
    var s' := Apply(s, i, p, sent, h);
    forall x, y | x in s.ids && y in s.ids && x != y ensures Apart(s', x, y) {
      assert Apart(s, x, y) && Apart(s, y, x);
      assert Granted(s', y, x) ==> Granted(s, y, x);
      assert Granted(s', x, y) ==> Granted(s, x, y);
    }
  }

  lemma SendVoteKeeps(s: State, i: int, to: int)
    requires Inv(s) && CanSendVote(s, i, to)
    ensures Inv(DoSendVote(s, i, to))
  {
    var s' := DoSendVote(s, i, to);
    assert ProcOk(s.ids, s.procs[i], i);
    forall x, y | x in s.ids && y in s.ids && x != y ensures Apart(s', x, y) {
      assert Apart(s, x, y) && Apart(s, y, x);
      assert !Granted(s', i, to);
      if y == i { TheOther(s.ids, x, i, to); }
      assert Granted(s', y, x) ==> Granted(s, y, x);
    }
  }

  /** A voter gives its vote to the other server only when it does not lead. */
  lemma DeliverVoteKeeps(s: State, i: int, m: VoteRequest)
    requires Inv(s) && CanDeliverVote(s, i, m)
    ensures Inv(DoDeliverVote(s, i, m))
  {
    var s' := DoDeliverVote(s, i, m);
    assert ProcOk(s.ids, s.procs[i], i);
    forall x, y | x in s.ids && y in s.ids && x != y ensures Apart(s', x, y) {
      assert Apart(s, x, y) && Apart(s, y, x);
      assert ProcOk(s.ids, s.procs[y], y) && ProcOk(s.ids, s.procs[x], x);
      assert x != i ==> (Granted(s', y, x) ==> Granted(s, y, x));
      assert y != i ==> (Granted(s', x, y) ==> Granted(s, x, y));
    }
  }

  lemma ReceiveVoteKeeps(fix: Repairs, s: State, i: int, r: VoteResponse)
    requires Inv(s) && CanReceiveVote(s, i, r)
    ensures Inv(DoReceiveVote(fix, s, i, r))
  {
    var s', to := DoReceiveVote(fix, s, i, r), s.procs[i].lock.peer;
    assert ProcOk(s.ids, s.procs[i], i);
    forall x, y | x in s.ids && y in s.ids && x != y ensures Apart(s', x, y) {
      assert Apart(s, x, y) && Apart(s, y, x);
      assert Granted(s', y, x) ==> Granted(s, y, x);
      assert Granted(s', x, y) ==> Granted(s, x, y);
      if r.voted && (x == i || y == i) {
        TheOther(s.ids, if x == i then y else x, i, to);
        assert Granted(s, i, to);
      }
    }
  }

  lemma OtherKeeps(fix: Repairs, s: State, st: Step)
    requires Inv(s) && Enabled(fix, s, st) && !st.SendVote? && !st.DeliverVote? && !st.ReceiveVote? && !st.SendLog?
    requires !st.ReceiveLog?
    ensures Inv(After(fix, s, st))
  {
    var s' := After(fix, s, st);
    assert ProcOk(s.ids, s.procs[st.i], st.i);
    var sent := if st.DeliverLog? then {LogReply(st.i, st.log, AnswerLog(fix, s.procs[st.i].n, st.log))} else {};
    assert s' == Apply(s, st.i, s'.procs[st.i], sent, s'.hist);
    Frame(s, st.i, s'.procs[st.i], sent, s'.hist);
  }

  lemma SendLogKeeps(s: State, i: int, slot: nat)
    requires Inv(s) && CanSendLog(s, i, slot)
    ensures Inv(DoSendLog(s, i, slot))
  {
    var s', n := DoSendLog(s, i, slot), s.procs[i].n;
    assert ProcOk(s.ids, s.procs[i], i);
    forall x, y | x in s.ids && y in s.ids && x != y ensures Apart(s', x, y) {
      assert Apart(s, x, y);
      assert Granted(s', y, x) ==> Granted(s, y, x);
      assert Granted(s', x, y) ==> Granted(s, x, y);
    }
  }

  lemma ReceiveLogKeeps(fix: Repairs, s: State, i: int, r: LogResponse)
    requires Inv(s) && CanReceiveLog(s, i, r)
    ensures Inv(DoReceiveLog(fix, s, i, r))
  {
    var p := s.procs[i];
    assert ProcOk(s.ids, p, i);
    ReplyKeepsOffice(fix, p.n, p.lock.slot, r);
    Frame(s, i, Replied(fix, p.n, p.lock.slot, p.lock.logReq, r), {}, s.hist);
  }

  lemma ReplyKeepsOffice(fix: Repairs, n: NodeState, slot: nat, r: LogResponse)
    requires HasSlot(n, slot)
    ensures var n' := TakeLogResponse(fix, n, slot, r);
            n'.me == n.me && (n'.status.Leader? ==> n.status.Leader? && n'.votedFor == n.votedFor)
  {
    if r.term == n.term && n.status.Leader? && r.success {
      var n1 := n.(sent := n.sent[slot := r.ack], ack := n.ack[slot := r.ack]);
      ExecuteKeeps(n1, CommitPoint(fix, n1, |n1.log|));
    }
  }

  lemma StepKeeps(fix: Repairs, s: State, st: Step)
    requires Inv(s) && Enabled(fix, s, st)
    ensures Inv(After(fix, s, st))
  {
    match st
    case SendVote(i, to) => SendVoteKeeps(s, i, to);
    case DeliverVote(i, m) => DeliverVoteKeeps(s, i, m);
    case ReceiveVote(i, r) => ReceiveVoteKeeps(fix, s, i, r);
    case SendLog(i, slot) => SendLogKeeps(s, i, slot);
    case ReceiveLog(i, r) => ReceiveLogKeeps(fix, s, i, r);
    case _ => OtherKeeps(fix, s, st);
  }

  lemma InitOk(s: State)
    requires Init(s) && |s.ids| <= 2
    ensures Inv(s)
  {}

  lemma NextHolds(fix: Repairs, run: seq<State>, i: nat)
    requires Run(fix, run) && i + 1 < |run| && Inv(run[i])
    ensures Inv(run[i + 1])
  {
    var st := StepAt(fix, run, i);
    StepKeeps(fix, run[i], st);
  }

  lemma {:induction false} Holds(fix: Repairs, run: seq<State>, i: nat)
    requires Run(fix, run) && i < |run| && |run[0].ids| <= 2
    ensures Inv(run[i])
  {
    if i == 0 {
      InitOk(run[0]);
    } else {
      Holds(fix, run, i - 1);
      NextHolds(fix, run, i - 1);
    }
  }

  /** In no state of a run of at most two servers do both lead, in whatever terms. */
  lemma NeverBothLead(fix: Repairs, run: seq<State>, i: nat, a: int, b: int)
    requires Run(fix, run) && i < |run| && |run[0].ids| <= 2 && a in run[i].procs && b in run[i].procs
    requires run[i].procs[a].n.status.Leader? && run[i].procs[b].n.status.Leader?
    ensures a == b
  {
    Holds(fix, run, i);
    assert a != b ==> Apart(run[i], a, b);
  }

  // ---- A server alone ----

  /** A server without neighbours asks for no vote and hears from nobody. */
  ghost predicate Alone(s: State) {
    |s.ids| <= 1 && s.procs.Keys == s.ids && s.net == {}
    && forall i :: i in s.ids ==>
      var p := s.procs[i];
      (p.lock.Free? || p.lock.Electing?) && !p.n.status.Leader? && p.n.commitLength == 0
  }

  lemma OnlyOne(ids: set<int>, a: int, b: int)
    requires |ids| <= 1 && a in ids && b in ids
    ensures a == b
  {
    assert |ids - {a}| == |ids| - 1;
    assert ids - {a} == {};
  }

  lemma AloneNext(fix: Repairs, run: seq<State>, i: nat)
    requires Run(fix, run) && i + 1 < |run| && Alone(run[i])
    ensures Alone(run[i + 1])
  {
    var st := StepAt(fix, run, i);
    if st.SendVote? { OnlyOne(run[i].ids, st.i, st.to); }
  }

  lemma {:induction false} StaysAlone(fix: Repairs, run: seq<State>, i: nat)
    requires Run(fix, run) && i < |run| && |run[0].ids| <= 1
    ensures Alone(run[i]) && run[i].ids == run[0].ids
  {
    if i > 0 {
      StaysAlone(fix, run, i - 1);
      AloneNext(fix, run, i - 1);
      var st := StepAt(fix, run, i - 1);
      StepKeepsIds(fix, run[i - 1], st);
    }
  }
}
