/** Who is who in the messages and in a server's fields, in every run, as written: a request
    names the leader or candidate that sent it, a reply names the server that gave it and is
    of no earlier term than the request, and a leader knows that it leads. */
module Names {
  import opened RaftTypes
  import opened Handlers
  import opened Cluster

  // ---- What every step keeps ----

  predicate PacketOk(ids: set<int>, p: Packet) {
    match p
    case VoteCall(_, m) => m.id in ids
    case VoteReply(v, m, r) => r.id == v && v in ids && m.term <= r.term && (r.voted ==> r.term == m.term)
    case LogCall(_, m) => m.leaderId in ids
    case LogReply(v, m, r) =>
      && r.followerId == v && v in ids && m.term <= r.term
      && (r.success ==> r.term == m.term && r.ack == m.prefixLength + 1)
  }

  predicate ProcOk(ids: set<int>, p: Proc, i: int) {
    && p.n.me == i
    && (p.n.status.Leader? ==> p.n.leaderId == i)
    && (p.n.leaderId == -1 || p.n.leaderId in ids)
    && (p.lock.InReplication() ==> p.n.status.Leader?)
    && (p.lock.AwaitLog? ==> p.lock.logReq.leaderId == i && p.lock.logReq.term == p.n.term)
    && (p.lock.AwaitVote? ==> p.lock.voteReq.id == i && p.lock.voteReq.term == p.n.term)
  }

  ghost predicate Inv(s: State) {
    && s.procs.Keys == s.ids && -1 !in s.ids
    && (forall i :: i in s.ids ==> ProcOk(s.ids, s.procs[i], i))
    && (forall p :: p in s.net ==> PacketOk(s.ids, p))
  }

  /** A step that adds `sent` and changes one server. */
  lemma Frame(s: State, i: int, s': State, sent: set<Packet>)
    requires Inv(s) && i in s.ids && s'.ids == s.ids && s'.net <= s.net + sent
    requires i in s'.procs && s'.procs == s.procs[i := s'.procs[i]]
    requires ProcOk(s.ids, s'.procs[i], i) && forall p :: p in sent ==> PacketOk(s.ids, p)
    ensures Inv(s')
  {}

  lemma ReplyKeeps(fix: Repairs, n: NodeState, slot: nat, m: LogRequest, r: LogResponse)
    requires HasSlot(n, slot)
    ensures var n' := TakeReply(fix, n, slot, m, r);
            && n'.me == n.me && n'.leaderId == n.leaderId && (n'.status.Leader? ==> n.status.Leader?)
            && (NoReply(r) || m.opTerm == -1 || r.term <= n.term ==> n'.status == n.status && n'.term == n.term)
  {
    if r.term == n.term && n.status.Leader? && r.success {
      var n1 := n.(sent := n.sent[slot := r.ack], ack := n.ack[slot := r.ack]);
      ExecuteKeeps(n1, CommitPoint(fix, n1, |n1.log|));
    }
  }

  lemma ReceiveLogKeeps(fix: Repairs, s: State, i: int, r: LogResponse)
    requires Inv(s) && CanReceiveLog(s, i, r)
    ensures Inv(DoReceiveLog(fix, s, i, r))
  {
    var p := s.procs[i];
    assert ProcOk(s.ids, p, i);
    ReplyKeeps(fix, p.n, p.lock.slot, p.lock.logReq, r);
    Frame(s, i, DoReceiveLog(fix, s, i, r), {});
  }

  function SentBy(fix: Repairs, s: State, st: Step): set<Packet>
    requires Enabled(fix, s, st)
  {
    match st
    case SendVote(i, to) => {VoteCall(to, MakeVoteRequest(s.procs[i].n))}
    case DeliverVote(i, m) => {VoteReply(i, m, AnswerVote(s.procs[i].n, m))}
    case SendLog(i, slot) => {LogCall(s.procs[i].n.members[slot], MakeLogRequest(s.procs[i].n, slot))}
    case DeliverLog(i, m) => {LogReply(i, m, AnswerLog(fix, s.procs[i].n, m))}
    case _ => {}
  }

  lemma OtherKeeps(fix: Repairs, s: State, st: Step)
    requires Inv(s) && Enabled(fix, s, st) && !st.ReceiveLog?
    ensures Inv(After(fix, s, st))
  {
    assert ProcOk(s.ids, s.procs[st.i], st.i);
    assert st.DeliverLog? ==> PacketOk(s.ids, LogCall(st.i, st.log));
    Moves(fix, s, st);
    Frame(s, st.i, After(fix, s, st), SentBy(fix, s, st));
  }

  lemma Moves(fix: Repairs, s: State, st: Step)
    requires Enabled(fix, s, st) && !st.ReceiveLog? && ProcOk(s.ids, s.procs[st.i], st.i) && st.i in s.ids
    requires st.DeliverLog? ==> st.log.leaderId in s.ids
    ensures var s' := After(fix, s, st);
            s'.procs == s.procs[st.i := s'.procs[st.i]] && ProcOk(s.ids, s'.procs[st.i], st.i)
    ensures var s' := After(fix, s, st); s'.ids == s.ids && s'.net <= s.net + SentBy(fix, s, st)
    ensures forall p :: p in SentBy(fix, s, st) ==> PacketOk(s.ids, p)
  {
    MoverStays(fix, s, st);
    SendsOk(fix, s, st);
  }

  lemma MoverStays(fix: Repairs, s: State, st: Step)
    requires Enabled(fix, s, st) && !st.ReceiveLog? && ProcOk(s.ids, s.procs[st.i], st.i) && st.i in s.ids
    requires st.DeliverLog? ==> st.log.leaderId in s.ids
    ensures var s' := After(fix, s, st);
            s'.procs == s.procs[st.i := s'.procs[st.i]] && ProcOk(s.ids, s'.procs[st.i], st.i)
  {}

  lemma SendsOk(fix: Repairs, s: State, st: Step)
    requires Enabled(fix, s, st) && !st.ReceiveLog? && ProcOk(s.ids, s.procs[st.i], st.i) && st.i in s.ids
    ensures var s' := After(fix, s, st); s'.ids == s.ids && s'.net <= s.net + SentBy(fix, s, st)
    ensures forall p :: p in SentBy(fix, s, st) ==> PacketOk(s.ids, p)
  {}

  lemma StepKeeps(fix: Repairs, s: State, st: Step)
    requires Inv(s) && Enabled(fix, s, st)
    ensures Inv(After(fix, s, st))
  {
    if st.ReceiveLog? { ReceiveLogKeeps(fix, s, st.i, st.logResp); } else { OtherKeeps(fix, s, st); }
  }

  lemma InitOk(s: State)
    requires Init(s)
    ensures Inv(s)
  {}

  lemma NextHolds(fix: Repairs, run: seq<State>, i: nat)
    requires Run(fix, run) && i + 1 < |run| && Inv(run[i])
    ensures Inv(run[i + 1])
  {
    var st := StepAt(fix, run, i);
    StepKeeps(fix, run[i], st);
  }

  lemma {:induction false} Holds(fix: Repairs, run: seq<State>, i: nat)
    requires Run(fix, run) && i < |run|
    ensures Inv(run[i])
  {
    if i == 0 {
      InitOk(run[0]);
    } else {
      Holds(fix, run, i - 1);
      NextHolds(fix, run, i - 1);
    }
  }

  // ---- Replies ----

  /** A reply that arrives names a server, so it never makes a leader take its follower for
      failed; and it is of no earlier term than the leader's. */
  lemma NeverCleans(fix: Repairs, run: seq<State>, i: nat, a: int, r: LogResponse)
    requires Run(fix, run) && i < |run| && CanReceiveLog(run[i], a, r)
    ensures var p := run[i].procs[a];
            && r.followerId == p.n.members[p.lock.slot] && r.followerId != -1 && p.n.term <= r.term
            && (p.lock.logReq.opTerm == -1 ==>
                  DoReceiveLog(fix, run[i], a, r).procs[a] == Proc(p.n, Replicating))
            && (p.lock.logReq.opTerm != -1 && r.term > p.n.term ==>
                  var n' := DoReceiveLog(fix, run[i], a, r).procs[a].n;
                  n'.term == r.term && n'.status.Follower? && n'.votedFor == -1 && n'.votes == {} && n'.log == p.n.log)
  {
    Holds(fix, run, i);
    var p := run[i].procs[a];
    assert ProcOk(run[i].ids, p, a);
    assert PacketOk(run[i].ids, LogReply(p.n.members[p.lock.slot], p.lock.logReq, r));
  }

  /** A candidate that asks a server of a later term ends its election as a follower of that
      term, whatever the two have in their logs; the other server stays as it was. */
  lemma Rebuffed(fix: Repairs, s: State, c: int, v: int)
    requires CanSendVote(s, c, v) && v in s.procs && s.procs[v].lock.Free?
    requires s.procs[c].n.term < s.procs[v].n.term
    ensures var n := s.procs[c].n;
            var m, r := VoteRequest(n.me, n.term, |n.log|, if n.log == [] then 0 else n.log[|n.log| - 1].term),
                VoteResponse(s.procs[v].n.me, s.procs[v].n.term, false);
            && CanDeliverVote(DoSendVote(s, c, v), v, m)
            && var s2 := DoDeliverVote(DoSendVote(s, c, v), v, m);
               && s2.procs[v] == s.procs[v] && (forall r' :: CanReceiveVote(s2, c, r') <==> r' == r)
               && DoReceiveVote(fix, s2, c, r).procs[c] ==
                  Proc(n.(term := s.procs[v].n.term, status := Follower, votedFor := -1, votes := {}), Free)
  {
    var m := MakeVoteRequest(s.procs[c].n);
    var s1 := DoSendVote(s, c, v);
    assert s1.procs[c].lock == AwaitVote(v, m);
    var s2 := DoDeliverVote(s1, v, m);
    forall r | CanReceiveVote(s2, c, r) ensures r == VoteResponse(s.procs[v].n.me, s.procs[v].n.term, false) {
      assert VoteReply(v, m, r) !in s1.net;
    }
  }

  // ---- Leaders ----

  predicate LedAt(s: State, a: int, t: int) {
    a in s.procs && s.procs[a].n.status.Leader? && s.procs[a].n.term == t
  }

  /** Whoever sent a log request led its term at some earlier moment, and knew it. */
  lemma {:induction false} SentByLeader(fix: Repairs, run: seq<State>, j: nat, to: int, m: LogRequest) returns (i: nat)
    requires Run(fix, run) && j < |run| && LogCall(to, m) in run[j].net
    ensures i <= j && LedAt(run[i], m.leaderId, m.term) && run[i].procs[m.leaderId].n.leaderId == m.leaderId
  {
    assert j > 0;
    i := j - 1;
    if LogCall(to, m) in run[j - 1].net {
      i := SentByLeader(fix, run, j - 1, to, m);
    } else {
      Holds(fix, run, j - 1);
      SenderLeads(fix, run, j - 1, to, m);
    }
  }

  lemma SenderLeads(fix: Repairs, run: seq<State>, i: nat, to: int, m: LogRequest)
    requires Run(fix, run) && i + 1 < |run| && Inv(run[i])
    requires LogCall(to, m) !in run[i].net && LogCall(to, m) in run[i + 1].net
    ensures LedAt(run[i], m.leaderId, m.term) && run[i].procs[m.leaderId].n.leaderId == m.leaderId
  {
    var st := StepAt(fix, run, i);
    assert st.SendLog?;
    assert ProcOk(run[i].ids, run[i].procs[st.i], st.i);
  }

  /** The server that a follower takes for its leader led at some earlier moment. */
  lemma {:induction false} LeaderLed(fix: Repairs, run: seq<State>, j: nat, a: int) returns (i: nat, t: int)
    requires Run(fix, run) && j < |run| && a in run[j].procs && run[j].procs[a].n.leaderId != -1
    ensures i <= j && LedAt(run[i], run[j].procs[a].n.leaderId, t)
  {
    Holds(fix, run, j);
    assert ProcOk(run[j].ids, run[j].procs[a], a);
    if run[j].procs[a].n.status.Leader? { return j, run[j].procs[a].n.term; }
    assert j > 0;
    var st := StepAt(fix, run, j - 1);
    StepKeepsIds(fix, run[j - 1], st);
    NewLeaderId(fix, run[j - 1], st, a);
    if run[j - 1].procs[a].n.leaderId == run[j].procs[a].n.leaderId {
      i, t := LeaderLed(fix, run, j - 1, a);
    } else {
      t := st.log.term;
      i := SentByLeader(fix, run, j - 1, a, st.log);
    }
  }

  /** Only a log request gives a follower another leader. */
  lemma NewLeaderId(fix: Repairs, s: State, st: Step, a: int)
    requires Enabled(fix, s, st) && a in s.procs && !After(fix, s, st).procs[a].n.status.Leader?
    ensures var n, n' := s.procs[a].n, After(fix, s, st).procs[a].n;
            n'.leaderId != n.leaderId ==> st.DeliverLog? && st.i == a && n'.leaderId == st.log.leaderId
  {
    if st.ReceiveLog? && st.i == a {
      var p := s.procs[a];
      ReplyKeeps(fix, p.n, p.lock.slot, p.lock.logReq, st.logResp);
    }
  }
}
