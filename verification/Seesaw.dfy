/** Two servers when the term rule is as written: late requests take each of them back to an
    earlier term, and both lead the same term, one after the other. Their orders then stand in
    the same place of their logs, are acknowledged, and are committed. */
module Seesaw {
  import opened RaftTypes
  import opened Handlers
  import opened Cluster
  import opened Campaigns
  import opened Conflicts
  import S = Safety

  const Base := MapOp(4, 0, 5)
  const Mine := MapOp(3, 0, 7)
  const Yours := MapOp(3, 0, 8)

  ghost predicate Duo(fix: Repairs, s: State, a: int, b: int) {
    Reach(fix, s) && s.procs.Keys == s.ids && s.ids == {a, b} && a != b
  }

  /** A follower that has committed nothing. */
  predicate Follows(p: Proc, v: int, t: int, log: Log, members: seq<int>) {
    Retired(p, v, t, log, members) && p.n.status.Follower?
  }

  function EmptyBeat(c: int, t: int): LogRequest { LogRequest(c, t, 0, 0, 0, -1, -1, -1) }

  lemma OtherIsEnough(fix: Repairs, v: int)
    ensures JustEnough(fix, 2, {v})
  {}

  // ---- Requests that stay in the network ----

  /** A new leader's heartbeat is on its way, and its link fails. */
  lemma Beat(fix: Repairs, s: State, c: int, v: int, t: int) returns (s': State)
    requires Duo(fix, s, c, v) && Reigns(s.procs[c], c, t, [], [v, c])
    ensures Duo(fix, s', c, v) && Untouched(s, s', {c}) && LogCall(v, EmptyBeat(c, t)) in Calls(s')
    ensures Rests(s'.procs[c], c, t, []) && s'.procs[c].n.members == [v, c]
  {
    var s1 := ReachStep(fix, s, BeginReplicate(c));
    var s2 := ReachStep(fix, s1, SendLog(c, 0));
    var s3 := ReachStep(fix, s2, LoseLog(c));
    s' := ReachStep(fix, s3, EndReplicate(c));
  }

  /** It reaches a follower of a later term and takes it back. */
  lemma TakenBack(fix: Repairs, s: State, c: int, v: int, t: int) returns (s': State)
    requires !fix.termOrder && Duo(fix, s, c, v) && LogCall(v, EmptyBeat(c, t)) in Calls(s)
    requires Follows(s.procs[v], v, s.procs[v].n.term, s.procs[v].n.log, s.procs[v].n.members)
    ensures Duo(fix, s', c, v) && Untouched(s, s', {v})
    ensures Follows(s'.procs[v], v, t, s.procs[v].n.log, s.procs[v].n.members)
  {
    s' := ReachStep(fix, s, DeliverLog(v, EmptyBeat(c, t)));
  }

  /** Late heartbeats of `a` in term 1 and of `b` in term 2. */
  ghost predicate Saved(s: State, a: int, b: int) {
    LogCall(b, EmptyBeat(a, 1)) in Calls(s) && LogCall(a, EmptyBeat(b, 2)) in Calls(s)
  }

  /** Both go back, to term 2 and to term 1. */
  lemma BothBack(fix: Repairs, s: State, a: int, b: int, loga: Log, logb: Log) returns (s': State)
    requires !fix.termOrder && Duo(fix, s, a, b) && Saved(s, a, b)
    requires Follows(s.procs[a], a, s.procs[a].n.term, loga, [b, a])
    requires Follows(s.procs[b], b, s.procs[b].n.term, logb, [a, b])
    ensures Duo(fix, s', a, b) && Saved(s', a, b) && Calls(s) <= Calls(s')
    ensures Follows(s'.procs[a], a, 2, loga, [b, a]) && Follows(s'.procs[b], b, 1, logb, [a, b])
  {
    var s1 := TakenBack(fix, s, a, b, 1);
    s' := TakenBack(fix, s1, b, a, 2);
  }

  // ---- Elections ----

  /** A follower tries once in vain, and then stands with a log that is good enough. */
  lemma StandTwice(fix: Repairs, s: State, c: int, v: int, t: int, log: Log) returns (s': State)
    requires Duo(fix, s, c, v) && Retired(s.procs[c], c, t - 2, log, [v, c])
    ensures Duo(fix, s', c, v) && Untouched(s, s', {c}) && Bids(s'.procs[c], c, t, log, [v, c])
  {
    var s1 := StandAgain(fix, s, c, t - 1, log, [v, c]);
    var s2 := GiveUp(fix, s1, c);
    s' := StandAgain(fix, s2, c, t, log, [v, c]);
  }

  /** A candidate wins the other's vote and logs an order. */
  lemma Rule(fix: Repairs, s: State, c: int, v: int, t: int, log: Log, order: int) returns (s': State)
    requires Duo(fix, s, c, v) && Bids(s.procs[c], c, t, log, [v, c])
    requires var p := s.procs[v];
             p.n.term < t && Rests(p, v, p.n.term, p.n.log) && UpToDate(LastTerm(log), |log|, p.n.log)
    ensures Duo(fix, s', c, v) && Calls(s) <= Calls(s')
    ensures s'.procs[c].lock.Replicating? && Logged(s'.procs[c], c, t, log + [MapOp(t, 0, order)], [v, c])
    ensures Follows(s'.procs[v], v, t, s.procs[v].n.log, s.procs[v].n.members)
  {
    OtherIsEnough(fix, v);
    s' := Reign(fix, s, c, {v}, t, log, [v, c], order);
    assert HasVoted(s.procs[v], s'.procs[v], v, t);
  }

  // ---- The run ----

  lemma Rosters(ids: set<int>, a: int, b: int, members: seq<int>)
    requires ids == {a, b} && a != b && Members(ids, a, members)
    ensures members == [b, a]
  {
    assert |ids| == 2;
  }

  lemma Curtain(fix: Repairs, a: int, b: int) returns (s: State)
    requires a != b && -1 !in {a, b}
    ensures Duo(fix, s, a, b) && Retired(s.procs[a], a, 0, [], [b, a]) && Retired(s.procs[b], b, 0, [], [a, b])
  {
    var ids := {a, b};
    s := Opening(fix, ids);
    assert Newcomer(s, a) && Newcomer(s, b);
    Rosters(ids, a, b, s.procs[a].n.members);
    Rosters(ids, b, a, s.procs[b].n.members);
  }

  /** `a` leads term 1 and `b` leads term 2; their heartbeats are late. */
  lemma ActOne(fix: Repairs, a: int, b: int) returns (s: State)
    requires a != b && -1 !in {a, b}
    ensures Duo(fix, s, a, b) && Saved(s, a, b) && Retired(s.procs[a], a, 2, [], [b, a])
    ensures Rests(s.procs[b], b, 2, []) && s.procs[b].n.members == [a, b]
  {
    var s0 := Curtain(fix, a, b);
    OtherIsEnough(fix, b);
    var s1 := FirstElection(fix, s0, a, {b}, [b, a]);
    assert HasVoted(s0.procs[b], s1.procs[b], b, 1);
    var s2 := Beat(fix, s1, a, b, 1);
    s := SecondLeader(fix, s2, a, b);
  }

  lemma SecondLeader(fix: Repairs, s: State, a: int, b: int) returns (s': State)
    requires Duo(fix, s, a, b) && LogCall(b, EmptyBeat(a, 1)) in Calls(s)
    requires Rests(s.procs[a], a, 1, []) && s.procs[a].n.members == [b, a] && Retired(s.procs[b], b, 1, [], [a, b])
    ensures Duo(fix, s', a, b) && Saved(s', a, b) && Retired(s'.procs[a], a, 2, [], [b, a])
    ensures Rests(s'.procs[b], b, 2, []) && s'.procs[b].n.members == [a, b]
  {
    var s1 := StandAgain(fix, s, b, 2, [], [a, b]);
    OtherIsEnough(fix, a);
    var s2 := Elect(fix, s1, b, {a}, 2, [], [a, b]);
    assert HasVoted(s1.procs[a], s2.procs[a], a, 2);
    s' := Beat(fix, s2, b, a, 2);
  }

  /** The request that carries `a`'s order of term 4. */
  function BaseCall(a: int): LogRequest { LogRequest(a, 4, 0, 0, 0, 4, 0, 5) }

  /** `a` leads term 4; its order is stored by `b`, but the reply is lost. */
  lemma ActTwo(fix: Repairs, s: State, a: int, b: int) returns (s': State)
    requires Duo(fix, s, a, b) && Saved(s, a, b) && Retired(s.procs[a], a, 2, [], [b, a])
    requires Rests(s.procs[b], b, 2, []) && s.procs[b].n.members == [a, b]
    ensures Duo(fix, s', a, b) && Saved(s', a, b) && LogCall(b, BaseCall(a)) in Calls(s')
    ensures Rests(s'.procs[a], a, 4, [Base]) && s'.procs[a].n.members == [b, a]
    ensures Follows(s'.procs[b], b, 4, [Base], [a, b])
  {
    var s1 := StandTwice(fix, s, a, b, 4, []);
    var s2 := Rule(fix, s1, a, b, 4, [], 5);
    s' := ReplyIsLost(fix, s2, a, b);
  }

  lemma ReplyIsLost(fix: Repairs, s: State, a: int, b: int) returns (s': State)
    requires Duo(fix, s, a, b) && s.procs[a].lock.Replicating? && Logged(s.procs[a], a, 4, [Base], [b, a])
    requires Follows(s.procs[b], b, 4, [], [a, b])
    ensures Duo(fix, s', a, b) && Calls(s) <= Calls(s') && LogCall(b, BaseCall(a)) in Calls(s')
    ensures Rests(s'.procs[a], a, 4, [Base]) && s'.procs[a].n.members == [b, a]
    ensures Follows(s'.procs[b], b, 4, [Base], [a, b])
  {
    var s1 := ReachStep(fix, s, SendLog(a, 0));
    var s2 := BaseTaken(fix, s1, a, b);
    var s3 := ReachStep(fix, s2, LoseLog(a));
    s' := ReachStep(fix, s3, EndReplicate(a));
  }

  lemma BaseTaken(fix: Repairs, s: State, a: int, b: int) returns (s': State)
    requires Duo(fix, s, a, b) && LogCall(b, BaseCall(a)) in Calls(s) && Follows(s.procs[b], b, 4, [], [a, b])
    ensures Duo(fix, s', a, b) && Untouched(s, s', {b}) && Follows(s'.procs[b], b, 4, [Base], [a, b])
  {
    s' := ReachStep(fix, s, DeliverLog(b, BaseCall(a)));
  }

  /** The request with which `b` unseats `a`. */
  function Challenge(b: int): VoteRequest { VoteRequest(b, 5, 1, 4) }

  /** `b`'s timer runs out, `a`'s request comes in before it takes its lock, and it starts an
      election although it is a follower again. `a` steps down, and both are followers. */
  lemma ActThree(fix: Repairs, s: State, a: int, b: int) returns (s': State)
    requires Duo(fix, s, a, b) && Saved(s, a, b) && LogCall(b, BaseCall(a)) in Calls(s)
    requires Rests(s.procs[a], a, 4, [Base]) && s.procs[a].n.members == [b, a]
    requires Follows(s.procs[b], b, 4, [Base], [a, b])
    ensures Duo(fix, s', a, b) && Saved(s', a, b) && VoteCall(a, Challenge(b)) in Calls(s')
    ensures Follows(s'.procs[a], a, 5, [Base], [b, a]) && Follows(s'.procs[b], b, 5, [Base], [a, b])
  {
    var s1 := Race(fix, s, a, b);
    var s2 := Unseat(fix, s1, b, a);
    assert MakeVoteRequest(s1.procs[b].n) == Challenge(b);
    s' := GiveUp(fix, s2, b);
  }

  lemma Race(fix: Repairs, s: State, a: int, b: int) returns (s': State)
    requires Duo(fix, s, a, b) && LogCall(b, BaseCall(a)) in Calls(s) && Follows(s.procs[b], b, 4, [Base], [a, b])
    ensures Duo(fix, s', a, b) && Untouched(s, s', {b}) && s'.procs[b].lock.Electing?
    ensures Follows(Proc(s'.procs[b].n, Free), b, 5, [Base], [a, b])
  {
    var s1 := ReachStep(fix, s, Timeout(b));
    var s2 := ReachStep(fix, s1, DeliverLog(b, BaseCall(a)));
    s' := ReachStep(fix, s2, BeginElection(b));
  }

  /** The request that carries `a`'s order of term 3. */
  function MineCall(a: int): LogRequest { LogRequest(a, 3, 1, 4, 0, 3, 0, 7) }

  /** `a` leads term 3; its order does not get through. */
  lemma ActFour(fix: Repairs, s: State, a: int, b: int) returns (s': State)
    requires Duo(fix, s, a, b) && Saved(s, a, b) && VoteCall(a, Challenge(b)) in Calls(s)
    requires Follows(s.procs[a], a, 2, [Base], [b, a]) && Follows(s.procs[b], b, 1, [Base], [a, b])
    ensures Duo(fix, s', a, b) && Saved(s', a, b) && VoteCall(a, Challenge(b)) in Calls(s')
    ensures LogCall(b, MineCall(a)) in Calls(s')
    ensures Rests(s'.procs[a], a, 3, [Base, Mine]) && s'.procs[a].n.members == [b, a]
    ensures Follows(s'.procs[b], b, 3, [Base], [a, b])
  {
    var s1 := StandAgain(fix, s, a, 3, [Base], [b, a]);
    var s2 := Rule(fix, s1, a, b, 3, [Base], 7);
    assert [Base] + [MapOp(3, 0, 7)] == [Base, Mine];
    s' := RequestIsLost(fix, s2, a, b);
  }

  lemma RequestIsLost(fix: Repairs, s: State, a: int, b: int) returns (s': State)
    requires Duo(fix, s, a, b) && s.procs[a].lock.Replicating? && Logged(s.procs[a], a, 3, [Base, Mine], [b, a])
    ensures Duo(fix, s', a, b) && Untouched(s, s', {a}) && LogCall(b, MineCall(a)) in Calls(s')
    ensures Rests(s'.procs[a], a, 3, [Base, Mine]) && s'.procs[a].n.members == [b, a]
  {
    var s1 := ReachStep(fix, s, SendLog(a, 0));
    var s2 := ReachStep(fix, s1, LoseLog(a));
    s' := ReachStep(fix, s2, EndReplicate(a));
  }

  /** `b`'s old request unseats `a` once more. */
  lemma ActFive(fix: Repairs, s: State, a: int, b: int) returns (s': State)
    requires Duo(fix, s, a, b) && VoteCall(a, Challenge(b)) in Calls(s)
    requires Rests(s.procs[a], a, 3, [Base, Mine]) && s.procs[a].n.members == [b, a]
    ensures Duo(fix, s', a, b) && Untouched(s, s', {a}) && Follows(s'.procs[a], a, 5, [Base, Mine], [b, a])
  {
    s' := ReachStep(fix, s, DeliverVote(a, Challenge(b)));
  }

  /** `b` leads term 3 as well, because its log ends in the later term, and logs its order. */
  lemma ActSix(fix: Repairs, s: State, a: int, b: int) returns (s': State)
    requires Duo(fix, s, a, b)
    requires Follows(s.procs[a], a, 2, [Base, Mine], [b, a]) && Follows(s.procs[b], b, 1, [Base], [a, b])
    ensures Duo(fix, s', a, b) && Calls(s) <= Calls(s')
    ensures Follows(s'.procs[a], a, 3, [Base, Mine], [b, a])
    ensures s'.procs[b].lock.Replicating? && Logged(s'.procs[b], b, 3, [Base, Yours], [a, b])
  {
    var s1 := StandTwice(fix, s, b, a, 3, [Base]);
    s' := Rule(fix, s1, b, a, 3, [Base], 8);
    assert [Base] + [MapOp(3, 0, 8)] == [Base, Yours];
  }

  /** Without repair C: `b` leads term 3 after `a` has sent a request as leader of term 3. */
  lemma LeadInTurn(fix: Repairs, a: int, b: int) returns (s: State)
    requires !fix.termOrder && a != b && -1 !in {a, b}
    ensures Duo(fix, s, a, b) && LogCall(b, MineCall(a)) in s.net
    ensures Follows(s.procs[a], a, 3, [Base, Mine], [b, a])
    ensures s.procs[b].lock.Replicating? && Logged(s.procs[b], b, 3, [Base, Yours], [a, b])
  {
    var s1 := FirstActs(fix, a, b);
    var s2 := BothBack(fix, s1, a, b, [Base], [Base]);
    var s3 := ActFour(fix, s2, a, b);
    var s4 := ActFive(fix, s3, a, b);
    var s5 := BothBack(fix, s4, a, b, [Base, Mine], [Base]);
    s := ActSix(fix, s5, a, b);
  }

  lemma FirstActs(fix: Repairs, a: int, b: int) returns (s: State)
    requires a != b && -1 !in {a, b}
    ensures Duo(fix, s, a, b) && Saved(s, a, b) && VoteCall(a, Challenge(b)) in Calls(s)
    ensures Follows(s.procs[a], a, 5, [Base], [b, a]) && Follows(s.procs[b], b, 5, [Base], [a, b])
  {
    var s1 := ActOne(fix, a, b);
    var s2 := ActTwo(fix, s1, a, b);
    s := ActThree(fix, s2, a, b);
  }

  // ---- What comes of it ----

  /** `b` commits both its entries once `a` has acknowledged them. */
  lemma CommitsTwo(fix: Repairs, n: NodeState)
    requires n.log == [Base, Yours] && n.term == 3 && n.commitLength == 0 && |n.members| == 2 && n.ack == [2, 2]
    ensures var n' := CommitLog(fix, n);
            n' == n.(commitLength := 2, record := n'.record)
  {
    calc {
      CountAck([2, 2], 2);
      { assert [2, 2][..1] == [2]; }
      CountAck([2], 2) + 1;
      { assert [2][..0] == []; }
      2;
    }
    assert Acked(fix, n, 2);
    ExecuteKeeps(n, CommitPoint(fix, n, 2));
  }

  /** `a` acknowledges an order it does not hold. */
  lemma Acknowledged(fix: Repairs, a: int, b: int) returns (s: State)
    requires !fix.termOrder && a != b && -1 !in {a, b}
    ensures Duo(fix, s, a, b) && HollowAck(s, b, 0)
    ensures Follows(s.procs[a], a, 3, [Base, Mine], [b, a])
    ensures var n := s.procs[b].n;
            && s.procs[b].lock.Replicating? && n.me == b && n.term == 3 && n.log == [Base, Yours] && n.commitLength == 2
            && n.status.Leader? && n.members == [a, b] && n.sent == [2, 1] && |n.ack| == 2
  {
    var s0 := LeadInTurn(fix, a, b);
    var n := s0.procs[b].n;
    assert n.sent == [1, 1] && n.ack == [0, 2];
    CommitsTwo(fix, n.(sent := [2, 1], ack := [2, 2]));
    assert n.sent[0 := 2] == [2, 1] && n.ack[0 := 2] == [2, 2];
    s := Exchange(fix, s0, b, a, 0);
  }

  /** Two heartbeats make `a` commit its own order in the place of `b`'s. */
  lemma TurnsCommit(fix: Repairs, a: int, b: int) returns (s: State)
    requires !fix.termOrder && a != b && -1 !in {a, b}
    ensures Duo(fix, s, a, b) && !S.AgreeOnCommitted(s.procs[a].n, s.procs[b].n)
  {
    var s0 := Acknowledged(fix, a, b);
    var beat := LogRequest(b, 3, 2, 3, 2, -1, -1, -1);
    var s1 := ReachStep(fix, s0, SendLog(b, 0));
    var s2 := ReachStep(fix, s1, DeliverLog(a, beat));
    s := ReachStep(fix, s2, DeliverLog(a, beat));
    assert s.procs[a].n.log[1] != s.procs[b].n.log[1];
  }
}
