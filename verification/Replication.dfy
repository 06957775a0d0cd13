/** A call of ReplicateLog in the cluster: each turn of its course is a request that is sent,
    handled or lost, and answered or lost. So a call from a reachable state leads through
    reachable states, and everything that holds in those holds along it. */
module Replication {
  import opened RaftTypes
  import opened Handlers
  import opened Cluster
  import CU = CatchUp
  import K = Courses
  import R = Replaying

  /** A server without its own slots. */
  function Plain(n: NodeState): NodeState { n.(sent := [], ack := []) }

  /** Server `i` replicates and the servers of its slots are free; together they are where
      course `c` is. */
  ghost predicate Mirrors(s: State, i: int, c: K.Course) {
    && s.procs.Keys == s.ids && i in s.ids && s.procs[i] == Proc(c.l, if c.down then Free else Replicating)
    && |c.fs| == |c.l.members| - 1
    && (forall j, k :: 0 <= j < k < |c.fs| ==> c.l.members[j] != c.l.members[k])
    && (forall j :: 0 <= j < |c.fs| ==>
          && c.l.members[j] in s.ids && c.l.members[j] != i
          && s.procs[c.l.members[j]].lock.Free? && Plain(s.procs[c.l.members[j]].n) == c.fs[j])
  }

  /** The server of a slot, and the leader, after an exchange. */
  lemma Mirrored(s: State, s': State, i: int, c: K.Course, c': K.Course, slot: nat)
    requires Mirrors(s, i, c) && slot < |c.fs| == |c'.fs| && c'.l.members == c.l.members
    requires s'.ids == s.ids && s'.procs.Keys == s.ids
    requires s'.procs[i] == Proc(c'.l, if c'.down then Free else Replicating)
    requires var v := c.l.members[slot];
             && s'.procs[v].lock.Free? && Plain(s'.procs[v].n) == c'.fs[slot]
             && forall u :: u in s.ids && u != i && u != v ==> s'.procs[u] == s.procs[u]
    requires forall j :: 0 <= j < |c.fs| && j != slot ==> c'.fs[j] == c.fs[j]
    ensures Mirrors(s', i, c')
  {}

  /** A request that is lost: by a link that fails, or at a socket that is closed. */
  lemma LostTurn(fix: Repairs, s: State, i: int, c: K.Course, c': K.Course, slot: nat) returns (s': State)
    requires Reach(fix, s) && Mirrors(s, i, c) && !c.down && slot < |c.fs| && SendInBounds(c.l, slot)
    requires c'.l == CleanNodeState(c.l, slot) && c'.fs == c.fs && !c'.down
    ensures Reach(fix, s') && s'.ids == s.ids && Mirrors(s', i, c')
  {
    var s1 := ReachStep(fix, s, SendLog(i, slot));
    s' := ReachStep(fix, s1, LoseLog(i));
    Mirrored(s, s', i, c, c', slot);
  }

  /** The request arrives. */
  lemma Arrives(fix: Repairs, s: State, i: int, c: K.Course, slot: nat) returns (s': State)
    requires Reach(fix, s) && Mirrors(s, i, c) && !c.down && slot < |c.fs| && K.CanServe(fix, c.l, slot, c.fs[slot])
    ensures Reach(fix, s') && s'.ids == s.ids && s'.procs.Keys == s.ids
    ensures var v, m := c.l.members[slot], MakeLogRequest(c.l, slot);
            && s'.procs[i] == Proc(c.l, AwaitLog(slot, m))
            && s'.procs[v].lock.Free? && Plain(s'.procs[v].n) == TakeLog(fix, c.fs[slot], m)
            && (forall u :: u in s.ids && u != i && u != v ==> s'.procs[u] == s.procs[u])
            && LogReply(v, m, AnswerLog(fix, c.fs[slot], m)) in s'.net
  {
    var v, m := c.l.members[slot], MakeLogRequest(c.l, slot);
    K.SlotsIdle(fix, s.procs[v].n, m);
    var s1 := ReachStep(fix, s, SendLog(i, slot));
    s' := ReachStep(fix, s1, DeliverLog(v, m));
  }

  lemma UnansweredTurn(fix: Repairs, s: State, i: int, c: K.Course, c': K.Course, slot: nat) returns (s': State)
    requires Reach(fix, s) && Mirrors(s, i, c) && !c.down && slot < |c.fs| && K.CanServe(fix, c.l, slot, c.fs[slot])
    requires c'.l == CleanNodeState(c.l, slot) && !c'.down
    requires c'.fs == c.fs[slot := TakeLog(fix, c.fs[slot], MakeLogRequest(c.l, slot))]
    ensures Reach(fix, s') && s'.ids == s.ids && Mirrors(s', i, c')
  {
    var s1 := Arrives(fix, s, i, c, slot);
    s' := ReachStep(fix, s1, LoseLog(i));
    Mirrored(s, s', i, c, c', slot);
  }

  /** What the leader makes of a response is the same in both models. */
  lemma SameHearing(fix: Repairs, l: NodeState, slot: nat, r: LogResponse)
    requires SendInBounds(l, slot) && R.Positive(l.log)
    ensures TakeReply(fix, l, slot, MakeLogRequest(l, slot), r) == CU.HearReply(fix, l, slot, r)
    ensures CU.HearReply(fix, l, slot, r).members == l.members
    ensures MakeLogRequest(l, slot).opTerm == -1 <==> l.sent[slot] == |l.log|
  {
    var l1 := l.(sent := l.sent[slot := r.ack], ack := l.ack[slot := r.ack]);
    ExecuteKeeps(l1, CommitPoint(fix, l1, |l1.log|));
  }

  lemma AnsweredTurn(fix: Repairs, s: State, i: int, c: K.Course, c': K.Course, slot: nat) returns (s': State)
    requires Reach(fix, s) && Mirrors(s, i, c) && !c.down && slot < |c.fs| == |c.taken|
    requires K.CanServe(fix, c.l, slot, c.fs[slot]) && c.fs[slot].me != -1 && R.Positive(c.l.log)
    requires c' == K.Exchanged(fix, c, slot, CU.Up)
    ensures Reach(fix, s') && s'.ids == s.ids && Mirrors(s', i, c')
  {
    var m := MakeLogRequest(c.l, slot);
    var r := AnswerLog(fix, c.fs[slot], m);
    SameHearing(fix, c.l, slot, r);
    var s1 := Arrives(fix, s, i, c, slot);
    s' := ReachStep(fix, s1, ReceiveLog(i, r));
    Mirrored(s, s', i, c, c', slot);
  }

  /** A turn of a course is a few steps of the cluster. */
  lemma TurnIsSteps(fix: Repairs, faults: seq<seq<CU.Link>>, s: State, i: int, c: K.Course, c': K.Course)
    returns (s': State)
    requires Reach(fix, s) && Mirrors(s, i, c) && K.Ready(fix, c) && K.Serves(fix, faults, c, c')
    ensures Reach(fix, s') && s'.ids == s.ids && Mirrors(s', i, c')
  {
    var slot := c.sockets[c.at];
    if slot in c.broken {
      s' := LostTurn(fix, s, i, c, c', slot);
    } else {
      var link := CU.LinkAt(faults, slot, c.taken[slot]);
      match link
      case Up => s' := AnsweredTurn(fix, s, i, c, c', slot);
      case RequestLost => s' := LostTurn(fix, s, i, c, c', slot);
      case ReplyLost => s' := UnansweredTurn(fix, s, i, c, c', slot);
    }
  }

  /** A call that starts in a reachable state ends in one, with leader and followers as the
      course has them. */
  lemma {:induction false} CallIsRun(fix: Repairs, faults: seq<seq<CU.Link>>, trace: seq<K.Course>, s: State, i: int)
    returns (s': State)
    requires Reach(fix, s) && K.Played(fix, faults, trace) && K.Starts(fix, trace[0]) && Mirrors(s, i, trace[0])
    ensures Reach(fix, s') && s'.ids == s.ids && Mirrors(s', i, K.Latest(trace))
    decreases |trace|
  {
    var n := |trace| - 1;
    if n == 0 { return s; }
    K.FirstPart(fix, faults, trace, n);
    var s1 := CallIsRun(fix, faults, trace[..n], s, i);
    K.AlwaysGoing(fix, faults, trace[..n]);
    assert K.Goes(fix, faults, trace, n - 1);
    if K.Serves(fix, faults, trace[n - 1], trace[n]) {
      s' := TurnIsSteps(fix, faults, s1, i, trace[n - 1], trace[n]);
    } else {
      s' := s1;
    }
  }
}
