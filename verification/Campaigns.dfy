/** Pieces of runs: elections, updates and exchanges of one server with a group of others.
    The runs that show where the code as written fails are put together from them. */
module Campaigns {
  import opened RaftTypes
  import opened Handlers
  import opened Cluster

  // ---- Sets of servers ----

  lemma TakeSome(from: set<int>, k: nat) returns (part: set<int>)
    requires k <= |from|
    ensures part <= from && |part| == k
  {
    if k == 0 { return {}; }
    var v := PickFrom(from);
    part := TakeSome(from - {v}, k - 1);
    part := part + {v};
  }

  lemma PickFrom(s: set<int>) returns (v: int)
    requires s != {}
    ensures v in s
  {
    assert (forall u :: u !in s) ==> s == {};
    v :| v in s;
  }

  lemma RestOf(zone: set<int>, v: int)
    requires v in zone
    ensures |zone - {v}| == |zone| - 1 && (zone != {v} <==> zone - {v} != {})
  {
    assert zone == (zone - {v}) + {v};
  }

  lemma Pair(ids: set<int>) returns (a: int, b: int)
    requires |ids| == 2
    ensures ids == {a, b} && a != b
  {
    a := PickFrom(ids);
    RestOf(ids, a);
    b := PickFrom(ids - {a});
    var rest := ids - {a};
    RestOf(rest, b);
    assert |rest - {b}| == 0;
    assert rest == {b};
    assert ids == rest + {a};
  }

  /** Two servers and, among the others, half of all. */
  lemma Choose(ids: set<int>) returns (a: int, c: int, zone: set<int>)
    requires |ids| >= 3
    ensures a in ids && c in ids && a != c && zone <= ids && a !in zone && c !in zone && |zone| == |ids| / 2
  {
    a := PickFrom(ids);
    var rest := ids - {a};
    assert |rest| == |ids| - 1;
    c := PickFrom(rest);
    var others := rest - {c};
    zone := TakeSome(others, |ids| / 2);
  }

  // ---- Servers at rest ----

  /** What a piece of a run leaves alone: the other servers, and requests already sent. */
  ghost predicate Untouched(s: State, s': State, touched: set<int>) {
    s.procs.Keys == s.ids && s'.ids == s.ids && s'.procs.Keys == s.ids && Calls(s) <= Calls(s')
    && forall j :: j in s.ids && j !in touched ==> s'.procs[j] == s.procs[j]
  }

  /** A server nobody is talking to, that has committed nothing. */
  predicate Rests(p: Proc, v: int, term: int, log: Log) {
    p.lock.Free? && p.n.me == v && p.n.term == term && p.n.log == log && p.n.commitLength == 0
  }

  /** A server out of office, without votes of others. */
  predicate Retired(p: Proc, v: int, term: int, log: Log, members: seq<int>) {
    Rests(p, v, term, log) && !p.n.status.Leader? && p.n.votes <= {v} && p.n.members == members
  }

  predicate AllRest(s: State, zone: set<int>, term: int, log: Log) {
    zone <= s.procs.Keys && forall v :: v in zone ==> Rests(s.procs[v], v, term, log)
  }

  /** A server that has not done anything yet, with a roster of all servers. */
  predicate Newcomer(s: State, v: int)
    requires v in s.procs
  {
    var p := s.procs[v];
    && Retired(p, v, 0, [], p.n.members) && p.n.votes == {} && Members(s.ids, v, p.n.members)
    && forall u :: u in s.ids ==> u in p.n.members
  }

  predicate AllNew(s: State, zone: set<int>) {
    zone <= s.procs.Keys && forall v :: v in zone ==> Newcomer(s, v)
  }

  lemma StartsNew(ids: set<int>, v: int)
    requires -1 !in ids && v in ids
    ensures v in Start(ids).procs && Newcomer(Start(ids), v)
  {}

  lemma Opening(fix: Repairs, ids: set<int>) returns (s: State)
    requires -1 !in ids
    ensures Reach(fix, s) && s.ids == ids && s.procs.Keys == ids && AllNew(s, ids)
  {
    forall v | v in ids ensures Newcomer(Start(ids), v) { StartsNew(ids, v); }
    StartReachable(fix, ids);
    s := Start(ids);
  }

  lemma StillNew(s: State, s': State, touched: set<int>, zone: set<int>)
    requires Untouched(s, s', touched) && zone !! touched && zone <= s.ids && AllNew(s, zone)
    ensures AllNew(s', zone)
  {
    forall v | v in zone ensures Newcomer(s', v) { assert Newcomer(s, v); }
  }

  lemma NewRest(s: State, zone: set<int>)
    requires AllNew(s, zone)
    ensures AllRest(s, zone, 0, [])
  {
    forall v | v in zone ensures Rests(s.procs[v], v, 0, []) { assert Newcomer(s, v); }
  }

  /** The servers as one of them lists them. */
  predicate Lists(ids: set<int>, v: int, members: seq<int>) {
    Members(ids, v, members) && forall u :: u in ids ==> u in members
  }

  /** The two rivals and the voters of both at the start. */
  ghost predicate Begun(fix: Repairs, s: State, a: int, c: int, voters: set<int>) {
    && Reach(fix, s) && s.procs.Keys == s.ids && |s.ids| >= 3
    && a in s.ids && c in s.ids && a != c && voters <= s.ids && a !in voters && c !in voters && |voters| == |s.ids| / 2
    && Retired(s.procs[a], a, 0, [], s.procs[a].n.members) && Lists(s.ids, a, s.procs[a].n.members)
    && Retired(s.procs[c], c, 0, [], s.procs[c].n.members) && Lists(s.ids, c, s.procs[c].n.members)
    && AllRest(s, s.ids, 0, [])
  }

  lemma Begin(fix: Repairs, ids: set<int>) returns (s: State, a: int, c: int, voters: set<int>)
    requires |ids| >= 3 && -1 !in ids
    ensures Begun(fix, s, a, c, voters) && s.ids == ids
  {
    a, c, voters := Choose(ids);
    s := Opening(fix, ids);
    assert Newcomer(s, a) && Newcomer(s, c);
    NewRest(s, ids);
  }

  // ---- Elections ----

  /** The candidate that StartElection makes of a server whose timer has run out. */
  function Runs(fix: Repairs, n: NodeState): NodeState {
    StartElection(fix, if n.status.Follower? then n.(status := Candidate) else n)
  }

  /** A server times out, unless it is a candidate already, and starts an election. */
  lemma Stand(fix: Repairs, s: State, c: int) returns (s': State)
    requires Reach(fix, s) && s.procs.Keys == s.ids && c in s.ids
    requires s.procs[c].lock.Free? && !s.procs[c].n.status.Leader? && s.procs[c].n.me == c
    ensures Reach(fix, s') && Untouched(s, s', {c})
    ensures s'.procs[c] == Proc(Runs(fix, s.procs[c].n), Electing)
  {
    s' := s;
    if s.procs[c].n.status.Follower? { s' := ReachStep(fix, s', Timeout(c)); }
    s' := ReachStep(fix, s', BeginElection(c));
  }

  lemma GiveUp(fix: Repairs, s: State, c: int) returns (s': State)
    requires Reach(fix, s) && s.procs.Keys == s.ids && c in s.ids && s.procs[c].lock.Electing?
    ensures Reach(fix, s') && Untouched(s, s', {c}) && s'.procs[c] == Proc(s.procs[c].n, Free)
  {
    s' := ReachStep(fix, s, EndElection(c));
  }

  /** The candidate's request unseats a server, whose reply is lost. */
  lemma Unseat(fix: Repairs, s: State, c: int, d: int) returns (s': State)
    requires Reach(fix, s) && s.procs.Keys == s.ids && c in s.ids && d in s.ids && c != d
    requires s.procs[c].lock.Electing? && s.procs[c].n.me == c && s.procs[d].lock.Free?
    ensures Reach(fix, s') && Untouched(s, s', {c, d}) && s'.procs[c] == s.procs[c]
    ensures s'.procs[d] == Proc(MeetCandidate(s.procs[d].n, MakeVoteRequest(s.procs[c].n)), Free)
    ensures VoteCall(d, MakeVoteRequest(s.procs[c].n)) in Calls(s')
  {
    var m := MakeVoteRequest(s.procs[c].n);
    var s1 := ReachStep(fix, s, SendVote(c, d));
    var s2 := ReachStep(fix, s1, DeliverVote(d, m));
    s' := ReachStep(fix, s2, LoseVote(c));
  }

  /** One voter grants its vote. */
  lemma PollOne(fix: Repairs, s: State, c: int, v: int, t: int) returns (s': State)
    requires Reach(fix, s) && s.procs.Keys == s.ids && c in s.ids && v in s.ids && c != v
    requires s.procs[c].lock.Electing? && s.procs[c].n.term == t && s.procs[c].n.me == c
    requires s.procs[v].lock.Free? && s.procs[v].n.term < t && s.procs[v].n.me == v
    requires UpToDate(LastTerm(s.procs[c].n.log), |s.procs[c].n.log|, s.procs[v].n.log)
    ensures Reach(fix, s') && Untouched(s, s', {c, v})
    ensures s'.procs[c] == Polled(fix, s.procs[c].n, VoteResponse(v, t, true))
    ensures s'.procs[v] == Proc(MeetCandidate(s.procs[v].n, MakeVoteRequest(s.procs[c].n)), Free)
  {
    var s1 := ReachStep(fix, s, SendVote(c, v));
    var m := MakeVoteRequest(s.procs[c].n);
    assert s1.procs[c].lock == AwaitVote(v, m);
    var s2 := ReachStep(fix, s1, DeliverVote(v, m));
    assert VoteReply(v, m, VoteResponse(v, t, true)) in s2.net;
    s' := ReachStep(fix, s2, ReceiveVote(c, VoteResponse(v, t, true)));
  }

  /** What polling `zone` comes to: the candidate has all its votes. */
  predicate Asked(s: State, c: int, zone: set<int>, s': State)
    requires s.procs.Keys == s.ids && s'.procs.Keys == s.ids && c in s.ids && zone <= s.ids
  {
    && s'.procs[c].n == s.procs[c].n.(votes := s.procs[c].n.votes + zone)
    && forall v :: v in zone ==> s'.procs[v] == Proc(MeetCandidate(s.procs[v].n, MakeVoteRequest(s.procs[c].n)), Free)
  }

  /** And is leader by the last of them. */
  predicate Won(s: State, c: int, zone: set<int>, s': State)
    requires s.procs.Keys == s.ids && s'.procs.Keys == s.ids && c in s.ids && zone <= s.ids
  {
    && s'.procs[c] == Proc(InitLeader(s.procs[c].n.(votes := s.procs[c].n.votes + zone)), Free)
    && forall v :: v in zone ==> s'.procs[v] == Proc(MeetCandidate(s.procs[v].n, MakeVoteRequest(s.procs[c].n)), Free)
  }

  /** Every server in `zone` will vote for the candidate. */
  predicate Willing(s: State, c: int, zone: set<int>)
    requires s.procs.Keys == s.ids && c in s.ids && zone <= s.ids
  {
    forall v :: v in zone ==>
      var p := s.procs[v];
      p.lock.Free? && p.n.me == v && p.n.term < s.procs[c].n.term
      && UpToDate(LastTerm(s.procs[c].n.log), |s.procs[c].n.log|, p.n.log)
  }

  predicate Running(s: State, c: int, zone: set<int>)
    requires s.procs.Keys == s.ids && c in s.ids
  {
    var p := s.procs[c];
    c !in zone && p.lock.Electing? && p.n.me == c && !p.n.status.Leader? && p.n.votes !! zone
  }

  /** One more vote: it wins, or it is not yet enough. */
  lemma OneVote(fix: Repairs, s: State, c: int, v: int) returns (s': State)
    requires Reach(fix, s) && s.procs.Keys == s.ids && c in s.ids && v in s.ids
    requires Running(s, c, {v}) && Willing(s, c, {v})
    ensures Reach(fix, s') && Untouched(s, s', {c, v})
    ensures s'.procs[v] == Proc(MeetCandidate(s.procs[v].n, MakeVoteRequest(s.procs[c].n)), Free)
    ensures var n, won := s.procs[c].n, WonElection(fix, |s.procs[c].n.votes| + 1, |s.procs[c].n.members|);
            var n1 := n.(votes := n.votes + {v});
            s'.procs[c] == if won then Proc(InitLeader(n1), Free) else Proc(n1, Electing)
  {
    var n := s.procs[c].n;
    s' := PollOne(fix, s, c, v, n.term);
    assert |n.votes + {v}| == |n.votes| + 1;
  }

  /** Votes that are not enough. */
  lemma {:induction false} Ask(fix: Repairs, s: State, c: int, zone: set<int>) returns (s': State)
    requires Reach(fix, s) && s.procs.Keys == s.ids && c in s.ids && zone <= s.ids
    requires Running(s, c, zone) && Willing(s, c, zone)
    requires var k := |s.procs[c].n.votes|;
             forall j :: k < j <= k + |zone| ==> !WonElection(fix, j, |s.procs[c].n.members|)
    ensures Reach(fix, s') && Untouched(s, s', zone + {c}) && Asked(s, c, zone, s') && s'.procs[c].lock.Electing?
    decreases |zone|
  {
    if zone == {} {
      s' := s;
      assert s.procs[c].n.votes + zone == s.procs[c].n.votes;
    } else {
      var v := PickFrom(zone);
      var s1 := OneVote(fix, s, c, v);
      RestOf(zone, v);
      assert |s.procs[c].n.votes + {v}| == |s.procs[c].n.votes| + 1;
      s' := Ask(fix, s1, c, zone - {v});
      AskedAll(s, c, v, zone, s1, s');
    }
  }

  lemma AskedAll(s: State, c: int, v: int, zone: set<int>, s1: State, s': State)
    requires s.procs.Keys == s.ids && c in s.ids && zone <= s.ids && c !in zone && v in zone
    requires Untouched(s, s1, {c, v}) && Untouched(s1, s', zone - {v} + {c})
    requires s1.procs[v] == Proc(MeetCandidate(s.procs[v].n, MakeVoteRequest(s.procs[c].n)), Free)
    requires s1.procs[c].n == s.procs[c].n.(votes := s.procs[c].n.votes + {v})
    requires Asked(s1, c, zone - {v}, s')
    ensures Untouched(s, s', zone + {c}) && Asked(s, c, zone, s')
  {
    var n := s.procs[c].n;
    assert n.votes + {v} + (zone - {v}) == n.votes + zone;
    assert MakeVoteRequest(s1.procs[c].n) == MakeVoteRequest(n);
  }

  /** Votes of which the last is the one that is enough. */
  lemma Win(fix: Repairs, s: State, c: int, zone: set<int>) returns (s': State)
    requires Reach(fix, s) && s.procs.Keys == s.ids && c in s.ids && zone <= s.ids && zone != {}
    requires Running(s, c, zone) && Willing(s, c, zone)
    requires var k := |s.procs[c].n.votes|;
             (forall j :: k < j < k + |zone| ==> !WonElection(fix, j, |s.procs[c].n.members|))
             && WonElection(fix, k + |zone|, |s.procs[c].n.members|)
    ensures Reach(fix, s') && Untouched(s, s', zone + {c}) && Won(s, c, zone, s')
  {
    var v := PickFrom(zone);
    var n := s.procs[c].n;
    RestOf(zone, v);
    var s1 := Ask(fix, s, c, zone - {v});
    assert |n.votes + (zone - {v})| == |n.votes| + |zone - {v}|;
    assert MakeVoteRequest(s1.procs[c].n) == MakeVoteRequest(n);
    s' := OneVote(fix, s1, c, v);
    assert n.votes + (zone - {v}) + {v} == n.votes + zone;
  }

  /** The candidate's own vote and those of `zone` are a win, and fewer are none. */
  predicate JustEnough(fix: Repairs, size: nat, zone: set<int>) {
    zone != {} && (forall k :: 1 < k <= |zone| ==> !WonElection(fix, k, size)) && WonElection(fix, |zone| + 1, size)
  }

  lemma HalfIsEnough(fix: Repairs, size: nat, zone: set<int>)
    requires (fix.quorum && fix.freshVotes) || size <= 3
    requires size >= 3 && |zone| == size / 2
    ensures JustEnough(fix, size, zone)
  {}

  predicate Bids(p: Proc, c: int, t: int, log: Log, members: seq<int>) {
    && p.lock.Electing? && p.n.me == c && !p.n.status.Leader? && p.n.term == t && p.n.log == log
    && p.n.commitLength == 0 && p.n.members == members && p.n.votes == {c}
  }

  /** A new leader that has sent and heard nothing yet. */
  predicate Reigns(p: Proc, c: int, term: int, log: Log, members: seq<int>) {
    && p.lock.Free? && p.n.me == c && p.n.status.Leader? && p.n.term == term && p.n.log == log
    && p.n.commitLength == 0 && p.n.members == members
    && p.n.sent == seq(|members|, _ => |log|) && p.n.ack == seq(|members|, _ => 0)
  }

  /** Servers at rest whose logs are no better than the candidate's. */
  predicate Ready(s: State, zone: set<int>, t: int, log: Log) {
    zone <= s.procs.Keys && forall v :: v in zone ==>
      && s.procs[v].n.term < t && Rests(s.procs[v], v, s.procs[v].n.term, s.procs[v].n.log)
      && UpToDate(LastTerm(log), |log|, s.procs[v].n.log)
  }

  /** What voting changes in a server. */
  predicate HasVoted(p: Proc, p': Proc, v: int, t: int) {
    Retired(p', v, t, p.n.log, p.n.members) && p'.n.status.Follower?
  }

  lemma StandAgain(fix: Repairs, s: State, c: int, t: int, log: Log, members: seq<int>) returns (s': State)
    requires Reach(fix, s) && s.procs.Keys == s.ids && c in s.ids && Retired(s.procs[c], c, t - 1, log, members)
    ensures Reach(fix, s') && Untouched(s, s', {c}) && Bids(s'.procs[c], c, t, log, members)
  {
    s' := Stand(fix, s, c);
  }

  /** An election that asks nobody, and then another. */
  lemma SecondTry(fix: Repairs, s: State, c: int, members: seq<int>) returns (s': State)
    requires Reach(fix, s) && s.procs.Keys == s.ids && c in s.ids && Retired(s.procs[c], c, 0, [], members)
    ensures Reach(fix, s') && Untouched(s, s', {c}) && Bids(s'.procs[c], c, 2, [], members)
  {
    var s1 := StandAgain(fix, s, c, 1, [], members);
    var s2 := GiveUp(fix, s1, c);
    s' := StandAgain(fix, s2, c, 2, [], members);
  }

  /** A leader of an earlier term steps down on the candidate's request. */
  lemma Replaced(fix: Repairs, s: State, c: int, d: int, t: int) returns (s': State)
    requires Reach(fix, s) && s.procs.Keys == s.ids && c in s.ids && d in s.ids && c != d
    requires Bids(s.procs[c], c, t, s.procs[c].n.log, s.procs[c].n.members)
    requires s.procs[d].lock.Free? && s.procs[d].n.me == d && s.procs[d].n.term < t && s.procs[d].n.commitLength == 0
    ensures Reach(fix, s') && Untouched(s, s', {c, d}) && s'.procs[c] == s.procs[c]
    ensures Retired(s'.procs[d], d, t, s.procs[d].n.log, s.procs[d].n.members)
  {
    s' := Unseat(fix, s, c, d);
  }

  /** The votes of `zone` make the candidate leader. */
  lemma Elect(fix: Repairs, s: State, c: int, zone: set<int>, t: int, log: Log, members: seq<int>) returns (s': State)
    requires Reach(fix, s) && s.procs.Keys == s.ids && c in s.ids && zone <= s.ids && c !in zone
    requires JustEnough(fix, |members|, zone)
    requires Bids(s.procs[c], c, t, log, members) && Ready(s, zone, t, log)
    ensures Reach(fix, s') && Untouched(s, s', zone + {c})
    ensures Reigns(s'.procs[c], c, t, log, members)
    ensures forall v :: v in zone ==> HasVoted(s.procs[v], s'.procs[v], v, t)
  {
    assert |{c}| == 1;
    s' := Win(fix, s, c, zone);
    Crowned(s, c, zone, t, s');
  }

  lemma Crowned(s: State, c: int, zone: set<int>, t: int, s': State)
    requires s.procs.Keys == s.ids && s'.procs.Keys == s.ids && c in s.ids && zone <= s.ids
    requires Bids(s.procs[c], c, t, s.procs[c].n.log, s.procs[c].n.members)
    requires Ready(s, zone, t, s.procs[c].n.log) && Won(s, c, zone, s')
    ensures Reigns(s'.procs[c], c, t, s.procs[c].n.log, s.procs[c].n.members)
    ensures forall v :: v in zone ==> HasVoted(s.procs[v], s'.procs[v], v, t)
  {}

  lemma FirstElection(fix: Repairs, s: State, a: int, zone: set<int>, members: seq<int>) returns (s': State)
    requires Reach(fix, s) && s.procs.Keys == s.ids && a in s.ids && zone <= s.ids && a !in zone
    requires JustEnough(fix, |members|, zone) && Retired(s.procs[a], a, 0, [], members) && AllRest(s, zone, 0, [])
    ensures Reach(fix, s') && Untouched(s, s', zone + {a}) && Reigns(s'.procs[a], a, 1, [], members)
    ensures forall v :: v in zone ==> HasVoted(s.procs[v], s'.procs[v], v, 1)
  {
    var s1 := StandAgain(fix, s, a, 1, [], members);
    s' := Elect(fix, s1, a, zone, 1, [], members);
  }

  // ---- Updates and exchanges ----

  /** A leader that has just logged an entry of its own. */
  predicate Logged(p: Proc, c: int, t: int, log: Log, members: seq<int>) {
    && p.n.me == c && p.n.status.Leader? && p.n.term == t && p.n.log == log && p.n.commitLength == 0
        && p.n.members == members
    && log != [] && 0 < |members|
    && p.n.sent == seq(|members|, _ => |log| - 1) && p.n.ack == seq(|members|, _ => 0)[|members| - 1 := |log|]
  }

  /** The candidate wins and logs a client's order. */
  lemma Reign(fix: Repairs, s: State, c: int, zone: set<int>, t: int, log: Log, members: seq<int>, order: int)
    returns (s': State)
    requires Reach(fix, s) && s.procs.Keys == s.ids && c in s.ids && zone <= s.ids && c !in zone
    requires JustEnough(fix, |members|, zone) && |members| > 0
    requires Bids(s.procs[c], c, t, log, members) && Ready(s, zone, t, log)
    ensures Reach(fix, s') && Untouched(s, s', zone + {c})
    ensures forall v :: v in zone ==> HasVoted(s.procs[v], s'.procs[v], v, t)
    ensures s'.procs[c].lock.Replicating? && Logged(s'.procs[c], c, t, log + [MapOp(t, 0, order)], members)
  {
    var s1 := Elect(fix, s, c, zone, t, log, members);
    s' := ReachStep(fix, s1, Update(c, 0, order));
  }

  lemma Done(fix: Repairs, s: State, c: int) returns (s': State)
    requires Reach(fix, s) && s.procs.Keys == s.ids && c in s.ids && s.procs[c].lock.Replicating?
    ensures Reach(fix, s') && Untouched(s, s', {c}) && s'.procs[c] == Proc(s.procs[c].n, Free)
  {
    s' := ReachStep(fix, s, EndReplicate(c));
  }

  /** One exchange that carries an entry, with a follower of no later term. */
  lemma Exchange(fix: Repairs, s: State, c: int, v: int, slot: nat) returns (s': State)
    requires Reach(fix, s) && s.procs.Keys == s.ids && c in s.ids && v in s.ids && c != v
    requires var n := s.procs[c].n;
             && s.procs[c].lock.Replicating? && SendInBounds(n, slot) && slot < |n.members| - 1 && n.members[slot] == v
             && n.sent[slot] < |n.log| && n.log[n.sent[slot]].term != -1
    requires s.procs[v].lock.Free? && s.procs[v].n.me == v && s.procs[v].n.term <= s.procs[c].n.term
    requires LogInBounds(fix, s.procs[v].n, MakeLogRequest(s.procs[c].n, slot))
    ensures Reach(fix, s') && Untouched(s, s', {c, v})
    ensures var m := MakeLogRequest(s.procs[c].n, slot);
            && s'.procs[v] == Proc(TakeLog(fix, s.procs[v].n, m), Free)
            && s'.procs[c] == Proc(TakeLogResponse(fix, s.procs[c].n, slot, AnswerLog(fix, s.procs[v].n, m)),
                Replicating)
  {
    RealNames(fix, s);
    var m, r := MakeLogRequest(s.procs[c].n, slot), AnswerLog(fix, s.procs[v].n, MakeLogRequest(s.procs[c].n, slot));
    var s1 := ReachStep(fix, s, SendLog(c, slot));
    assert s1.procs[c].lock == AwaitLog(slot, m);
    var s2 := ReachStep(fix, s1, DeliverLog(v, m));
    assert LogReply(v, m, r) in s2.net;
    s' := ReachStep(fix, s2, ReceiveLog(c, r));
  }

  // ---- Counting acknowledgements ----

  lemma {:induction false} CountChanges(ack: seq<int>, slot: nat, a: int, k: int)
    requires slot < |ack|
    ensures CountAck(ack[slot := a], k) ==
            CountAck(ack, k) - (if ack[slot] >= k then 1 else 0) + if a >= k then 1 else 0
  {
    var n := |ack| - 1;
    if slot < n {
      CountChanges(ack[..n], slot, a, k);
      assert ack[slot := a][..n] == ack[..n][slot := a];
    } else {
      assert ack[slot := a][..n] == ack[..n];
    }
  }

  lemma {:induction false} NoneAcked(n: nat, k: int)
    requires 0 < k
    ensures CountAck(seq(n, _ => 0), k) == 0
  {
    if n > 0 {
      var ack := seq(n, _ => 0);
      assert ack[..n - 1] == seq(n - 1, _ => 0);
      NoneAcked(n - 1, k);
    }
  }

  /** A leader that has just logged an entry has acknowledged it itself, and nobody else has. */
  lemma OwnAckOnly(p: Proc, c: int, t: int, log: Log, members: seq<int>, k: int)
    requires Logged(p, c, t, log, members) && 0 < k <= |log|
    ensures CountAck(p.n.ack, k) == 1
  {
    NoneAcked(|members|, k);
    CountChanges(seq(|members|, _ => 0), |members| - 1, |log|, k);
  }

  /** The slots of `zone` have acknowledged nothing, and their acknowledgements are what is
      missing to a count of `goal` for the first `k` entries. */
  predicate Missing(n: NodeState, zone: set<int>, sent: int, k: int, goal: nat) {
    && |n.sent| == |n.ack| == |n.members| >= 3
    && (forall j :: 0 <= j < |n.members| - 1 && n.members[j] in zone ==> n.sent[j] == sent && n.ack[j] == 0)
    && (forall i, j :: 0 <= i < j < |n.members| ==> n.members[i] != n.members[j])
    && (forall v :: v in zone ==> v in n.members[..|n.members| - 1])
    && CountAck(n.ack, k) + |zone| == goal
  }

  lemma MissingAtFirst(p: Proc, c: int, t: int, log: Log, ids: set<int>, zone: set<int>, members: seq<int>, k: int)
    requires Logged(p, c, t, log, members) && Members(ids, c, members) && |ids| >= 3 && 0 < k <= |log|
    requires c !in zone && forall v :: v in zone ==> v in members
    ensures Missing(p.n, zone, |log| - 1, k, |zone| + 1)
  {
    OwnAckOnly(p, c, t, log, members, k);
    assert members == members[..|members| - 1] + [c];
  }

  lemma OneLess(n: NodeState, n': NodeState, v: int, slot: nat, zone: set<int>, sent: int, k: int, goal: nat, a: int)
    requires Missing(n, zone, sent, k, goal) && v in zone && slot < |n.members| - 1 && n.members[slot] == v
    requires n'.members == n.members && |n'.sent| == |n.sent| && n'.ack == n.ack[slot := a] && 0 < k <= a
    requires forall j :: 0 <= j < |n.sent| && j != slot ==> n'.sent[j] == n.sent[j]
    ensures Missing(n', zone - {v}, sent, k, goal)
  {
    CountChanges(n.ack, slot, a, k);
    RestOf(zone, v);
  }

  lemma SlotOf(n: NodeState, zone: set<int>, v: int, sent: int, k: int, goal: nat) returns (slot: nat)
    requires Missing(n, zone, sent, k, goal) && v in zone
    ensures slot < |n.members| - 1 && n.members[slot] == v && n.sent[slot] == sent && n.ack[slot] == 0
  {
    slot :| slot < |n.members| - 1 && n.members[slot] == v;
  }
}
