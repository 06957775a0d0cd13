/** When the term rule as written fails: from three servers on, late heartbeats of an earlier
    leader take its voters back to its term, and they elect a second leader in a later one. */
module Regress {
  import opened RaftTypes
  import opened Handlers
  import opened Cluster
  import opened Campaigns
  import opened SplitVotes

  /** A leader of term 1 with an empty log, about to send heartbeats. */
  predicate Beating(p: Proc, a: int, members: seq<int>) {
    && p.lock.Replicating? && p.n.me == a && p.n.status.Leader? && p.n.term == 1 && p.n.log == []
        && p.n.commitLength == 0
    && p.n.members == members && p.n.sent == seq(|members|, _ => 0) && |p.n.ack| == |members|
  }

  /** A follower with an empty log. */
  predicate Follows(p: Proc, v: int, t: int) {
    Retired(p, v, t, [], p.n.members) && p.n.status.Follower?
  }

  predicate AllFollow(s: State, zone: set<int>, t: int) {
    zone <= s.procs.Keys && forall v :: v in zone ==> Follows(s.procs[v], v, t)
  }

  /** One heartbeat takes a follower of term 2 back to term 1. */
  lemma FallBack(fix: Repairs, s: State, a: int, v: int, members: seq<int>) returns (s': State)
    requires !fix.termOrder && Reach(fix, s) && s.procs.Keys == s.ids && a in s.ids && v in s.ids && a != v
    requires Beating(s.procs[a], a, members) && |members| > 0 && v in members[..|members| - 1]
             && Follows(s.procs[v], v, 2)
    ensures Reach(fix, s') && Untouched(s, s', {v}) && Follows(s'.procs[v], v, 1)
    ensures s'.procs[v].n.members == s.procs[v].n.members
  {
    RealNames(fix, s);
    var slot: nat :| slot < |members| - 1 && members[slot] == v;
    var m := LogRequest(a, 1, 0, 0, 0, -1, -1, -1);
    var s1 := ReachStep(fix, s, SendLog(a, slot));
    assert s1.procs[a].lock == AwaitLog(slot, m);
    var s2 := ReachStep(fix, s1, DeliverLog(v, m));
    var r := LogResponse(v, 1, 1, true);
    assert LogReply(v, m, r) in s2.net;
    s' := ReachStep(fix, s2, ReceiveLog(a, r));
  }

  lemma {:induction false} AllFallBack(fix: Repairs, s: State, a: int, zone: set<int>, members: seq<int>)
    returns (s': State)
    requires !fix.termOrder && Reach(fix, s) && s.procs.Keys == s.ids && a in s.ids && a !in zone && zone <= s.ids
    requires Beating(s.procs[a], a, members) && |members| > 0
             && (forall v :: v in zone ==> v in members[..|members| - 1])
    requires AllFollow(s, zone, 2)
    ensures Reach(fix, s') && Untouched(s, s', zone) && AllFollow(s', zone, 1)
    ensures SameLists(s, s', zone)
    decreases |zone|
  {
    s' := s;
    if zone != {} {
      var v := PickFrom(zone);
      RestOf(zone, v);
      var s1 := FallBack(fix, s, a, v, members);
      s' := AllFallBack(fix, s1, a, zone - {v}, members);
    }
  }

  /** What is on stage: two servers, half of the others, and their rosters. */
  ghost predicate Stage(fix: Repairs, s: State, a: int, c: int, zone: set<int>) {
    && Reach(fix, s) && s.procs.Keys == s.ids && |s.ids| >= 3
    && ((fix.quorum && fix.freshVotes) || |s.ids| <= 3)
    && a in s.ids && c in s.ids && a != c && zone <= s.ids && a !in zone && c !in zone && |zone| == |s.ids| / 2
  }

  predicate SameLists(s: State, s': State, zone: set<int>) {
    zone <= s.procs.Keys && zone <= s'.procs.Keys
    && forall v :: v in zone ==> s'.procs[v].n.members == s.procs[v].n.members
  }

  /** `a` is elected in term 1. */
  lemma FirstLeader(fix: Repairs, s: State, a: int, c: int, zone: set<int>) returns (s': State)
    requires Stage(fix, s, a, c, zone) && Newcomer(s, a) && AllNew(s, zone)
    ensures Stage(fix, s', a, c, zone) && Untouched(s, s', zone + {a})
    ensures Reigns(s'.procs[a], a, 1, [], s.procs[a].n.members) && AllFollow(s', zone, 1) && SameLists(s, s', zone)
  {
    HalfIsEnough(fix, |s.ids|, zone);
    NewRest(s, zone);
    s' := FirstElection(fix, s, a, zone, s.procs[a].n.members);
  }

  /** `c`, on its second try, is elected in term 2; `a` does not hear of it. */
  lemma SecondLeader(fix: Repairs, s: State, a: int, c: int, zone: set<int>, members: seq<int>) returns (s': State)
    requires Stage(fix, s, a, c, zone) && Retired(s.procs[c], c, 0, [], members) && |members| == |s.ids|
    requires AllFollow(s, zone, 1)
    ensures Stage(fix, s', a, c, zone) && Untouched(s, s', zone + {c})
    ensures Reigns(s'.procs[c], c, 2, [], members) && AllFollow(s', zone, 2) && SameLists(s, s', zone)
  {
    HalfIsEnough(fix, |s.ids|, zone);
    var s1 := SecondTry(fix, s, c, members);
    s' := Elect(fix, s1, c, zone, 2, [], members);
  }

  /** The heartbeats of `a` reach the voters of `c`. */
  lemma BackToTermOne(fix: Repairs, s: State, a: int, c: int, zone: set<int>, members: seq<int>) returns (s': State)
    requires !fix.termOrder && Stage(fix, s, a, c, zone) && AllFollow(s, zone, 2)
    requires Reigns(s.procs[a], a, 1, [], members) && Lists(s.ids, a, members)
    ensures Stage(fix, s', a, c, zone) && Untouched(s, s', zone + {a})
    ensures Rests(s'.procs[a], a, 1, []) && AllFollow(s', zone, 1) && SameLists(s, s', zone)
  {
    var s1 := StartBeating(fix, s, a, members);
    Slotted(s.ids, a, zone, members);
    var s2 := AllFallBack(fix, s1, a, zone, members);
    s' := Done(fix, s2, a);
  }

  lemma StartBeating(fix: Repairs, s: State, a: int, members: seq<int>) returns (s': State)
    requires Reach(fix, s) && s.procs.Keys == s.ids && a in s.ids && Reigns(s.procs[a], a, 1, [], members)
    ensures Reach(fix, s') && Untouched(s, s', {a}) && Beating(s'.procs[a], a, members)
  {
    s' := ReachStep(fix, s, BeginReplicate(a));
  }

  lemma Slotted(ids: set<int>, a: int, zone: set<int>, members: seq<int>)
    requires Lists(ids, a, members) && zone <= ids && a !in zone
    ensures |members| > 0 && forall v :: v in zone ==> v in members[..|members| - 1]
  {
    assert members == members[..|members| - 1] + [a];
  }

  /** One of them is elected in term 2 as well, by the others and `a`. */
  lemma ThirdLeader(fix: Repairs, s: State, a: int, c: int, zone: set<int>, d: int) returns (s': State)
    requires Stage(fix, s, a, c, zone) && d in zone && Lists(s.ids, d, s.procs[d].n.members)
    requires Rests(s.procs[a], a, 1, []) && AllFollow(s, zone, 1)
    ensures Reach(fix, s') && Untouched(s, s', zone + {a}) && InOffice(s', d, 2)
    ensures AllRest(s', zone - {d} + {a}, 2, [])
  {
    var voters := zone - {d} + {a};
    RestOf(zone, d);
    assert |voters| == |zone|;
    HalfIsEnough(fix, |s.ids|, voters);
    s' := ElectThird(fix, s, d, voters);
  }

  lemma ElectThird(fix: Repairs, s: State, d: int, voters: set<int>) returns (s': State)
    requires Reach(fix, s) && s.procs.Keys == s.ids && d in s.ids && voters <= s.ids && d !in voters
    requires JustEnough(fix, |s.ids|, voters) && Follows(s.procs[d], d, 1) && Lists(s.ids, d, s.procs[d].n.members)
    requires AllRest(s, voters, 1, [])
    ensures Reach(fix, s') && Untouched(s, s', voters + {d}) && InOffice(s', d, 2) && AllRest(s', voters, 2, [])
  {
    var s1 := StandAgain(fix, s, d, 2, [], s.procs[d].n.members);
    s' := Elect(fix, s1, d, voters, 2, [], s.procs[d].n.members);
  }

  /** Without repair C, from three servers on: two leaders of term 2. */
  lemma TermRegressSplits(fix: Repairs, ids: set<int>) returns (s: State, c: int, d: int)
    requires !fix.termOrder && ((fix.quorum && fix.freshVotes) || |ids| <= 3) && |ids| >= 3 && -1 !in ids
    ensures Reach(fix, s) && s.ids == ids && TwoLeaders(s, c, d) && Contest(s, c, d, 2)
  {
    var a, zone;
    a, c, zone := Choose(ids);
    d := PickFrom(zone);
    var s0 := Opening(fix, ids);
    s := Acts(fix, s0, a, c, zone, d);
  }

  lemma Acts(fix: Repairs, s: State, a: int, c: int, zone: set<int>, d: int) returns (s': State)
    requires !fix.termOrder && Stage(fix, s, a, c, zone) && d in zone && AllNew(s, s.ids)
    ensures Reach(fix, s') && s'.ids == s.ids && Contest(s', c, d, 2)
  {
    assert Newcomer(s, a) && Newcomer(s, c) && Newcomer(s, d);
    NewRest(s, s.ids);
    StillNew(s, s, {}, zone);
    var s1 := FirstLeader(fix, s, a, c, zone);
    s' := LaterActs(fix, s1, a, c, zone, d, s.procs[a].n.members, s.procs[c].n.members);
    AllIdle(s, s1, s', a, c, zone, d);
  }

  lemma LaterActs(fix: Repairs, s: State, a: int, c: int, zone: set<int>, d: int, ma: seq<int>, mc: seq<int>)
    returns (s': State)
    requires !fix.termOrder && Stage(fix, s, a, c, zone) && d in zone && Lists(s.ids, d, s.procs[d].n.members)
    requires Reigns(s.procs[a], a, 1, [], ma) && Lists(s.ids, a, ma) && AllFollow(s, zone, 1)
    requires Retired(s.procs[c], c, 0, [], mc) && Lists(s.ids, c, mc)
    ensures Reach(fix, s') && Untouched(s, s', zone + {a, c}) && InOffice(s', c, 2) && InOffice(s', d, 2)
    ensures AllRest(s', zone - {d} + {a}, 2, [])
  {
    var s1 := SecondLeader(fix, s, a, c, zone, mc);
    var s2 := BackToTermOne(fix, s1, a, c, zone, ma);
    s' := ThirdLeader(fix, s2, a, c, zone, d);
  }

  lemma AllIdle(s: State, s3: State, s': State, a: int, c: int, zone: set<int>, d: int)
    requires AllRest(s, s.ids, 0, []) && a in s.ids && c in s.ids && zone <= s.ids && d in zone
    requires Untouched(s, s3, zone + {a}) && Untouched(s3, s', zone + {a, c}) && AllRest(s', zone - {d} + {a}, 2, [])
    ensures forall v :: v in s'.ids && v != c && v != d ==> Idle(s'.procs[v], v, 2)
  {
    forall v | v in s'.ids && v != c && v != d ensures Idle(s'.procs[v], v, 2) {
      assert Rests(s.procs[v], v, 0, []);
    }
  }
}
