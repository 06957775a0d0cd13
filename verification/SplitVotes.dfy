/** When the election as written fails: from four servers on, each of the two election
    repairs is needed, because without it two servers can lead the same term. */
module SplitVotes {
  import opened RaftTypes
  import opened Handlers
  import opened Cluster
  import opened Campaigns

  ghost predicate TwoLeaders(s: State, c: int, d: int) {
    && c in s.procs && d in s.procs && c != d
    && s.procs[c].n.status.Leader? && s.procs[d].n.status.Leader?
    && s.procs[c].n.term == s.procs[d].n.term
  }

  /** A server at rest with an empty log, in no later term. */
  predicate Idle(p: Proc, v: int, t: int) {
    Rests(p, v, p.n.term, []) && p.n.term <= t
  }

  /** A new leader with an empty log, in a cluster of these servers. */
  ghost predicate InOffice(s: State, c: int, t: int)
    requires c in s.procs
  {
    Reigns(s.procs[c], c, t, [], s.procs[c].n.members) && Lists(s.ids, c, s.procs[c].n.members)
  }

  /** Two new leaders of one term, and everybody else at rest. */
  ghost predicate Contest(s: State, c: int, d: int, t: int) {
    && s.procs.Keys == s.ids && c in s.ids && d in s.ids && c != d && 1 <= t
    && InOffice(s, c, t) && InOffice(s, d, t)
    && forall v :: v in s.ids && v != c && v != d ==> Idle(s.procs[v], v, t)
  }

  /** Two candidates, and for each a zone of other servers, just under half in size. */
  lemma Split(ids: set<int>) returns (c: int, d: int, x: set<int>, y: set<int>)
    requires |ids| >= 4
    ensures c in ids && d in ids && c != d && x <= ids && y <= ids && x !! y
    ensures c !in x && c !in y && d !in x && d !in y
    ensures |x| == |y| == |ids| / 2 - 1
  {
    c := PickFrom(ids);
    assert |ids - {c}| == |ids| - 1;
    d := PickFrom(ids - {c});
    var others := ids - {c} - {d};
    x := TakeSome(others, |ids| / 2 - 1);
    assert |others - x| == |others| - |x|;
    y := TakeSome(others - x, |ids| / 2 - 1);
  }

  /** Without repair A: two candidates with just under half of the others each both win. */
  lemma SplitQuorums(fix: Repairs, ids: set<int>) returns (s: State, c: int, d: int)
    requires !fix.quorum && |ids| >= 4 && -1 !in ids
    ensures Reach(fix, s) && s.ids == ids && TwoLeaders(s, c, d) && Contest(s, c, d, 1)
  {
    var x, y;
    c, d, x, y := Split(ids);
    var s0 := Opening(fix, ids);
    NewRest(s0, ids);
    StillNew(s0, s0, {}, x + {c});
    StillNew(s0, s0, {}, y + {d});
    s := BothElected(fix, s0, c, d, x, y);
  }

  lemma BothElected(fix: Repairs, s: State, c: int, d: int, x: set<int>, y: set<int>) returns (s': State)
    requires !fix.quorum && |s.ids| >= 4 && |x| == |y| == |s.ids| / 2 - 1 && x !! y
    requires Reach(fix, s) && s.procs.Keys == s.ids && {c, d} <= s.ids && c != d
    requires AllNew(s, x + {c}) && AllNew(s, y + {d}) && AllRest(s, s.ids, 0, [])
    requires x <= s.ids && y <= s.ids && c !in x && c !in y && d !in x && d !in y
    ensures Reach(fix, s') && s'.ids == s.ids && Contest(s', c, d, 1)
  {
    var s1 := FirstTerm(fix, s, c, x);
    StillNew(s, s1, x + {c}, y + {d});
    s' := FirstTerm(fix, s1, d, y);
    assert InOffice(s', c, 1);
    Others(s, s1, s', c, d, x, y);
  }

  lemma Others(s0: State, s1: State, s: State, c: int, d: int, x: set<int>, y: set<int>)
    requires AllRest(s0, s0.ids, 0, []) && Untouched(s0, s1, x + {c}) && Untouched(s1, s, y + {d})
    requires AllRest(s1, x, 1, []) && x !! y + {d} && AllRest(s, y, 1, [])
    ensures forall v :: v in s.ids && v != c && v != d ==> Idle(s.procs[v], v, 1)
  {
    forall v | v in s.ids && v != c && v != d ensures Idle(s.procs[v], v, 1) {
      assert Rests(s0.procs[v], v, 0, []);
    }
  }

  lemma FirstTerm(fix: Repairs, s: State, c: int, zone: set<int>) returns (s': State)
    requires !fix.quorum && |s.ids| >= 4 && |zone| == |s.ids| / 2 - 1
    requires Reach(fix, s) && s.procs.Keys == s.ids && c in s.ids && zone <= s.ids && c !in zone
             && AllNew(s, zone + {c})
    ensures Reach(fix, s') && Untouched(s, s', zone + {c}) && InOffice(s', c, 1) && AllRest(s', zone, 1, [])
  {
    var members := s.procs[c].n.members;
    assert Newcomer(s, c);
    NewRest(s, zone);
    s' := FirstElection(fix, s, c, zone, members);
  }

  /** Without repair B: both keep the votes of their first campaign, and each wins its second
      with one vote from the other's zone. */
  lemma StaleVotes(fix: Repairs, ids: set<int>) returns (s: State, c: int, d: int)
    requires fix.quorum && !fix.freshVotes && |ids| >= 4 && -1 !in ids
    ensures Reach(fix, s) && s.ids == ids && TwoLeaders(s, c, d) && Contest(s, c, d, 2)
  {
    var x, y;
    c, d, x, y := Split(ids);
    var s0 := BothShort(fix, ids, c, d, x, y);
    var v := PickFrom(x);
    var w := PickFrom(y);
    s := BothWin(fix, s0, c, d, x, y, v, w);
  }

  lemma BothWin(fix: Repairs, s: State, c: int, d: int, x: set<int>, y: set<int>, v: int, w: int) returns (s': State)
    requires fix.quorum && !fix.freshVotes && |s.ids| >= 4 && |x| == |y| == |s.ids| / 2 - 1 && x !! y
    requires Reach(fix, s) && s.procs.Keys == s.ids && {c, d, v, w} <= s.ids && c != d && v in x && w in y
    requires c !in x && c !in y && d !in x && d !in y && Short(s, c, x) && Short(s, d, y)
    requires forall u :: u in s.ids && u != c && u != d ==> Idle(s.procs[u], u, 1)
    requires Rests(s.procs[v], v, 1, []) && Rests(s.procs[w], w, 1, [])
    ensures Reach(fix, s') && s'.ids == s.ids && Contest(s', c, d, 2)
  {
    var s1 := SecondTerm(fix, s, c, x, w);
    assert Short(s1, d, y);
    s' := SecondTerm(fix, s1, d, y, v);
    assert InOffice(s', c, 2);
    StillIdle(s, s1, s', c, d, v, w);
  }

  lemma StillIdle(s0: State, s1: State, s: State, c: int, d: int, v: int, w: int)
    requires Untouched(s0, s1, {w, c}) && Untouched(s1, s, {v, d}) && v != w && v != c && w != d
    requires {c, d, v, w} <= s0.ids
    requires Rests(s1.procs[w], w, 2, []) && Rests(s.procs[v], v, 2, [])
    requires forall u :: u in s0.ids && u != c && u != d ==> Idle(s0.procs[u], u, 1)
    ensures forall u :: u in s.ids && u != c && u != d ==> Idle(s.procs[u], u, 2)
  {}

  lemma BothShort(fix: Repairs, ids: set<int>, c: int, d: int, x: set<int>, y: set<int>) returns (s: State)
    requires fix.quorum && |ids| >= 4 && -1 !in ids && c in ids && d in ids && c != d && x <= ids && y <= ids && x !! y
    requires c !in x && c !in y && d !in x && d !in y && |x| == |y| == |ids| / 2 - 1
    ensures Reach(fix, s) && s.ids == ids && s.procs.Keys == ids
    ensures Short(s, c, x) && Short(s, d, y) && AllRest(s, x, 1, []) && AllRest(s, y, 1, [])
    ensures forall v :: v in ids && v != c && v != d ==> Idle(s.procs[v], v, 1)
  {
    var s0 := Opening(fix, ids);
    var s1 := JustShort(fix, s0, c, x);
    StillNew(s0, s1, x + {c}, y + {d});
    NewRest(s0, ids);
    s := JustShort(fix, s1, d, y);
    Others(s0, s1, s, c, d, x, y);
  }

  /** A candidate that has collected the votes of `zone`, one short of a majority. */
  predicate Short(s: State, c: int, zone: set<int>)
    requires c in s.procs
  {
    var p := s.procs[c];
    && Rests(p, c, 1, []) && !p.n.status.Leader? && p.n.votes == {c} + zone && Lists(s.ids, c, p.n.members)
  }

  lemma JustShort(fix: Repairs, s: State, c: int, zone: set<int>) returns (s': State)
    requires fix.quorum && |s.ids| >= 4 && |zone| == |s.ids| / 2 - 1
    requires Reach(fix, s) && s.procs.Keys == s.ids && c in s.ids && zone <= s.ids && c !in zone
    requires AllNew(s, zone + {c})
    ensures Reach(fix, s') && Untouched(s, s', zone + {c})
    ensures Short(s', c, zone) && AllRest(s', zone, 1, [])
  {
    assert Newcomer(s, c);
    NewRest(s, zone);
    var s1 := StandAgain(fix, s, c, 1, [], s.procs[c].n.members);
    assert |{c}| == 1;
    var s2 := Ask(fix, s1, c, zone);
    s' := GiveUp(fix, s2, c);
  }

  lemma SecondTerm(fix: Repairs, s: State, c: int, old': set<int>, w: int) returns (s': State)
    requires fix.quorum && !fix.freshVotes && |s.ids| >= 4 && |old'| == |s.ids| / 2 - 1
    requires Reach(fix, s) && s.procs.Keys == s.ids && c in s.ids && w in s.ids && c != w && c !in old' && w !in old'
    requires Short(s, c, old') && Rests(s.procs[w], w, 1, [])
    ensures Reach(fix, s') && Untouched(s, s', {w, c}) && InOffice(s', c, 2) && Rests(s'.procs[w], w, 2, [])
  {
    var s1 := Stand(fix, s, c);
    assert |{c} + old'| == 1 + |old'|;
    s' := Win(fix, s1, c, {w});
  }
}
