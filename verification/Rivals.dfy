/** What two leaders of one term do in a cluster of three servers or more: each logs an order
    of its own in the same place, the others acknowledge both and keep the first, and both
    leaders commit. No repair of the truncation or of the commit rule helps. */
module Rivals {
  import opened RaftTypes
  import opened Handlers
  import opened Cluster
  import opened Campaigns
  import opened SplitVotes
  import opened Conflicts
  import S = Safety

  /** Half of the servers besides the two rivals. */
  lemma Crowd(ids: set<int>, c: int, d: int) returns (zone: set<int>)
    requires |ids| >= 3 && c in ids && d in ids && c != d
    ensures zone <= ids && c !in zone && d !in zone && |zone| == |ids| / 2
  {
    RestOf(ids, c);
    RestOf(ids - {c}, d);
    zone := TakeSome(ids - {c} - {d}, |ids| / 2);
  }

  /** A new leader logs an order. */
  lemma LogOne(fix: Repairs, s: State, c: int, t: int, order: int) returns (s': State)
    requires Reach(fix, s) && s.procs.Keys == s.ids && c in s.ids && InOffice(s, c, t)
    ensures Reach(fix, s') && Untouched(s, s', {c}) && s'.procs[c].lock.Replicating?
    ensures Logged(s'.procs[c], c, t, [MapOp(t, 0, order)], s.procs[c].n.members)
  {
    s' := ReachStep(fix, s, Update(c, 0, order));
  }

  /** `c` logs an order, brings it to the crowd and commits it. */
  lemma FirstCommits(fix: Repairs, s: State, c: int, d: int, t: int, zone: set<int>) returns (s': State)
    requires Reach(fix, s) && Contest(s, c, d, t) && |s.ids| >= 3
    requires zone <= s.ids && c !in zone && d !in zone && |zone| == |s.ids| / 2
    ensures Reach(fix, s') && Untouched(s, s', zone + {c}) && AllRest(s', zone, t, [MapOp(t, 0, 5)])
    ensures s'.procs[c].n.log == [MapOp(t, 0, 5)] && s'.procs[c].n.commitLength == 1
  {
    var s1 := LogOne(fix, s, c, t, 5);
    assert AllBelow(s1, zone, t);
    s' := Offer(fix, s1, c, zone, MapOp(t, 0, 5), s.procs[c].n.members);
  }

  /** `d` does the same in the same place, and nobody stores its order. */
  lemma SecondCommits(fix: Repairs, s: State, d: int, t: int, zone: set<int>) returns (s': State)
    requires Reach(fix, s) && s.procs.Keys == s.ids && d in s.ids && InOffice(s, d, t) && 1 <= t && |s.ids| >= 3
    requires zone <= s.ids && d !in zone && |zone| == |s.ids| / 2 && AllRest(s, zone, t, [MapOp(t, 0, 5)])
    ensures Reach(fix, s') && Untouched(s, s', zone + {d})
    ensures s'.procs[d].n.log == [MapOp(t, 0, 6)] && s'.procs[d].n.commitLength == 1
  {
    var s1 := LogOne(fix, s, d, t, 6);
    assert AllBelow(s1, zone, t);
    s' := Offer(fix, s1, d, zone, MapOp(t, 0, 6), s.procs[d].n.members);
  }

  /** Two leaders of one term commit different orders. */
  lemma RivalsCommit(fix: Repairs, s: State, c: int, d: int, t: int) returns (s': State)
    requires Reach(fix, s) && Contest(s, c, d, t) && |s.ids| >= 3
    ensures Reach(fix, s') && s'.ids == s.ids && c in s'.procs && d in s'.procs
    ensures !S.AgreeOnCommitted(s'.procs[c].n, s'.procs[d].n)
  {
    var zone := Crowd(s.ids, c, d);
    var s1 := FirstCommits(fix, s, c, d, t, zone);
    s' := SecondCommits(fix, s1, d, t, zone);
    assert s'.procs[c].n.log[0] != s'.procs[d].n.log[0];
  }

  /** And before they do, one of them has a hollow acknowledgement. */
  lemma RivalsAcknowledged(fix: Repairs, s: State, c: int, d: int, t: int) returns (s': State, slot: nat)
    requires Reach(fix, s) && Contest(s, c, d, t) && |s.ids| >= 3
    ensures Reach(fix, s') && s'.ids == s.ids && HollowAck(s', d, slot)
  {
    var zone := Crowd(s.ids, c, d);
    var s1 := FirstCommits(fix, s, c, d, t, zone);
    var s2 := LogOne(fix, s1, d, t, 6);
    var v := PickFrom(zone);
    s', slot := AcknowledgesHollow(fix, s2, v, d, MapOp(t, 0, 6), s.procs[d].n.members);
  }
}
