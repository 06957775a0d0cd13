/** When the commit rule as written fails: from three servers on, a leader that counts
    acknowledgements of an entry from an earlier term commits what a later leader replaces,
    or only seems to replace. */
module EarlierTerms {
  import opened RaftTypes
  import opened Handlers
  import opened Cluster
  import opened Campaigns
  import S = Safety

  // ---- Replicating the entry of an earlier term ----

  /** A leader of two entries, the first from an earlier term, that has committed nothing. */
  predicate Sends(p: Proc, c: int, x: MapOp, y: MapOp, members: seq<int>) {
    && p.lock.Replicating? && p.n.me == c && p.n.status.Leader? && p.n.log == [x, y] && p.n.commitLength == 0
    && 1 <= x.term < y.term == p.n.term && p.n.members == members && |p.n.sent| == |p.n.ack| == |members|
  }

  /** A follower with nothing, or with one entry of another term in the first place. */
  predicate Behind(p: Proc, v: int, x: MapOp, t: int) {
    Rests(p, v, p.n.term, p.n.log) && p.n.term <= t && (p.n.log == [] || (|p.n.log| == 1 && p.n.log[0].term != x.term))
  }

  /** The log with which a follower of at most one entry answers the first entry. */
  function First(fix: Repairs, log: Log, x: MapOp): Log {
    if log == [] || (fix.cutConflict && log[0].term != x.term) then [x] else log
  }

  /** The follower refuses the second entry, and the leader backs off. */
  lemma BackOff(fix: Repairs, s: State, c: int, v: int, slot: nat, x: MapOp, y: MapOp) returns (s': State)
    requires Reach(fix, s) && s.procs.Keys == s.ids && c in s.ids && v in s.ids && c != v
    requires Sends(s.procs[c], c, x, y, s.procs[c].n.members) && Behind(s.procs[v], v, x, y.term)
    requires slot < |s.procs[c].n.members| - 1 && s.procs[c].n.members[slot] == v && s.procs[c].n.sent[slot] == 1
    ensures Reach(fix, s') && Untouched(s, s', {c, v})
    ensures s'.procs[c] == Proc(s.procs[c].n.(sent := s.procs[c].n.sent[slot := 0]), Replicating)
    ensures Behind(s'.procs[v], v, x, y.term) && s'.procs[v].n.term == y.term && s'.procs[v].n.log == s.procs[v].n.log
  {
    s' := Exchange(fix, s, c, v, slot);
  }

  /** The follower acknowledges the first entry, and the leader counts it. */
  lemma TakeFirst(fix: Repairs, s: State, c: int, v: int, slot: nat, x: MapOp, y: MapOp) returns (s': State)
    requires Reach(fix, s) && s.procs.Keys == s.ids && c in s.ids && v in s.ids && c != v
    requires Sends(s.procs[c], c, x, y, s.procs[c].n.members) && Behind(s.procs[v], v, x, y.term)
    requires slot < |s.procs[c].n.members| - 1 && s.procs[c].n.members[slot] == v && s.procs[c].n.sent[slot] == 0
    ensures Reach(fix, s') && Untouched(s, s', {c, v})
    ensures var n := s.procs[c].n;
            s'.procs[c] == Proc(CommitLog(fix, n.(sent := n.sent[slot := 1], ack := n.ack[slot := 1])), Replicating)
    ensures Rests(s'.procs[v], v, y.term, First(fix, s.procs[v].n.log, x))
  {
    var m := LogRequest(c, y.term, 0, 0, 0, x.term, x.customer, x.order);
    assert MakeLogRequest(s.procs[c].n, slot) == m && RequestOp(m) == x;
    s' := Exchange(fix, s, c, v, slot);
  }

  /** As written the leader commits the first entry once enough slots have it, whatever its
      term is. */
  lemma CommitsFirst(fix: Repairs, n: NodeState)
    requires !fix.ownTerm && |n.log| == 2 && n.commitLength == 0 && CountAck(n.ack, 2) * 2 <= |n.members|
    ensures CommitLog(fix, n) == if CountAck(n.ack, 1) * 2 > |n.members| then ExecuteLog(n) else n
  {
    var k := CommitPoint(fix, n, 2);
    assert !Acked(fix, n, 2);
    if CountAck(n.ack, 1) * 2 > |n.members| {
      assert Acked(fix, n, 1) && k == 1;
      assert ExecuteTo(ExecuteLog(n), 1) == ExecuteLog(n);
    } else {
      assert !Acked(fix, n, 1) && k == 0;
    }
  }

  /** The members of `zone` are all that is missing for a majority to have the first entry. */
  predicate Wanting(n: NodeState, zone: set<int>) {
    Missing(n, zone, 1, 1, |n.members| / 2 + 1) && CountAck(n.ack, 2) == 1
  }

  lemma PushOne(fix: Repairs, s: State, c: int, v: int, zone: set<int>, x: MapOp, y: MapOp) returns (s': State)
    requires !fix.ownTerm && Reach(fix, s) && s.procs.Keys == s.ids && c in s.ids && v in s.ids && c != v
    requires Sends(s.procs[c], c, x, y, s.procs[c].n.members) && Behind(s.procs[v], v, x, y.term)
    requires v in zone && Wanting(s.procs[c].n, zone)
    ensures Reach(fix, s') && Untouched(s, s', {c, v})
    ensures Rests(s'.procs[v], v, y.term, First(fix, s.procs[v].n.log, x))
    ensures if zone == {v}
            then s'.procs[c].n.log == [x, y] && s'.procs[c].n.commitLength == 1
            else Sends(s'.procs[c], c, x, y, s.procs[c].n.members) && Wanting(s'.procs[c].n, zone - {v})
  {
    var n := s.procs[c].n;
    var slot := SlotOf(n, zone, v, 1, 1, |n.members| / 2 + 1);
    var s1 := BackOff(fix, s, c, v, slot, x, y);
    s' := TakeFirst(fix, s1, c, v, slot, x, y);
    AfterPush(fix, n, s1.procs[c].n.(sent := s1.procs[c].n.sent[slot := 1], ack := n.ack[slot := 1]), c, v, slot,
        zone, x, y);
  }

  lemma AfterPush(fix: Repairs, n: NodeState, n1: NodeState, c: int, v: int, slot: nat, zone: set<int>, x: MapOp,
                  y: MapOp)
    requires !fix.ownTerm && Sends(Proc(n, Replicating), c, x, y, n.members)
    requires Wanting(n, zone) && v in zone && slot < |n.members| - 1 && n.members[slot] == v && n.ack[slot] == 0
    requires n1 == n.(sent := n.sent[slot := 0][slot := 1], ack := n.ack[slot := 1])
    ensures var n' := CommitLog(fix, n1);
            if zone == {v} then n'.log == [x, y] && n'.commitLength == 1
            else Sends(Proc(n', Replicating), c, x, y, n.members) && Wanting(n', zone - {v})
  {
    CountChanges(n.ack, slot, 1, 1);
    CountChanges(n.ack, slot, 1, 2);
    CommitsFirst(fix, n1);
    OneLess(n, n1, v, slot, zone, 1, 1, |n.members| / 2 + 1, 1);
    RestOf(zone, v);
  }

  predicate AllBehind(s: State, zone: set<int>, x: MapOp, t: int) {
    zone <= s.procs.Keys && forall v :: v in zone ==> Behind(s.procs[v], v, x, t)
  }

  /** What a push to `zone` leaves behind. */
  predicate Pushed(fix: Repairs, s: State, s': State, zone: set<int>, x: MapOp, t: int) {
    zone <= s.procs.Keys && zone <= s'.procs.Keys
    && forall v :: v in zone ==> Rests(s'.procs[v], v, t, First(fix, s.procs[v].n.log, x))
  }

  lemma {:induction false} PushAll(fix: Repairs, s: State, c: int, zone: set<int>, x: MapOp, y: MapOp)
    returns (s': State)
    requires !fix.ownTerm && Reach(fix, s) && s.procs.Keys == s.ids && c in s.ids
    requires zone <= s.ids && c !in zone && zone != {}
    requires Sends(s.procs[c], c, x, y, s.procs[c].n.members) && Wanting(s.procs[c].n, zone)
             && AllBehind(s, zone, x, y.term)
    ensures Reach(fix, s') && Untouched(s, s', zone + {c}) && Pushed(fix, s, s', zone, x, y.term)
    ensures s'.procs[c].n.log == [x, y] && s'.procs[c].n.commitLength == 1
    decreases |zone|
  {
    var v := PickFrom(zone);
    RestOf(zone, v);
    var s1 := PushOne(fix, s, c, v, zone, x, y);
    s' := s1;
    if zone != {v} {
      StillBehind(s, s1, c, v, zone, x, y.term);
      s' := PushAll(fix, s1, c, zone - {v}, x, y);
      PushedToo(fix, s, s1, s', c, v, zone, x, y.term);
    }
  }

  lemma StillBehind(s: State, s1: State, c: int, v: int, zone: set<int>, x: MapOp, t: int)
    requires Untouched(s, s1, {c, v}) && zone <= s.ids && c !in zone && AllBehind(s, zone, x, t)
    ensures AllBehind(s1, zone - {v}, x, t)
  {}

  lemma PushedToo(fix: Repairs, s: State, s1: State, s': State, c: int, v: int, zone: set<int>, x: MapOp, t: int)
    requires v in zone && zone <= s.ids && c in s.ids && c !in zone
    requires Untouched(s, s1, {c, v}) && Untouched(s1, s', zone - {v} + {c})
    requires Rests(s1.procs[v], v, t, First(fix, s.procs[v].n.log, x)) && Pushed(fix, s1, s', zone - {v}, x, t)
    ensures Untouched(s, s', zone + {c}) && Pushed(fix, s, s', zone, x, t)
  {}

  /** A re-elected leader brings its entry of an earlier term to `zone` and commits it. */
  lemma Commit(fix: Repairs, s: State, c: int, zone: set<int>, x: MapOp, y: MapOp, members: seq<int>, theirs: Log)
    returns (s': State)
    requires !fix.ownTerm && Reach(fix, s) && s.procs.Keys == s.ids && c in s.ids && |s.ids| >= 3
    requires zone <= s.ids && c !in zone && |zone| == |s.ids| / 2 && Lists(s.ids, c, members)
    requires s.procs[c].lock.Replicating? && Logged(s.procs[c], c, y.term, [x, y], members) && 1 <= x.term < y.term
    requires AllRest(s, zone, y.term, theirs) && (theirs == [] || (|theirs| == 1 && theirs[0].term != x.term))
    ensures Reach(fix, s') && Untouched(s, s', zone + {c}) && AllRest(s', zone, y.term, First(fix, theirs, x))
    ensures s'.procs[c].n.log == [x, y] && s'.procs[c].n.commitLength == 1
  {
    MissingAtFirst(s.procs[c], c, y.term, [x, y], s.ids, zone, members, 1);
    OwnAckOnly(s.procs[c], c, y.term, [x, y], members, 2);
    s' := PushAll(fix, s, c, zone, x, y);
  }

  // ---- The run ----

  const Old := MapOp(1, 0, 5)
  const New := MapOp(2, 0, 6)

  /** A candidate of an empty log wins the votes of `zone` and logs an order that reaches
      nobody. */
  lemma LogAlone(fix: Repairs, s: State, c: int, zone: set<int>, t: int, order: int, members: seq<int>)
    returns (s': State)
    requires Reach(fix, s) && s.procs.Keys == s.ids && c in s.ids && zone <= s.ids && c !in zone
    requires JustEnough(fix, |members|, zone) && |members| > 0
    requires Bids(s.procs[c], c, t, [], members) && AllRest(s, zone, t - 1, [])
    ensures Reach(fix, s') && Untouched(s, s', zone + {c}) && AllRest(s', zone, t, [])
    ensures s'.procs[c].lock.Free? && Logged(s'.procs[c], c, t, [MapOp(t, 0, order)], members)
  {
    var s1 := Reign(fix, s, c, zone, t, [], members, order);
    s' := Done(fix, s1, c);
  }

  /** `a` leads term 1 and logs an order. */
  lemma ActOne(fix: Repairs, s: State, a: int, zone: set<int>, ma: seq<int>) returns (s': State)
    requires Reach(fix, s) && s.procs.Keys == s.ids && a in s.ids && zone <= s.ids && a !in zone
    requires JustEnough(fix, |ma|, zone) && |ma| > 0
    requires Retired(s.procs[a], a, 0, [], ma) && AllRest(s, zone, 0, [])
    ensures Reach(fix, s') && Untouched(s, s', zone + {a}) && AllRest(s', zone, 1, [])
    ensures s'.procs[a].lock.Free? && Logged(s'.procs[a], a, 1, [Old], ma)
  {
    var s1 := StandAgain(fix, s, a, 1, [], ma);
    s' := LogAlone(fix, s1, a, zone, 1, 5, ma);
  }

  /** `c` leads term 2 and does the same. */
  lemma ActTwo(fix: Repairs, s: State, a: int, c: int, zone: set<int>, ma: seq<int>, mc: seq<int>) returns (s': State)
    requires Reach(fix, s) && s.procs.Keys == s.ids && a in s.ids && c in s.ids && a != c && zone <= s.ids
             && a !in zone && c !in zone
    requires JustEnough(fix, |mc|, zone) && |mc| > 0
    requires s.procs[a].lock.Free? && Logged(s.procs[a], a, 1, [Old], ma)
    requires Retired(s.procs[c], c, 0, [], mc) && AllRest(s, zone, 1, [])
    ensures Reach(fix, s') && Untouched(s, s', zone + {a, c}) && AllRest(s', zone, 2, [])
    ensures Retired(s'.procs[a], a, 2, [Old], ma)
    ensures s'.procs[c].lock.Free? && Logged(s'.procs[c], c, 2, [New], mc)
  {
    var s1 := Overthrow(fix, s, a, c, ma, mc);
    s' := LogAlone(fix, s1, c, zone, 2, 6, mc);
  }

  /** `c`, on its second try, unseats `a`. */
  lemma Overthrow(fix: Repairs, s: State, a: int, c: int, ma: seq<int>, mc: seq<int>) returns (s': State)
    requires Reach(fix, s) && s.procs.Keys == s.ids && a in s.ids && c in s.ids && a != c
    requires s.procs[a].lock.Free? && Logged(s.procs[a], a, 1, [Old], ma) && Retired(s.procs[c], c, 0, [], mc)
    ensures Reach(fix, s') && Untouched(s, s', {a, c})
    ensures Retired(s'.procs[a], a, 2, [Old], ma) && Bids(s'.procs[c], c, 2, [], mc)
  {
    var s1 := SecondTry(fix, s, c, mc);
    s' := Replaced(fix, s1, c, a, 2);
  }

  /** A server of one entry wins the votes of `zone` again, logs another order and commits the
      first. */
  lemma CommitOld(fix: Repairs, s: State, c: int, zone: set<int>, t: int, x: MapOp, order: int, theirs: Log,
                  members: seq<int>)
    returns (s': State)
    requires !fix.ownTerm && Reach(fix, s) && s.procs.Keys == s.ids && c in s.ids && zone <= s.ids && c !in zone
             && |s.ids| >= 3
    requires |zone| == |s.ids| / 2 && JustEnough(fix, |members|, zone) && Lists(s.ids, c, members)
    requires 1 <= x.term < t && Bids(s.procs[c], c, t, [x], members) && AllRest(s, zone, t - 1, theirs)
    requires theirs == [] || (|theirs| == 1 && theirs[0].term < x.term)
    ensures Reach(fix, s') && Untouched(s, s', zone + {c}) && AllRest(s', zone, t, First(fix, theirs, x))
    ensures s'.procs[c].n.log == [x, MapOp(t, 0, order)] && s'.procs[c].n.commitLength == 1
  {
    var s1 := Reign(fix, s, c, zone, t, [x], members, order);
    VotersRest(s, s1, zone, t, theirs);
    s' := Commit(fix, s1, c, zone, x, MapOp(t, 0, order), members, theirs);
  }

  lemma VotersRest(s: State, s': State, zone: set<int>, t: int, theirs: Log)
    requires AllRest(s, zone, t - 1, theirs) && zone <= s'.procs.Keys
    requires forall v :: v in zone ==> HasVoted(s.procs[v], s'.procs[v], v, t)
    ensures AllRest(s', zone, t, theirs)
  {}

  /** `a` leads again, in term 3, and commits its order of term 1. */
  lemma ActThree(fix: Repairs, s: State, a: int, c: int, zone: set<int>, ma: seq<int>, mc: seq<int>) returns (s': State)
    requires !fix.ownTerm && Reach(fix, s) && s.procs.Keys == s.ids && |s.ids| >= 3
    requires a in s.ids && c in s.ids && a != c && zone <= s.ids && a !in zone && c !in zone && |zone| == |s.ids| / 2
    requires JustEnough(fix, |ma|, zone) && Lists(s.ids, a, ma) && Retired(s.procs[a], a, 2, [Old], ma)
    requires s.procs[c].lock.Free? && Logged(s.procs[c], c, 2, [New], mc) && AllRest(s, zone, 2, [])
    ensures Reach(fix, s') && Untouched(s, s', zone + {a, c}) && AllRest(s', zone, 3, [Old])
    ensures var n := s'.procs[a].n; n.commitLength == 1 && n.log == [Old, MapOp(3, 0, 7)]
    ensures Retired(s'.procs[c], c, 3, [New], mc)
  {
    var s1 := StandAgain(fix, s, a, 3, [Old], ma);
    var s2 := Replaced(fix, s1, a, c, 3);
    s' := CommitOld(fix, s2, a, zone, 3, Old, 7, [], ma);
  }

  /** `c` leads again, in term 4, and commits its order of term 2 in the same place. */
  lemma ActFour(fix: Repairs, s: State, c: int, zone: set<int>, mc: seq<int>) returns (s': State)
    requires !fix.ownTerm && Reach(fix, s) && s.procs.Keys == s.ids && |s.ids| >= 3
    requires c in s.ids && zone <= s.ids && c !in zone && |zone| == |s.ids| / 2
    requires JustEnough(fix, |mc|, zone) && Lists(s.ids, c, mc) && Retired(s.procs[c], c, 3, [New], mc)
    requires AllRest(s, zone, 3, [Old])
    ensures Reach(fix, s') && Untouched(s, s', zone + {c})
    ensures var n := s'.procs[c].n; n.commitLength == 1 && n.log == [New, MapOp(4, 0, 8)]
  {
    var s1 := StandAgain(fix, s, c, 4, [New], mc);
    s' := CommitOld(fix, s1, c, zone, 4, New, 8, [Old], mc);
  }

  /** Without repair E, from three servers on, with or without C and D: two servers commit
      different orders in the same place of their logs. */
  lemma TwoCommits(fix: Repairs, ids: set<int>) returns (s: State, a: int, c: int)
    requires S.FairVotes(fix, |ids|) && !fix.ownTerm && |ids| >= 3 && -1 !in ids
    ensures Reach(fix, s) && s.ids == ids && a in s.procs && c in s.procs
    ensures !S.AgreeOnCommitted(s.procs[a].n, s.procs[c].n)
  {
    var s0, zone;
    s0, a, c, zone := Begin(fix, ids);
    var ma, mc := s0.procs[a].n.members, s0.procs[c].n.members;
    HalfIsEnough(fix, |ids|, zone);
    s := ActOne(fix, s0, a, zone, ma);
    s := ActTwo(fix, s, a, c, zone, ma, mc);
    s := LastActs(fix, s, a, c, zone, ma, mc);
  }

  lemma LastActs(fix: Repairs, s: State, a: int, c: int, zone: set<int>, ma: seq<int>, mc: seq<int>) returns (s': State)
    requires !fix.ownTerm && Reach(fix, s) && s.procs.Keys == s.ids && |s.ids| >= 3
    requires a in s.ids && c in s.ids && a != c && zone <= s.ids && a !in zone && c !in zone && |zone| == |s.ids| / 2
    requires JustEnough(fix, |ma|, zone) && Lists(s.ids, a, ma) && Retired(s.procs[a], a, 2, [Old], ma)
    requires JustEnough(fix, |mc|, zone) && Lists(s.ids, c, mc) && Logged(s.procs[c], c, 2, [New], mc)
    requires s.procs[c].lock.Free? && AllRest(s, zone, 2, [])
    ensures Reach(fix, s') && s'.ids == s.ids && a in s'.procs && c in s'.procs
    ensures !S.AgreeOnCommitted(s'.procs[a].n, s'.procs[c].n)
  {
    var s1 := ActThree(fix, s, a, c, zone, ma, mc);
    s' := ActFour(fix, s1, c, zone, mc);
    assert s'.procs[a].n.log[0] != s'.procs[c].n.log[0];
  }
}
