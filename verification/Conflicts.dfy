/** When the truncation as written fails: it is never reached, so a follower acknowledges an
    entry in whose place it keeps another. From three servers on a leader then has hollow
    acknowledgements, and in clusters of three, five or more it commits by them what a later
    leader replaces. */
module Conflicts {
  import opened RaftTypes
  import opened Handlers
  import opened Cluster
  import opened Campaigns
  import opened EarlierTerms
  import S = Safety

  /** An acknowledgement in a leader's slot without the entries it stands for. */
  predicate HollowAck(s: State, c: int, slot: nat) {
    && c in s.procs && s.procs[c].n.status.Leader? && HasSlot(s.procs[c].n, slot)
    && var n := s.procs[c].n;
       && n.members[slot] in s.procs && s.procs[n.members[slot]].n.term == n.term
       && 0 <= n.ack[slot] <= |n.log| && !(n.log[..n.ack[slot]] <= s.procs[n.members[slot]].n.log)
  }

  // ---- Pushing a first entry ----

  /** A leader of one entry, of its own term, that has committed nothing. */
  predicate Offers(p: Proc, c: int, y: MapOp, members: seq<int>) {
    && p.lock.Replicating? && p.n.me == c && p.n.status.Leader? && p.n.log == [y] && p.n.commitLength == 0
    && 1 <= y.term == p.n.term && p.n.members == members && |p.n.sent| == |p.n.ack| == |members|
  }

  /** A follower with at most one entry. */
  predicate Below(p: Proc, v: int, t: int) {
    Rests(p, v, p.n.term, p.n.log) && p.n.term <= t && |p.n.log| <= 1
  }

  predicate AllBelow(s: State, zone: set<int>, t: int) {
    zone <= s.procs.Keys && forall v :: v in zone ==> Below(s.procs[v], v, t)
  }

  lemma StillBelow(s: State, s1: State, c: int, v: int, zone: set<int>, t: int)
    requires Untouched(s, s1, {c, v}) && zone <= s.ids && c !in zone && AllBelow(s, zone, t)
    ensures AllBelow(s1, zone - {v}, t)
  {}

  /** The follower acknowledges the entry, and stores it if it has nothing in its place
      or cuts what it has. */
  lemma PushOwn(fix: Repairs, s: State, c: int, v: int, slot: nat, y: MapOp) returns (s': State)
    requires Reach(fix, s) && s.procs.Keys == s.ids && c in s.ids && v in s.ids && c != v
    requires Offers(s.procs[c], c, y, s.procs[c].n.members) && Below(s.procs[v], v, y.term)
    requires slot < |s.procs[c].n.members| - 1 && s.procs[c].n.members[slot] == v && s.procs[c].n.sent[slot] == 0
    ensures Reach(fix, s') && Untouched(s, s', {c, v})
    ensures var n := s.procs[c].n;
            s'.procs[c] == Proc(CommitLog(fix, n.(sent := n.sent[slot := 1], ack := n.ack[slot := 1])), Replicating)
    ensures Retired(s'.procs[v], v, y.term, First(fix, s.procs[v].n.log, y), s.procs[v].n.members)
  {
    var m := LogRequest(c, y.term, 0, 0, 0, y.term, y.customer, y.order);
    assert MakeLogRequest(s.procs[c].n, slot) == m && RequestOp(m) == y;
    s' := Exchange(fix, s, c, v, slot);
  }

  /** A leader commits its own entry once enough slots have it, under either rule. */
  lemma CommitsOwn(fix: Repairs, n: NodeState)
    requires |n.log| == 1 && n.log[0].term == n.term && n.commitLength == 0
    ensures CommitLog(fix, n) == if CountAck(n.ack, 1) * 2 > |n.members| then ExecuteLog(n) else n
  {
    var k := CommitPoint(fix, n, 1);
    if CountAck(n.ack, 1) * 2 > |n.members| {
      assert Acked(fix, n, 1) && k == 1;
      assert ExecuteTo(ExecuteLog(n), 1) == ExecuteLog(n);
    } else {
      assert !Acked(fix, n, 1) && k == 0;
    }
  }

  /** The leader after a push to a group: it commits if the group makes a majority. */
  predicate Offered(p: Proc, p': Proc, y: MapOp, commit: nat) {
    && p'.lock.Replicating? && p'.n.me == p.n.me && p'.n.status.Leader? && p'.n.log == [y] && p'.n.term == p.n.term
    && p'.n.members == p.n.members && p'.n.commitLength == commit
  }

  predicate Took(fix: Repairs, s: State, s': State, zone: set<int>, y: MapOp) {
    zone <= s.procs.Keys && zone <= s'.procs.Keys
    && forall v :: v in zone ==> Retired(s'.procs[v], v, y.term, First(fix, s.procs[v].n.log, y), s.procs[v].n.members)
  }

  lemma PushOwnOne(fix: Repairs, s: State, c: int, v: int, zone: set<int>, y: MapOp, goal: nat) returns (s': State)
    requires Reach(fix, s) && s.procs.Keys == s.ids && c in s.ids && v in s.ids && c != v
    requires Offers(s.procs[c], c, y, s.procs[c].n.members) && Below(s.procs[v], v, y.term)
    requires v in zone && Missing(s.procs[c].n, zone, 0, 1, goal) && goal <= |s.procs[c].n.members| / 2 + 1
    ensures Reach(fix, s') && Untouched(s, s', {c, v})
    ensures Retired(s'.procs[v], v, y.term, First(fix, s.procs[v].n.log, y), s.procs[v].n.members)
    ensures if zone == {v} && goal == |s.procs[c].n.members| / 2 + 1
            then Offered(s.procs[c], s'.procs[c], y, 1)
            else Offers(s'.procs[c], c, y, s.procs[c].n.members) && Missing(s'.procs[c].n, zone - {v}, 0, 1, goal)
  {
    var n := s.procs[c].n;
    var slot := SlotOf(n, zone, v, 0, 1, goal);
    s' := PushOwn(fix, s, c, v, slot, y);
    var n1 := n.(sent := n.sent[slot := 1], ack := n.ack[slot := 1]);
    CommitsOwn(fix, n1);
    OneLess(n, n1, v, slot, zone, 0, 1, goal, 1);
    RestOf(zone, v);
  }

  lemma {:induction false} PushOwnAll(fix: Repairs, s: State, c: int, zone: set<int>, y: MapOp, goal: nat)
    returns (s': State)
    requires Reach(fix, s) && s.procs.Keys == s.ids && c in s.ids && zone <= s.ids && c !in zone
    requires Offers(s.procs[c], c, y, s.procs[c].n.members) && AllBelow(s, zone, y.term)
    requires Missing(s.procs[c].n, zone, 0, 1, goal) && goal <= |s.procs[c].n.members| / 2 + 1
    ensures Reach(fix, s') && Untouched(s, s', zone + {c}) && Took(fix, s, s', zone, y)
    ensures Offered(s.procs[c], s'.procs[c], y, if zone != {} && goal == |s.procs[c].n.members| / 2 + 1 then 1 else 0)
    decreases |zone|
  {
    s' := s;
    if zone != {} {
      var v := PickFrom(zone);
      RestOf(zone, v);
      var s1 := PushOwnOne(fix, s, c, v, zone, y, goal);
      s' := s1;
      if zone != {v} {
        StillBelow(s, s1, c, v, zone, y.term);
        s' := PushOwnAll(fix, s1, c, zone - {v}, y, goal);
        TookToo(fix, s, s1, s', c, v, zone, y);
      }
    }
  }

  lemma TookToo(fix: Repairs, s: State, s1: State, s': State, c: int, v: int, zone: set<int>, y: MapOp)
    requires v in zone && zone <= s.ids && c in s.ids && c !in zone
    requires Untouched(s, s1, {c, v}) && Untouched(s1, s', zone - {v} + {c})
    requires Retired(s1.procs[v], v, y.term, First(fix, s.procs[v].n.log, y), s.procs[v].n.members)
    requires Took(fix, s1, s', zone - {v}, y)
    ensures Untouched(s, s', zone + {c}) && Took(fix, s, s', zone, y)
  {}

  // ---- Pushing two entries ----

  /** With the rule repaired only the second entry, of the leader's term, is counted. */
  lemma CommitsSecond(fix: Repairs, n: NodeState)
    requires fix.ownTerm && |n.log| == 2 && n.log[0].term < n.log[1].term == n.term && n.commitLength == 0
    ensures CountAck(n.ack, 2) * 2 <= |n.members| ==> CommitLog(fix, n) == n
    ensures CountAck(n.ack, 2) * 2 > |n.members| ==>
              CommitLog(fix, n).log == n.log && CommitLog(fix, n).commitLength == 2
  {
    var k := CommitPoint(fix, n, 2);
    assert !Acked(fix, n, 1);
    ExecuteKeeps(n, k);
    if CountAck(n.ack, 2) * 2 > |n.members| {
      assert Acked(fix, n, 2) && k == 2;
    } else {
      assert !Acked(fix, n, 2) && k == 0;
    }
  }

  /** A follower that has the first entry takes the second. */
  lemma TakeSecond(fix: Repairs, s: State, c: int, v: int, slot: nat, x: MapOp, y: MapOp) returns (s': State)
    requires Reach(fix, s) && s.procs.Keys == s.ids && c in s.ids && v in s.ids && c != v
    requires Sends(s.procs[c], c, x, y, s.procs[c].n.members)
    requires Rests(s.procs[v], v, s.procs[v].n.term, [x]) && s.procs[v].n.term <= y.term
    requires slot < |s.procs[c].n.members| - 1 && s.procs[c].n.members[slot] == v && s.procs[c].n.sent[slot] == 1
    ensures Reach(fix, s') && Untouched(s, s', {c, v})
    ensures var n := s.procs[c].n;
            s'.procs[c] == Proc(CommitLog(fix, n.(sent := n.sent[slot := 2], ack := n.ack[slot := 2])), Replicating)
  {
    s' := Exchange(fix, s, c, v, slot);
  }

  /** A follower with nothing or with the first entry only. */
  predicate Starting(p: Proc, v: int, x: MapOp, t: int) {
    Rests(p, v, p.n.term, p.n.log) && p.n.term <= t && (p.n.log == [] || p.n.log == [x])
  }

  predicate AllStarting(s: State, zone: set<int>, x: MapOp, t: int) {
    zone <= s.procs.Keys && forall v :: v in zone ==> Starting(s.procs[v], v, x, t)
  }

  /** The leader once the follower has the first entry. */
  lemma BringFirst(fix: Repairs, s: State, c: int, v: int, slot: nat, x: MapOp, y: MapOp) returns (s': State)
    requires fix.ownTerm && Reach(fix, s) && s.procs.Keys == s.ids && c in s.ids && v in s.ids && c != v
    requires Sends(s.procs[c], c, x, y, s.procs[c].n.members) && Starting(s.procs[v], v, x, y.term)
    requires slot < |s.procs[c].n.members| - 1 && s.procs[c].n.members[slot] == v
    requires s.procs[c].n.sent[slot] == 1 && s.procs[c].n.ack[slot] == 0
    requires CountAck(s.procs[c].n.ack, 2) * 2 <= |s.procs[c].n.members|
    ensures Reach(fix, s') && Untouched(s, s', {c, v})
    ensures Rests(s'.procs[v], v, s'.procs[v].n.term, [x]) && s'.procs[v].n.term <= y.term
    ensures var n, a := s.procs[c].n, if s.procs[v].n.log == [] then 1 else 0;
            s'.procs[c] == Proc(n.(ack := n.ack[slot := a]), Replicating)
  {
    s' := s;
    var n := s.procs[c].n;
    if s.procs[v].n.log == [] {
      var s1 := BackOff(fix, s, c, v, slot, x, y);
      s' := TakeFirst(fix, s1, c, v, slot, x, y);
      CountChanges(n.ack, slot, 1, 2);
      var n1 := n.(ack := n.ack[slot := 1]);
      assert s1.procs[c].n.(sent := s1.procs[c].n.sent[slot := 1], ack := n.ack[slot := 1]) == n1;
      CommitsSecond(fix, n1);
    } else {
      assert n.ack[slot := 0] == n.ack;
    }
  }

  /** The leader once the follower has both entries. */
  lemma BringBoth(fix: Repairs, s: State, c: int, v: int, slot: nat, x: MapOp, y: MapOp) returns (s': State)
    requires fix.ownTerm && Reach(fix, s) && s.procs.Keys == s.ids && c in s.ids && v in s.ids && c != v
    requires Sends(s.procs[c], c, x, y, s.procs[c].n.members) && Starting(s.procs[v], v, x, y.term)
    requires slot < |s.procs[c].n.members| - 1 && s.procs[c].n.members[slot] == v
    requires s.procs[c].n.sent[slot] == 1 && s.procs[c].n.ack[slot] == 0
    requires CountAck(s.procs[c].n.ack, 2) * 2 <= |s.procs[c].n.members|
    ensures Reach(fix, s') && Untouched(s, s', {c, v})
    ensures var n := s.procs[c].n;
            s'.procs[c] == Proc(CommitLog(fix, n.(sent := n.sent[slot := 2], ack := n.ack[slot := 2])), Replicating)
  {
    var s1 := BringFirst(fix, s, c, v, slot, x, y);
    s' := TakeSecond(fix, s1, c, v, slot, x, y);
    assert s1.procs[c].n.ack[slot := 2] == s.procs[c].n.ack[slot := 2];
  }

  lemma PushBothOne(fix: Repairs, s: State, c: int, v: int, zone: set<int>, x: MapOp, y: MapOp) returns (s': State)
    requires fix.ownTerm && Reach(fix, s) && s.procs.Keys == s.ids && c in s.ids && v in s.ids && c != v
    requires Sends(s.procs[c], c, x, y, s.procs[c].n.members) && Starting(s.procs[v], v, x, y.term)
    requires v in zone && Missing(s.procs[c].n, zone, 1, 2, |s.procs[c].n.members| / 2 + 1)
    ensures Reach(fix, s') && Untouched(s, s', {c, v})
    ensures BothTaken(s'.procs[c], c, zone - {v}, x, y, s.procs[c].n.members)
  {
    var n := s.procs[c].n;
    var slot := SlotOf(n, zone, v, 1, 2, |n.members| / 2 + 1);
    RestOf(zone, v);
    s' := BringBoth(fix, s, c, v, slot, x, y);
    AfterBoth(fix, n, n.(sent := n.sent[slot := 2], ack := n.ack[slot := 2]), c, v, slot, zone, x, y);
  }

  /** A leader with `zone` still to push to, or with both entries committed. */
  predicate BothTaken(p: Proc, c: int, zone: set<int>, x: MapOp, y: MapOp, members: seq<int>) {
    if zone == {} then p.n.log == [x, y] && p.n.commitLength == 2
    else Sends(p, c, x, y, members) && Missing(p.n, zone, 1, 2, |members| / 2 + 1)
  }

  lemma AfterBoth(fix: Repairs, n: NodeState, n1: NodeState, c: int, v: int, slot: nat, zone: set<int>, x: MapOp,
                  y: MapOp)
    requires fix.ownTerm && Sends(Proc(n, Replicating), c, x, y, n.members)
    requires Missing(n, zone, 1, 2, |n.members| / 2 + 1) && v in zone
    requires slot < |n.members| - 1 && n.members[slot] == v && n.ack[slot] == 0
    requires n1 == n.(sent := n.sent[slot := 2], ack := n.ack[slot := 2])
    ensures BothTaken(Proc(CommitLog(fix, n1), Replicating), c, zone - {v}, x, y, n.members)
  {
    OneLess(n, n1, v, slot, zone, 1, 2, |n.members| / 2 + 1, 2);
    CountsBoth(fix, n1, c, zone - {v}, x, y);
  }

  lemma CountsBoth(fix: Repairs, n: NodeState, c: int, zone: set<int>, x: MapOp, y: MapOp)
    requires fix.ownTerm && Sends(Proc(n, Replicating), c, x, y, n.members)
    requires Missing(n, zone, 1, 2, |n.members| / 2 + 1)
    ensures BothTaken(Proc(CommitLog(fix, n), Replicating), c, zone, x, y, n.members)
  {
    CommitsSecond(fix, n);
    assert zone == {} <==> CountAck(n.ack, 2) * 2 > |n.members|;
  }

  lemma {:induction false} PushBoth(fix: Repairs, s: State, c: int, zone: set<int>, x: MapOp, y: MapOp)
    returns (s': State)
    requires fix.ownTerm && Reach(fix, s) && s.procs.Keys == s.ids && c in s.ids && zone <= s.ids && c !in zone
    requires BothTaken(s.procs[c], c, zone, x, y, s.procs[c].n.members) && AllStarting(s, zone, x, y.term)
    ensures Reach(fix, s') && Untouched(s, s', zone + {c})
    ensures s'.procs[c].n.log == [x, y] && s'.procs[c].n.commitLength == 2
    decreases |zone|
  {
    s' := s;
    if zone != {} {
      var v := PickFrom(zone);
      RestOf(zone, v);
      var s1 := PushBothOne(fix, s, c, v, zone, x, y);
      StillStarting(s, s1, c, v, zone, x, y.term);
      SameMembers(s1.procs[c], c, zone - {v}, x, y, s.procs[c].n.members);
      s' := PushBoth(fix, s1, c, zone - {v}, x, y);
    }
  }

  lemma SameMembers(p: Proc, c: int, zone: set<int>, x: MapOp, y: MapOp, members: seq<int>)
    requires BothTaken(p, c, zone, x, y, members)
    ensures BothTaken(p, c, zone, x, y, p.n.members)
  {}

  lemma StillStarting(s: State, s1: State, c: int, v: int, zone: set<int>, x: MapOp, t: int)
    requires Untouched(s, s1, {c, v}) && zone <= s.ids && c !in zone && AllStarting(s, zone, x, t)
    ensures AllStarting(s1, zone - {v}, x, t)
  {}

  // ---- The runs ----

  /** A leader with a first entry brings it to `zone`, and commits it if that is enough. */
  lemma Offer(fix: Repairs, s: State, c: int, zone: set<int>, y: MapOp, members: seq<int>) returns (s': State)
    requires Reach(fix, s) && s.procs.Keys == s.ids && c in s.ids && zone <= s.ids && c !in zone && |s.ids| >= 3
    requires Lists(s.ids, c, members) && |zone| <= |s.ids| / 2 && 1 <= y.term
    requires s.procs[c].lock.Replicating? && Logged(s.procs[c], c, y.term, [y], members)
             && AllBelow(s, zone, y.term)
    ensures Reach(fix, s') && Untouched(s, s', zone + {c}) && Took(fix, s, s', zone, y)
    ensures Offered(s.procs[c], s'.procs[c], y, if zone != {} && |zone| == |s.ids| / 2 then 1 else 0)
  {
    MissingAtFirst(s.procs[c], c, y.term, [y], s.ids, zone, members, 1);
    s' := PushOwnAll(fix, s, c, zone, y, |zone| + 1);
  }

  /** `a` leads term 1 and logs an order. */
  lemma FirstReign(fix: Repairs, s: State, a: int, voters: set<int>, ma: seq<int>) returns (s': State)
    requires Reach(fix, s) && s.procs.Keys == s.ids && a in s.ids && voters <= s.ids && a !in voters
    requires JustEnough(fix, |ma|, voters) && |ma| > 0
    requires Retired(s.procs[a], a, 0, [], ma) && AllRest(s, voters, 0, [])
    ensures Reach(fix, s') && Untouched(s, s', voters + {a}) && AllRest(s', voters, 1, [])
    ensures s'.procs[a].lock.Replicating? && Logged(s'.procs[a], a, 1, [Old], ma)
  {
    var s1 := StandAgain(fix, s, a, 1, [], ma);
    s' := Reign(fix, s1, a, voters, 1, [], ma, 5);
  }

  /** It brings the order to `few`, less than half of the others. */
  lemma FirstOrder(fix: Repairs, s: State, a: int, few: set<int>, ma: seq<int>) returns (s': State)
    requires Reach(fix, s) && s.procs.Keys == s.ids && a in s.ids && few <= s.ids && a !in few && |s.ids| >= 3
    requires Lists(s.ids, a, ma) && |few| < |s.ids| / 2
    requires s.procs[a].lock.Replicating? && Logged(s.procs[a], a, 1, [Old], ma) && AllRest(s, few, 0, [])
    ensures Reach(fix, s') && Untouched(s, s', few + {a}) && AllRest(s', few, 1, [Old])
    ensures Rests(s'.procs[a], a, 1, [Old]) && s'.procs[a].n.members == ma
  {
    var s1 := Offer(fix, s, a, few, Old, ma);
    s' := Done(fix, s1, a);
  }

  /** `c` leads term 2 and logs another order. */
  lemma SecondReign(fix: Repairs, s: State, c: int, voters: set<int>, mc: seq<int>) returns (s': State)
    requires Reach(fix, s) && s.procs.Keys == s.ids && c in s.ids && voters <= s.ids && c !in voters
    requires JustEnough(fix, |mc|, voters) && |mc| > 0
    requires Retired(s.procs[c], c, 0, [], mc) && AllRest(s, voters, 1, [])
    ensures Reach(fix, s') && Untouched(s, s', voters + {c}) && AllRest(s', voters, 2, [])
    ensures s'.procs[c].lock.Replicating? && Logged(s'.procs[c], c, 2, [New], mc)
  {
    var s1 := SecondTry(fix, s, c, mc);
    s' := Reign(fix, s1, c, voters, 2, [], mc, 6);
  }

  /** `a` leads again, in term 3, with another order. */
  lemma ThirdReign(fix: Repairs, s: State, a: int, third: set<int>, ma: seq<int>) returns (s': State)
    requires Reach(fix, s) && s.procs.Keys == s.ids && a in s.ids && third <= s.ids && a !in third
    requires JustEnough(fix, |ma|, third) && |ma| > 0
    requires Retired(s.procs[a], a, 2, [Old], ma) && AllStarting(s, third, Old, 2)
    ensures Reach(fix, s') && Untouched(s, s', third + {a}) && AllStarting(s', third, Old, 3)
    ensures s'.procs[a].lock.Replicating? && Logged(s'.procs[a], a, 3, [Old, MapOp(3, 0, 7)], ma)
  {
    var s1 := StandAgain(fix, s, a, 3, [Old], ma);
    s' := Reign(fix, s1, a, third, 3, [Old], ma, 7);
    StartingVoters(s, s', third);
  }

  /** It commits its first order with the new one. */
  lemma Overwrite(fix: Repairs, s: State, a: int, third: set<int>, ma: seq<int>) returns (s': State)
    requires fix.ownTerm && Reach(fix, s) && s.procs.Keys == s.ids && a in s.ids && third <= s.ids && a !in third
             && |s.ids| >= 3
    requires Lists(s.ids, a, ma) && |third| == |s.ids| / 2 && AllStarting(s, third, Old, 3)
    requires s.procs[a].lock.Replicating? && Logged(s.procs[a], a, 3, [Old, MapOp(3, 0, 7)], ma)
    ensures Reach(fix, s') && Untouched(s, s', third + {a})
    ensures s'.procs[a].n.log == [Old, MapOp(3, 0, 7)] && s'.procs[a].n.commitLength == 2
  {
    MissingAtFirst(s.procs[a], a, 3, [Old, MapOp(3, 0, 7)], s.ids, third, ma, 2);
    s' := PushBoth(fix, s, a, third, Old, MapOp(3, 0, 7));
  }

  lemma StartingVoters(s: State, s': State, zone: set<int>)
    requires AllStarting(s, zone, Old, 2) && zone <= s'.procs.Keys
    requires forall v :: v in zone ==> HasVoted(s.procs[v], s'.procs[v], v, 3)
    ensures AllStarting(s', zone, Old, 3)
  {}

  /** `a` brings the first order to `few`, and `c` logs the second. */
  lemma BothOrders(fix: Repairs, s: State, a: int, c: int, voters: set<int>, few: set<int>, ma: seq<int>, mc: seq<int>)
    returns (s': State)
    requires Reach(fix, s) && s.procs.Keys == s.ids && |s.ids| >= 3 && a in s.ids && c in s.ids && a != c
    requires voters <= s.ids && a !in voters && c !in voters && JustEnough(fix, |s.ids|, voters)
    requires few <= s.ids && few !! voters && a !in few && c !in few && |few| < |s.ids| / 2
    requires Retired(s.procs[a], a, 0, [], ma) && Lists(s.ids, a, ma) && Retired(s.procs[c], c, 0, [], mc)
             && |mc| == |s.ids|
    requires AllRest(s, voters, 0, []) && AllRest(s, few, 0, [])
    ensures Reach(fix, s') && s'.ids == s.ids && s'.procs.Keys == s.ids
    ensures s'.procs[c].lock.Replicating? && Logged(s'.procs[c], c, 2, [New], mc)
    ensures Rests(s'.procs[a], a, 1, [Old]) && s'.procs[a].n.members == ma
    ensures AllRest(s', voters, 2, []) && AllRest(s', few, 1, [Old])
  {
    var s1 := OneOrder(fix, s, a, voters, few, ma);
    s' := SecondReign(fix, s1, c, voters, mc);
  }

  lemma PartsRest(s: State, voters: set<int>, few: set<int>)
    requires AllRest(s, s.ids, 0, []) && voters <= s.ids && few <= s.ids
    ensures AllRest(s, voters, 0, []) && AllRest(s, few, 0, [])
  {
    RestPart(s, s.ids, voters, 0, []);
    RestPart(s, s.ids, few, 0, []);
  }

  lemma RestPart(s: State, all: set<int>, part: set<int>, t: int, log: Log)
    requires AllRest(s, all, t, log) && part <= all
    ensures AllRest(s, part, t, log)
  {}

  lemma OneOrder(fix: Repairs, s: State, a: int, voters: set<int>, few: set<int>, ma: seq<int>) returns (s': State)
    requires Reach(fix, s) && s.procs.Keys == s.ids && a in s.ids && voters <= s.ids && a !in voters && |s.ids| >= 3
    requires JustEnough(fix, |ma|, voters) && Lists(s.ids, a, ma)
    requires few <= s.ids && few !! voters && a !in few && |few| < |s.ids| / 2
    requires Retired(s.procs[a], a, 0, [], ma) && AllRest(s, voters, 0, []) && AllRest(s, few, 0, [])
    ensures Reach(fix, s') && Untouched(s, s', voters + few + {a})
    ensures Rests(s'.procs[a], a, 1, [Old]) && s'.procs[a].n.members == ma
    ensures AllRest(s', voters, 1, []) && AllRest(s', few, 1, [Old])
  {
    var s1 := FirstReign(fix, s, a, voters, ma);
    s' := FirstOrder(fix, s1, a, few, ma);
  }

  /** Without repair D, from three servers on: `a` acknowledges the order of `c`, but keeps
      its own in its place. */
  lemma ConflictAcknowledged(fix: Repairs, ids: set<int>) returns (s: State, c: int, slot: nat)
    requires S.FairVotes(fix, |ids|) && !fix.cutConflict && |ids| >= 3 && -1 !in ids
    ensures Reach(fix, s) && s.ids == ids && HollowAck(s, c, slot)
  {
    var s0, a, voters;
    s0, a, c, voters := Begin(fix, ids);
    HalfIsEnough(fix, |ids|, voters);
    PartsRest(s0, voters, {});
    var s1 := BothOrders(fix, s0, a, c, voters, {}, s0.procs[a].n.members, s0.procs[c].n.members);
    s, slot := AcknowledgesHollow(fix, s1, a, c, New, s0.procs[c].n.members);
  }

  /** A leader's entry is acknowledged by `a`, which keeps another in its place. */
  lemma AcknowledgesHollow(fix: Repairs, s: State, a: int, c: int, y: MapOp, mc: seq<int>)
    returns (s': State, slot: nat)
    requires Reach(fix, s) && s.procs.Keys == s.ids && a in s.ids && c in s.ids && a != c && |s.ids| >= 3
    requires Lists(s.ids, c, mc) && s.procs[c].lock.Replicating? && Logged(s.procs[c], c, y.term, [y], mc)
    requires 1 <= y.term && Below(s.procs[a], a, y.term) && First(fix, s.procs[a].n.log, y) != [y]
    ensures Reach(fix, s') && s'.ids == s.ids && HollowAck(s', c, slot)
  {
    MissingAtFirst(s.procs[c], c, y.term, [y], s.ids, {a}, mc, 1);
    slot := SlotOf(s.procs[c].n, {a}, a, 0, 1, 2);
    var n := s.procs[c].n;
    var n1 := n.(sent := n.sent[slot := 1], ack := n.ack[slot := 1]);
    s' := PushOwn(fix, s, c, a, slot, y);
    ExecuteKeeps(n1, CommitPoint(fix, n1, |n1.log|));
  }

  /** Who takes part in the second run: `few` get the first order, `yes` acknowledge the
      second, and `third` then vote for `a` again: none of them stores the second order. */
  predicate Sides(ids: set<int>, a: int, c: int, voters: set<int>, few: set<int>, yes: set<int>, third: set<int>) {
    && few <= ids && few !! voters && a !in few && c !in few && |few| < |ids| / 2
    && a in yes && yes <= few + voters + {a} && |yes| == |ids| / 2
    && third <= few + voters && third * yes <= few && |third| == |ids| / 2
  }

  lemma ChooseSides(ids: set<int>, a: int, c: int, voters: set<int>)
    returns (few: set<int>, yes: set<int>, third: set<int>)
    requires |ids| >= 3 && |ids| != 4
    requires a in ids && c in ids && a != c && voters <= ids && a !in voters && c !in voters && |voters| == |ids| / 2
    ensures Sides(ids, a, c, voters, few, yes, third)
  {
    few := ids - voters - {a} - {c};
    assert |ids - voters| == |ids| - |voters|;
    assert |few| == |ids| - |voters| - 2;
    if |ids| % 2 == 1 {
      yes, third := few + {a}, voters;
      assert |yes| == |few| + 1;
    } else {
      var g := PickFrom(voters);
      var p := PickFrom(few);
      yes, third := few + {a} + {g}, voters - {g} + {p};
      assert |few + {a}| == |few| + 1 && |yes| == |few| + 2;
      RestOf(voters, g);
      assert |third| == |voters|;
    }
  }

  /** `c` commits its order by hollow acknowledgements. */
  lemma HollowCommit(fix: Repairs, s: State, a: int, c: int, voters: set<int>, few: set<int>, yes: set<int>,
                     third: set<int>,
                     mc: seq<int>) returns (s': State)
    requires !fix.cutConflict && Reach(fix, s) && s.procs.Keys == s.ids && |s.ids| >= 3 && a in s.ids
             && c in s.ids && a != c
    requires voters <= s.ids && a !in voters && c !in voters && Sides(s.ids, a, c, voters, few, yes, third)
    requires Lists(s.ids, c, mc) && s.procs[c].lock.Replicating? && Logged(s.procs[c], c, 2, [New], mc)
    requires Rests(s.procs[a], a, 1, [Old]) && AllRest(s, voters, 2, []) && AllRest(s, few, 1, [Old])
    ensures Reach(fix, s') && Untouched(s, s', yes + {c})
    ensures s'.procs[c].n.log == [New] && s'.procs[c].n.commitLength == 1
    ensures Retired(s'.procs[a], a, 2, [Old], s.procs[a].n.members) && AllStarting(s', third, Old, 2)
  {
    s' := Offer(fix, s, c, yes, New, mc);
    ThirdStart(fix, s, s', c, voters, few, yes, third);
  }

  lemma ThirdStart(fix: Repairs, s: State, s': State, c: int, voters: set<int>, few: set<int>, yes: set<int>,
                   third: set<int>)
    requires !fix.cutConflict && third <= few + voters && third * yes <= few && few + voters <= s.ids && c !in few
             && c !in voters
    requires AllRest(s, voters, 2, []) && AllRest(s, few, 1, [Old])
    requires Untouched(s, s', yes + {c}) && Took(fix, s, s', yes, New)
    ensures AllStarting(s', third, Old, 2)
  {
    forall v | v in third ensures Starting(s'.procs[v], v, Old, 2) {
      if v in yes { assert v in few; }
    }
  }

  /** Without repair D and with repair E, in clusters of three, five or more: two servers
      commit different orders in the same place of their logs. */
  lemma ConflictCommits(fix: Repairs, ids: set<int>) returns (s: State, a: int, c: int)
    requires S.FairVotes(fix, |ids|) && !fix.cutConflict && fix.ownTerm && |ids| >= 3 && |ids| != 4 && -1 !in ids
    ensures Reach(fix, s) && s.ids == ids && a in s.procs && c in s.procs
    ensures !S.AgreeOnCommitted(s.procs[a].n, s.procs[c].n)
  {
    var s0, voters;
    s0, a, c, voters := Begin(fix, ids);
    var few, yes, third := ChooseSides(ids, a, c, voters);
    s := HollowRun(fix, s0, a, c, voters, few, yes, third);
    assert s.procs[a].n.log[0] != s.procs[c].n.log[0];
  }

  lemma HollowRun(fix: Repairs, s: State, a: int, c: int, voters: set<int>, few: set<int>, yes: set<int>,
                  third: set<int>)
    returns (s': State)
    requires S.FairVotes(fix, |s.ids|) && !fix.cutConflict && fix.ownTerm
    requires Begun(fix, s, a, c, voters) && Sides(s.ids, a, c, voters, few, yes, third)
    ensures Reach(fix, s') && s'.ids == s.ids && s'.procs.Keys == s.ids
    ensures s'.procs[c].n.log == [New] && s'.procs[c].n.commitLength == 1
    ensures s'.procs[a].n.log == [Old, MapOp(3, 0, 7)] && s'.procs[a].n.commitLength == 2
  {
    var ma, mc := s.procs[a].n.members, s.procs[c].n.members;
    HalfIsEnough(fix, |s.ids|, voters);
    PartsRest(s, voters, few);
    var s1 := BothOrders(fix, s, a, c, voters, few, ma, mc);
    var s2 := HollowCommit(fix, s1, a, c, voters, few, yes, third, mc);
    HalfIsEnough(fix, |s.ids|, third);
    var s3 := ThirdReign(fix, s2, a, third, ma);
    s' := Overwrite(fix, s3, a, third, ma);
  }
}
