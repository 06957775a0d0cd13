/** ReplicateLog step by step: which slot is served next, what its link does to the exchange,
    and what that makes of the leader and the follower. */
module Courses {
  import opened RaftTypes
  import opened Handlers
  import opened CatchUp
  import R = Replaying

  /** Where a call of ReplicateLog is: the leader and its followers; the sockets of this round
      and how many of them have been served; how many exchanges each slot has taken; the slots
      whose links failed and those that answered in some round; how many entries this round has
      carried; and whether the server has stepped down. */
  datatype Course = Course(
    l: NodeState, fs: seq<NodeState>, sockets: seq<nat>, at: nat,
    taken: seq<nat>, broken: set<nat>, kept: set<nat>, changes: nat, down: bool)

  function Start(l: NodeState, fs: seq<NodeState>, connected: seq<nat>): Course {
    Course(l, fs, connected, 0, seq(|fs|, _ => 0), {}, {}, 0, false)
  }

  // ---- One exchange ----

  predicate CanServe(fix: Repairs, l: NodeState, slot: nat, f: NodeState) {
    SendInBounds(l, slot) && LogInBounds(fix, f, Offer(l, slot))
  }

  lemma AlwaysServes(fix: Repairs, l: NodeState, slot: nat, f: NodeState)
    requires Leads(l, slot) && Follows(fix, l.log, l.term, f)
    ensures CanServe(fix, l, slot, f)
  {
    if l.sent[slot] == |l.log| { HeartbeatExchange(fix, l, f); } else { EntryInBounds(fix, l, slot, f); }
  }

  /** A follower's own slots play no part in what it does with a request. */
  lemma SlotsIdle(fix: Repairs, f: NodeState, m: LogRequest)
    ensures var g := f.(sent := [], ack := []);
            && (LogInBounds(fix, g, m) <==> LogInBounds(fix, f, m)) && AnswerLog(fix, g, m) == AnswerLog(fix, f, m)
            && (LogInBounds(fix, f, m) ==> TakeLog(fix, g, m) == TakeLog(fix, f, m).(sent := [], ack := []))
  {}

  /** The follower, if the request reaches it. */
  function Asked(fix: Repairs, l: NodeState, slot: nat, f: NodeState, link: Link): NodeState
    requires CanServe(fix, l, slot, f)
  {
    if link.RequestLost? then f else TakeLog(fix, f, Offer(l, slot))
  }

  /** The response that the leader reads; a receive that fails leaves one without a sender. */
  function Received(fix: Repairs, l: NodeState, slot: nat, f: NodeState, link: Link): LogResponse
    requires CanServe(fix, l, slot, f)
  {
    if link.Up? then AnswerLog(fix, f, Offer(l, slot)) else NoResponse
  }

  /** Whether the leader takes the follower for failed. */
  predicate Fails(fix: Repairs, l: NodeState, slot: nat, f: NodeState, link: Link)
    requires CanServe(fix, l, slot, f)
  {
    link.RequestLost? || NoReply(Received(fix, l, slot, f, link))
  }

  /** The leader, after the response or without one. */
  function Told(fix: Repairs, l: NodeState, slot: nat, f: NodeState, link: Link): NodeState
    requires CanServe(fix, l, slot, f)
  {
    if link.RequestLost? then CleanNodeState(l, slot) else HearReply(fix, l, slot, Received(fix, l, slot, f, link))
  }

  /** Whether the reply shows a later term; the reply to a heartbeat is not looked at. */
  predicate Outdated(fix: Repairs, l: NodeState, slot: nat, f: NodeState)
    requires CanServe(fix, l, slot, f)
  {
    l.sent[slot] < |l.log| && AnswerLog(fix, f, Offer(l, slot)).term > l.term
  }

  function Exchanged(fix: Repairs, c: Course, slot: nat, link: Link): Course
    requires slot < |c.fs| == |c.taken| && CanServe(fix, c.l, slot, c.fs[slot])
  {
    var f := c.fs[slot];
    var c1 := c.(l := Told(fix, c.l, slot, f, link), fs := c.fs[slot := Asked(fix, c.l, slot, f, link)],
                 taken := c.taken[slot := c.taken[slot] + 1], at := c.at + 1);
    if Fails(fix, c.l, slot, f, link) then c1.(broken := c.broken + {slot})
    else if Outdated(fix, c.l, slot, f) then c1.(down := true)
    else c1.(kept := c.kept + {slot}, changes := c.changes + if c.l.sent[slot] < |c.l.log| then 1 else 0)
  }

  /** A reply that arrives over a working link never makes a leader give a server up. */
  lemma FailsExactly(fix: Repairs, l: NodeState, slot: nat, f: NodeState, link: Link)
    requires CanServe(fix, l, slot, f) && f.me != -1
    ensures Fails(fix, l, slot, f, link) <==> !link.Up?
  {}

  // ---- The loops ----

  /** The next slot is served; the closed socket of a broken link takes no request. */
  predicate Serves(fix: Repairs, faults: seq<seq<Link>>, c: Course, c': Course) {
    && !c.down && c.at < |c.sockets| && c.sockets[c.at] < |c.fs| == |c.taken|
    && var slot := c.sockets[c.at];
       if slot in c.broken
       then HasSlot(c.l, slot) && c' == c.(l := CleanNodeState(c.l, slot), at := c.at + 1)
       else CanServe(fix, c.l, slot, c.fs[slot])
            && c' == Exchanged(fix, c, slot, LinkAt(faults, slot, c.taken[slot]))
  }

  /** How an exchange with a neighbour ended. */
  datatype Outcome = Failed | Beat | Entry | SteppedDown

  /** How the last turn of a course ended. */
  function Ended(c: Course, c': Course): Outcome {
    if c'.taken == c.taken || c'.broken != c.broken then Failed
    else if c'.down then SteppedDown
    else if c'.changes > c.changes then Entry
    else Beat
  }

  function OutcomeOf(fix: Repairs, c: Course, slot: nat, link: Link): Outcome
    requires slot < |c.fs| && CanServe(fix, c.l, slot, c.fs[slot])
  {
    if !link.Up? then Failed
    else if Outdated(fix, c.l, slot, c.fs[slot]) then SteppedDown
    else if c.l.sent[slot] < |c.l.log| then Entry
    else Beat
  }

  lemma EndedAs(fix: Repairs, c: Course, slot: nat, link: Link)
    requires Ready(fix, c) && slot < |c.fs| && slot !in c.broken
    ensures CanServe(fix, c.l, slot, c.fs[slot])
    ensures Ended(c, Exchanged(fix, c, slot, link)) == OutcomeOf(fix, c, slot, link)
  {
    assert Leads(c.l, slot);
    AlwaysServes(fix, c.l, slot, c.fs[slot]);
    FailsExactly(fix, c.l, slot, c.fs[slot], link);
    assert Exchanged(fix, c, slot, link).taken[slot] != c.taken[slot];
  }

  /** The sockets that stay: those that answered in some round, in the same order. */
  function Answering(nodeSocket: seq<nat>, kept: set<nat>): seq<nat> {
    if nodeSocket == [] then []
    else (if nodeSocket[0] in kept then [nodeSocket[0]] else []) + Answering(nodeSocket[1..], kept)
  }

  lemma {:induction false} AnsweringIn(nodeSocket: seq<nat>, kept: set<nat>)
    ensures forall s :: s in Answering(nodeSocket, kept) <==> s in nodeSocket && s in kept
  {
    if nodeSocket != [] { AnsweringIn(nodeSocket[1..], kept); }
  }

  /** Answering keeps the order and the number of what it keeps. */
  lemma {:induction false} AnsweringSplits(a: seq<nat>, b: seq<nat>, kept: set<nat>)
    ensures Answering(a + b, kept) == Answering(a, kept) + Answering(b, kept)
  {
    if a == [] {
      assert a + b == b;
    } else {
      AnsweringSplits(a[1..], b, kept);
      AnsweringFirst(a[0], a[1..], kept);
      AnsweringFirst(a[0], a[1..] + b, kept);
      assert [a[0]] + a[1..] == a && [a[0]] + (a[1..] + b) == a + b;
      Together(Answering([a[0]], kept), Answering(a[1..], kept), Answering(b, kept));
    }
  }

  lemma Together(a: seq<nat>, b: seq<nat>, c: seq<nat>)
    ensures a + (b + c) == (a + b) + c
  {}

  lemma AnsweringFirst(s: nat, rest: seq<nat>, kept: set<nat>)
    ensures Answering([s] + rest, kept) == Answering([s], kept) + Answering(rest, kept)
  {
    AnsweringOne(s, kept);
    assert ([s] + rest)[1..] == rest;
  }

  lemma AnsweringOne(s: nat, kept: set<nat>)
    ensures Answering([s], kept) == if s in kept then [s] else []
  {
    assert [s][1..] == [];
  }

  /** A round that carried an entry is followed by another. */
  predicate Repeats(c: Course, c': Course) {
    && !c.down && c.at == |c.sockets| && c.changes > 0
    && c' == c.(sockets := Answering(c.sockets, c.kept), at := 0, changes := 0)
  }

  predicate Done(c: Course) { !c.down && c.at == |c.sockets| && c.changes == 0 }

  predicate Goes(fix: Repairs, faults: seq<seq<Link>>, trace: seq<Course>, k: nat)
    requires k + 1 < |trace|
  {
    Serves(fix, faults, trace[k], trace[k + 1]) || Repeats(trace[k], trace[k + 1])
  }

  ghost predicate Played(fix: Repairs, faults: seq<seq<Link>>, trace: seq<Course>) {
    trace != [] && forall k: nat :: k < |trace| - 1 ==> Goes(fix, faults, trace, k)
  }

  function Latest(trace: seq<Course>): Course
    requires trace != []
  {
    trace[|trace| - 1]
  }

  lemma GoesOn(fix: Repairs, faults: seq<seq<Link>>, trace: seq<Course>, c: Course)
    requires Played(fix, faults, trace)
    requires Serves(fix, faults, Latest(trace), c) || Repeats(Latest(trace), c)
    ensures Played(fix, faults, trace + [c]) && Latest(trace + [c]) == c && (trace + [c])[0] == trace[0]
  {
    var trace' := trace + [c];
    forall k: nat | k < |trace'| - 1 ensures Goes(fix, faults, trace', k) {
      if k < |trace| - 1 { assert Goes(fix, faults, trace, k); }
    }
  }

  // ---- What a course determines ----

  lemma FirstPart(fix: Repairs, faults: seq<seq<Link>>, trace: seq<Course>, n: nat)
    requires Played(fix, faults, trace) && 0 < n <= |trace|
    ensures Played(fix, faults, trace[..n]) && trace[..n][0] == trace[0] && Latest(trace[..n]) == trace[n - 1]
  {
    forall k: nat | k < n - 1 ensures Goes(fix, faults, trace[..n], k) { assert Goes(fix, faults, trace, k); }
  }

  lemma OneWay(fix: Repairs, faults: seq<seq<Link>>, c: Course, c1: Course, c2: Course)
    requires Serves(fix, faults, c, c1) || Repeats(c, c1)
    requires Serves(fix, faults, c, c2) || Repeats(c, c2)
    ensures c1 == c2 && !Done(c) && !c.down
  {}

  /** The start and the links leave nothing open: of two courses one is the beginning of the
      other, and two that have ended are the same. */
  lemma {:induction false} OneCourse(fix: Repairs, faults: seq<seq<Link>>, t1: seq<Course>, t2: seq<Course>)
    requires Played(fix, faults, t1) && Played(fix, faults, t2) && t1[0] == t2[0] && |t1| <= |t2|
    ensures t1 <= t2
    ensures Done(Latest(t1)) || Latest(t1).down ==> t1 == t2
    decreases |t1|
  {
    var n := |t1| - 1;
    if n > 0 {
      FirstPart(fix, faults, t1, n);
      OneCourse(fix, faults, t1[..n], t2);
      assert t1[..n][n - 1] == t2[n - 1];
      assert Goes(fix, faults, t1, n - 1) && Goes(fix, faults, t2, n - 1);
      OneWay(fix, faults, t1[n - 1], t1[n], t2[n]);
    }
    if |t1| < |t2| {
      assert Goes(fix, faults, t2, n);
      OneWay(fix, faults, t1[n], t2[n + 1], t2[n + 1]);
    }
  }

  /** Every follower has a name of its own. */
  ghost predicate Real(c: Course) { forall j :: 0 <= j < |c.fs| ==> c.fs[j].me != -1 }

  /** The broken slots are those whose own link failed in an exchange that they took. */
  lemma {:induction false} BrokenExactly(fix: Repairs, faults: seq<seq<Link>>, trace: seq<Course>, s: nat)
    requires Played(fix, faults, trace) && trace[0].broken == {} && trace[0].taken == seq(|trace[0].fs|, _ => 0)
    requires Real(trace[0])
    ensures var c := Latest(trace);
            && Real(c) && |c.taken| == |c.fs| == |trace[0].fs|
            && (s in c.broken <==> s < |c.taken| && LinkFailed(faults, s, c.taken[s]))
    decreases |trace|
  {
    var n := |trace| - 1;
    if n > 0 {
      FirstPart(fix, faults, trace, n);
      BrokenExactly(fix, faults, trace[..n], s);
      assert Goes(fix, faults, trace, n - 1);
      StillExactly(fix, faults, trace[n - 1], trace[n], s);
    }
  }

  lemma StillExactly(fix: Repairs, faults: seq<seq<Link>>, c: Course, c': Course, s: nat)
    requires Serves(fix, faults, c, c') || Repeats(c, c')
    requires |c.taken| == |c.fs| && (s in c.broken <==> s < |c.taken| && LinkFailed(faults, s, c.taken[s]))
    requires Real(c)
    ensures |c'.taken| == |c'.fs| == |c.fs| && Real(c')
    ensures s in c'.broken <==> s < |c'.taken| && LinkFailed(faults, s, c'.taken[s])
  {
    if c.at < |c.sockets| && s == c.sockets[c.at] && s !in c.broken {
      var k := c.taken[s];
      assert LinkFailed(faults, s, k + 1) <==> !LinkAt(faults, s, k).Up?;
    }
  }

  // ---- What holds along a course ----

  function Logs(fs: seq<NodeState>): (logs: seq<Log>)
    ensures |logs| == |fs| && forall j :: 0 <= j < |fs| ==> logs[j] == fs[j].log
  {
    seq(|fs|, j requires 0 <= j < |fs| => fs[j].log)
  }

  /** A leader with followers that it can all bring up to date. */
  ghost predicate Ready(fix: Repairs, c: Course) {
    && !c.down && c.l.status.Leader? && |c.l.sent| == |c.l.ack| == |c.l.members|
    && c.l.commitLength <= |c.l.log| && R.Positive(c.l.log)
    && (forall j :: 0 <= j < |c.l.sent| ==> 0 <= c.l.sent[j] <= |c.l.log|)
    && |c.fs| == |c.taken| == |c.l.members| - 1
    && (forall j :: 0 <= j < |c.fs| ==> Follows(fix, c.l.log, c.l.term, c.fs[j]))
  }

  /** The start of a call: different slots, all of known followers. */
  ghost predicate Starts(fix: Repairs, c: Course) {
    && Ready(fix, c) && c == Start(c.l, c.fs, c.sockets)
    && (forall s :: s in c.sockets ==> s < |c.fs|)
    && (forall j, k :: 0 <= j < k < |c.sockets| ==> c.sockets[j] != c.sockets[k])
  }

  /** How far the round has come: who has been served answered or broke, and without an entry
      nobody is left behind. */
  ghost predicate Round(c: Course) {
    && c.at <= |c.sockets| && |c.fs| <= |c.l.sent|
    && (forall k :: 0 <= k < c.at ==> c.sockets[k] in c.kept || c.sockets[k] in c.broken)
    && (c.changes == 0 ==> forall k :: 0 <= k < c.at ==>
          c.sockets[k] in c.broken || (c.sockets[k] < |c.fs| && c.l.sent[c.sockets[k]] == |c.l.log|))
  }

  /** Every connected slot is still served or broken. */
  ghost predicate Covers(c0: Course, c: Course) {
    && (forall s :: s in c.sockets ==> s in c0.sockets) && (forall s :: s in c.broken ==> s in c0.sockets)
    && (forall s :: s in c0.sockets ==> s in c.sockets || s in c.broken)
  }

  /** The state of a course that started with `c0`. */
  ghost predicate Going(fix: Repairs, c0: Course, c: Course) {
    && Ready(fix, c) && c.l.log == c0.l.log && c.l.term == c0.l.term && |c.l.sent| == |c0.l.sent|
    && |c0.fs| == |c.fs| && OnTrack(c.l.log, c.l.sent, Logs(c.fs), c0.sockets, BehindAt(c0), c.broken)
    && Round(c) && Covers(c0, c)
  }

  ghost function BehindAt(c: Course): set<nat> {
    if |c.fs| <= |c.l.sent| then Behind(c.l.log, c.l.sent, |c.fs|) else {}
  }

  /** A leader that has stepped down. */
  predicate Demoted(l: NodeState, l': NodeState) {
    l'.status.Follower? && l'.term > l.term && l'.votedFor == -1 && l'.votes == {}
  }

  lemma StartGoes(fix: Repairs, c: Course)
    requires Starts(fix, c)
    ensures Going(fix, c, c)
  {
    assert forall k :: 0 <= k < |c.sockets| ==> c.sockets[k] in c.sockets;
  }

  /** One exchange keeps leader and follower ready for the next. */
  lemma ExchangeKeeps(fix: Repairs, c: Course, slot: nat, link: Link)
    requires Ready(fix, c) && slot < |c.fs|
    ensures CanServe(fix, c.l, slot, c.fs[slot])
    ensures var c' := Exchanged(fix, c, slot, link);
            if c'.down then Demoted(c.l, c'.l)
            else Ready(fix, c') && c'.l.log == c.l.log && c'.l.term == c.l.term
                 && c'.l.sent == c.l.sent[slot := c'.l.sent[slot]]
  {
    var l, f := c.l, c.fs[slot];
    assert Leads(l, slot);
    AlwaysServes(fix, l, slot, f);
    if l.sent[slot] == |l.log| {
      HeartbeatExchange(fix, l, f);
    } else {
      EntryInBounds(fix, l, slot, f);
      if !Outdated(fix, l, slot, f) { EntryProgress(fix, l, slot, f); } else { EntryOutdated(fix, l, slot, f); }
    }
  }

  /** And leaves the slot on track: reset, up to date, or strictly closer. */
  lemma ExchangeTracks(fix: Repairs, c: Course, slot: nat, link: Link, slots: seq<nat>, behind: set<nat>)
    requires Ready(fix, c) && slot < |c.fs| && slot in slots && slot !in c.broken
    requires OnTrack(c.l.log, c.l.sent, Logs(c.fs), slots, behind, c.broken)
    ensures CanServe(fix, c.l, slot, c.fs[slot])
    ensures var c' := Exchanged(fix, c, slot, link);
            !c'.down ==>
              && OnTrack(c.l.log, c'.l.sent, Logs(c'.fs), slots, behind, c'.broken)
              && (c'.broken == c.broken ==>
                    var before := Total(c.l.log, c.l.sent, Logs(c.fs), slots, c.broken);
                    var now := Total(c.l.log, c'.l.sent, Logs(c'.fs), slots, c.broken);
                    if c'.changes > c.changes then now < before else now == before && c'.l.sent[slot] == |c.l.log|)
  {
    ExchangeKeeps(fix, c, slot, link);
    var l, f, c' := c.l, c.fs[slot], Exchanged(fix, c, slot, link);
    assert Logs(c'.fs) == Logs(c.fs)[slot := c'.fs[slot].log];
    if link.Up? && !c'.down {
      if l.sent[slot] < |l.log| {
        EntryInBounds(fix, l, slot, f);
        EntryProgress(fix, l, slot, f);
        EntryTrack(l.log, l.sent, Logs(c.fs), slots, behind, c.broken, slot, c'.l.sent[slot], c'.fs[slot].log);
      } else {
        HeartbeatExchange(fix, l, f);
        assert Logs(c'.fs) == Logs(c.fs);
      }
    }
  }

  // ---- Whole calls ----

  /** A call that is under way, and the variables of its loops. */
  ghost predicate Underway(fix: Repairs, faults: seq<seq<Link>>, trace: seq<Course>, start: Course) {
    Played(fix, faults, trace) && trace[0] == start && Starts(fix, start)
  }

  predicate Reads(c: Course, sockets: seq<nat>, at: nat, taken: seq<nat>, broken: set<nat>, kept: set<nat>,
                  changes: nat) {
    c == Course(c.l, c.fs, sockets, at, taken, broken, kept, changes, false)
  }

  /** The next slot can be served. */
  lemma NextTurn(fix: Repairs, faults: seq<seq<Link>>, trace: seq<Course>, start: Course)
    requires Underway(fix, faults, trace, start)
    ensures var c := Latest(trace);
            !c.down && c.at < |c.sockets| ==> Ready(fix, c) && c.sockets[c.at] < |c.fs| == |c.taken|
  {
    AlwaysGoing(fix, faults, trace);
    var c := Latest(trace);
    if !c.down && c.at < |c.sockets| { assert c.sockets[c.at] in c.sockets; }
  }

  /** What a turn changes in the variables of the loops. */
  lemma TurnReads(fix: Repairs, faults: seq<seq<Link>>, c: Course, c': Course, sockets: seq<nat>, k: nat,
                  taken: seq<nat>, broken: set<nat>, kept: set<nat>, changes: nat)
    requires Reads(c, sockets, k, taken, broken, kept, changes) && k < |sockets| && Serves(fix, faults, c, c')
    ensures var slot, out := sockets[k], Ended(c, c');
            var taken' := if slot in broken then taken else taken[slot := taken[slot] + 1];
            if c'.down then out.SteppedDown? && c'.taken == taken' && c'.broken == broken
            else !out.SteppedDown?
                 && Reads(c', sockets, k + 1, taken', if out.Failed? then broken + {slot} else broken,
                          if out.Failed? then kept else kept + {slot}, if out.Entry? then changes + 1 else changes)
  {
    var slot := sockets[k];
    assert slot in broken ==> broken + {slot} == broken;
    assert slot !in broken ==> c'.taken[slot] != c.taken[slot];
  }

  lemma TurnTaken(fix: Repairs, faults: seq<seq<Link>>, trace: seq<Course>, start: Course, c': Course)
    requires Underway(fix, faults, trace, start) && Serves(fix, faults, Latest(trace), c')
    ensures Underway(fix, faults, trace + [c'], start) && Latest(trace + [c']) == c'
    ensures !c'.down ==> NotAbove(start.sockets, c', Latest(trace))
  {
    AlwaysGoing(fix, faults, trace);
    ServesKeeps(fix, faults, start, Latest(trace), c');
    GoesOn(fix, faults, trace, c');
  }

  function NewRound(c: Course): Course { c.(sockets := Answering(c.sockets, c.kept), at := 0, changes := 0) }

  /** After a round that carried an entry. */
  lemma RoundTaken(fix: Repairs, faults: seq<seq<Link>>, trace: seq<Course>, start: Course, sockets: seq<nat>,
                   taken: seq<nat>, broken: set<nat>, kept: set<nat>, changes: nat)
    requires Underway(fix, faults, trace, start) && changes > 0
    requires Reads(Latest(trace), sockets, |sockets|, taken, broken, kept, changes)
    ensures var c' := NewRound(Latest(trace));
            && Underway(fix, faults, trace + [c'], start) && Latest(trace + [c']) == c'
            && Reads(c', Answering(sockets, kept), 0, taken, broken, kept, 0)
            && Left(start.sockets, c') < Left(start.sockets, Latest(trace))
  {
    var c' := NewRound(Latest(trace));
    AlwaysGoing(fix, faults, trace);
    RepeatsKeeps(fix, start, Latest(trace), c');
    GoesOn(fix, faults, trace, c');
  }

  lemma ServesKeeps(fix: Repairs, faults: seq<seq<Link>>, c0: Course, c: Course, c': Course)
    requires Going(fix, c0, c) && Serves(fix, faults, c, c')
    ensures if c'.down then Demoted(c.l, c'.l) else Going(fix, c0, c')
    ensures !c'.down ==> NotAbove(c0.sockets, c', c)
  {
    var slot := c.sockets[c.at];
    assert slot in c.sockets;
    if slot in c.broken {
      RefusalKeeps(fix, c0, c, c', slot);
    } else {
      var link := LinkAt(faults, slot, c.taken[slot]);
      ExchangeKeeps(fix, c, slot, link);
      ExchangeTracks(fix, c, slot, link, c0.sockets, BehindAt(c0));
      if !c'.down { TurnDone(fix, c0, c, c', slot); }
    }
  }

  /** The account of a round after one more slot. */
  lemma RoundGoes(c: Course, c': Course, slot: nat)
    requires Round(c) && c.at < |c.sockets| && slot == c.sockets[c.at] && slot < |c.fs|
    requires c'.at == c.at + 1 && c'.sockets == c.sockets && |c'.fs| == |c.fs| && c'.l.log == c.l.log
    requires |c'.l.sent| == |c.l.sent| && forall j :: 0 <= j < |c.l.sent| && j != slot ==> c'.l.sent[j] == c.l.sent[j]
    requires c.kept <= c'.kept && c.broken <= c'.broken && (slot in c'.kept || slot in c'.broken)
    requires c.changes <= c'.changes
    requires c'.changes == 0 ==> slot in c'.broken || c'.l.sent[slot] == |c.l.log|
    ensures Round(c')
  {
    forall k | 0 <= k < c'.at && c'.changes == 0
      ensures c'.sockets[k] in c'.broken || (c'.sockets[k] < |c'.fs| && c'.l.sent[c'.sockets[k]] == |c'.l.log|)
    {
      if c.sockets[k] != slot { assert k < c.at; }
    }
  }

  lemma RefusalKeeps(fix: Repairs, c0: Course, c: Course, c': Course, slot: nat)
    requires Going(fix, c0, c) && c.at < |c.sockets| && slot == c.sockets[c.at] && slot in c.broken
    requires slot in c0.sockets
    requires slot < |c.fs| && c' == c.(l := CleanNodeState(c.l, slot), at := c.at + 1)
    ensures Going(fix, c0, c') && NotAbove(c0.sockets, c', c)
  {
    assert c'.l.sent == c.l.sent[slot := 0];
    TotalIgnores(c.l.log, c.l.sent, Logs(c.fs), c0.sockets, c.broken, slot, 0);
    RoundGoes(c, c', slot);
  }

  /** What a turn with an exchange makes of a course. */
  ghost predicate Turned(fix: Repairs, c0: Course, c: Course, c': Course, slot: nat) {
    && Ready(fix, c') && c'.l.log == c.l.log && c'.l.term == c.l.term && |c'.fs| == |c.fs|
    && |c'.l.sent| == |c.l.sent| && (forall j :: 0 <= j < |c.l.sent| && j != slot ==> c'.l.sent[j] == c.l.sent[j])
    && OnTrack(c.l.log, c'.l.sent, Logs(c'.fs), c0.sockets, BehindAt(c0), c'.broken)
    && c'.at == c.at + 1 && c'.sockets == c.sockets
    && (|| (c'.broken == c.broken + {slot} && c'.kept == c.kept && c'.changes == c.changes)
        || (c'.broken == c.broken && c'.kept == c.kept + {slot}
            && (c'.changes == c.changes || c'.changes == c.changes + 1)))
  }

  ghost predicate Nearer(c0: Course, c: Course, c': Course, slot: nat)
    requires slot < |c'.l.sent|
    requires InRange(c.l.log, c.l.sent, Logs(c.fs), c0.sockets) && InRange(c.l.log, c'.l.sent, Logs(c'.fs), c0.sockets)
  {
    var before := Total(c.l.log, c.l.sent, Logs(c.fs), c0.sockets, c.broken);
    var now := Total(c.l.log, c'.l.sent, Logs(c'.fs), c0.sockets, c.broken);
    if c'.changes > c.changes then now < before else now == before && c'.l.sent[slot] == |c.l.log|
  }

  /** A turn with an exchange keeps the round's account, and comes nearer. */
  lemma TurnDone(fix: Repairs, c0: Course, c: Course, c': Course, slot: nat)
    requires Going(fix, c0, c) && c.at < |c.sockets| && slot == c.sockets[c.at] && slot in c0.sockets
    requires slot !in c.broken && slot < |c.fs| && Turned(fix, c0, c, c', slot)
    requires c'.broken == c.broken ==> Nearer(c0, c, c', slot)
    ensures Going(fix, c0, c') && NotAbove(c0.sockets, c', c)
  {
    RoundGoes(c, c', slot);
    if c'.broken != c.broken { OneFewer(c0.sockets, c.broken, slot); }
  }

  lemma OneFewer(slots: seq<nat>, broken: set<nat>, slot: nat)
    requires slot in slots && slot !in broken
    ensures |Slots(slots) - (broken + {slot})| < |Slots(slots) - broken|
  {
    assert Slots(slots) - (broken + {slot}) == (Slots(slots) - broken) - {slot};
  }

  /** What is left to do: slots with a working link first, then the distance to go, and whether
      another round is due. */
  ghost function Left(slots: seq<nat>, c: Course): nat {
    if InRange(c.l.log, c.l.sent, Logs(c.fs), slots)
    then 2 * Total(c.l.log, c.l.sent, Logs(c.fs), slots, c.broken) + (if c.changes > 0 then 1 else 0) else 0
  }

  ghost predicate NotAbove(slots: seq<nat>, c': Course, c: Course) {
    var u', u := |Slots(slots) - c'.broken|, |Slots(slots) - c.broken|;
    u' < u || (u' == u && Left(slots, c') <= Left(slots, c))
  }

  lemma RepeatsKeeps(fix: Repairs, c0: Course, c: Course, c': Course)
    requires Going(fix, c0, c) && Repeats(c, c')
    ensures Going(fix, c0, c') && c'.broken == c.broken && Left(c0.sockets, c') < Left(c0.sockets, c)
  {
    AnsweringIn(c.sockets, c.kept);
    forall s | s in c0.sockets && s !in c'.broken ensures s in c'.sockets {
      var k :| 0 <= k < |c.sockets| && c.sockets[k] == s;
    }
  }

  /** A call that has not stepped down is always going on. */
  lemma {:induction false} AlwaysGoing(fix: Repairs, faults: seq<seq<Link>>, trace: seq<Course>)
    requires Played(fix, faults, trace) && Starts(fix, trace[0])
    ensures var c := Latest(trace); if c.down then Demoted(trace[0].l, c.l) else Going(fix, trace[0], c)
    decreases |trace|
  {
    var n := |trace| - 1;
    if n == 0 {
      StartGoes(fix, trace[0]);
    } else {
      FirstPart(fix, faults, trace, n);
      AlwaysGoing(fix, faults, trace[..n]);
      assert Goes(fix, faults, trace, n - 1);
      NextGoes(fix, faults, trace[0], trace[n - 1], trace[n]);
    }
  }

  lemma NextGoes(fix: Repairs, faults: seq<seq<Link>>, c0: Course, c: Course, c': Course)
    requires Going(fix, c0, c) && (Serves(fix, faults, c, c') || Repeats(c, c'))
    ensures if c'.down then Demoted(c0.l, c'.l) else Going(fix, c0, c')
  {
    if Repeats(c, c') { RepeatsKeeps(fix, c0, c, c'); } else { ServesKeeps(fix, faults, c0, c, c'); }
  }

  /** At the end every slot with a working link has been sent the whole log, and its follower
      has it if it was behind; a broken one starts again. */
  lemma Converges(fix: Repairs, c0: Course, c: Course, s: nat)
    requires Going(fix, c0, c) && Done(c)
    ensures s in c.broken ==> s < |c.l.sent| && c.l.sent[s] == 0
    ensures s in c0.sockets && s !in c.broken ==> s < |c.fs| && c.l.sent[s] == |c.l.log|
    ensures s in c0.sockets && s !in c.broken && c0.l.sent[s] < |c.l.log| ==> c.l.log <= c.fs[s].log
  {
    if s in c0.sockets && s !in c.broken {
      var k :| 0 <= k < |c.sockets| && c.sockets[k] == s;
    }
  }

  // ---- What the followers hear ----

  /** A follower that knows its leader. */
  predicate Heeds(l: NodeState, f: NodeState) {
    f.term == l.term && f.leaderId == l.me && f.status.Follower? && f.votedFor == -1
  }

  /** What a request makes of a follower that it reaches. */
  lemma RequestHeeded(fix: Repairs, l: NodeState, slot: nat, f: NodeState)
    requires Leads(l, slot) && Follows(fix, l.log, l.term, f) && Joins(fix, l.term, f)
    ensures CanServe(fix, l, slot, f)
    ensures var f' := TakeLog(fix, f, Offer(l, slot));
            && Heeds(l, f') && Joins(fix, l.term, f') && f.commitLength <= f'.commitLength
            && (f.log == l.log ==> f'.log == l.log)
            && (f.log == l.log && l.sent[slot] == |l.log| ==>
                  f'.commitLength == f.commitLength + if f.commitLength < l.commitLength then 1 else 0)
  {
    AlwaysServes(fix, l, slot, f);
  }

  /** A server that does not join the term stays as it is. */
  lemma RequestIgnored(fix: Repairs, l: NodeState, slot: nat, f: NodeState)
    requires Leads(l, slot) && Follows(fix, l.log, l.term, f) && !Joins(fix, l.term, f)
    ensures CanServe(fix, l, slot, f) && TakeLog(fix, f, Offer(l, slot)) == f
  {
    AlwaysServes(fix, l, slot, f);
  }

  /** What slot `s` has heard since the call started with `c0`: one that joins the term knows
      its leader from the first exchange on, and one whose log was the leader's commits. */
  ghost predicate Hears(fix: Repairs, c0: Course, c: Course, s: nat)
    requires s < |c.fs| == |c0.fs| == |c.taken| <= |c0.l.sent| == |c.l.sent|
  {
    var f0, f := c0.fs[s], c.fs[s];
    if !Joins(fix, c0.l.term, f0) then f == f0
    else
      && Joins(fix, c0.l.term, f) && (c.taken[s] == 0 ==> f == f0) && (c.taken[s] > 0 ==> Heeds(c0.l, f))
      && f0.commitLength <= f.commitLength
      && (f0.log == c0.l.log ==> f.log == c0.l.log)
      && (f0.log == c0.l.log && c0.l.sent[s] == |c0.l.log| ==>
            && c.l.sent[s] == |c0.l.log|
            && (f.commitLength >= f0.commitLength + c.taken[s] || f.commitLength >= c0.l.commitLength))
  }

  /** A commit length that was below the leader's at the start has risen. */
  predicate Risen(c0: Course, c: Course, s: nat)
    requires s < |c.fs| == |c0.fs|
  {
    c0.fs[s].commitLength < c.fs[s].commitLength || c0.l.commitLength <= c.fs[s].commitLength
  }

  ghost predicate Heeding(fix: Repairs, c0: Course, c: Course) {
    && |c.fs| == |c0.fs| == |c.taken| <= |c0.l.sent| == |c.l.sent| && c.at <= |c.sockets|
    && c.l.me == c0.l.me && c.l.commitLength >= c0.l.commitLength
    && (forall s :: 0 <= s < |c.fs| && s !in c.broken ==> Hears(fix, c0, c, s))
    && (forall s :: s in c.kept ==> s < |c.taken| && c.taken[s] > 0)
    && (c.changes == 0 ==> forall k :: 0 <= k < c.at ==> BeatHeard(fix, c0, c, c.sockets[k]))
  }

  /** In a round without entries a heartbeat has reached the slot. */
  ghost predicate BeatHeard(fix: Repairs, c0: Course, c: Course, s: nat)
    requires |c.fs| == |c0.fs|
  {
    s < |c.fs| && s !in c.broken && Joins(fix, c0.l.term, c0.fs[s]) && c0.fs[s].log == c0.l.log ==> Risen(c0, c, s)
  }

  lemma StartHeeds(fix: Repairs, c: Course)
    requires Starts(fix, c)
    ensures Heeding(fix, c, c)
  {}

  /** The leader after an exchange: the same server, with no fewer entries committed. */
  lemma LeaderStays(fix: Repairs, c: Course, slot: nat, link: Link)
    requires Ready(fix, c) && slot < |c.fs|
    ensures CanServe(fix, c.l, slot, c.fs[slot])
    ensures var c' := Exchanged(fix, c, slot, link);
            c'.l.me == c.l.me && (!c'.down ==> c'.l.commitLength >= c.l.commitLength)
            && (link.Up? && !c'.down && c.l.sent[slot] == |c.l.log| ==> c'.l == c.l)
  {
    ExchangeKeeps(fix, c, slot, link);
    var l1 := c.l.(sent := c.l.sent[slot := c.l.sent[slot] + 1], ack := c.l.ack[slot := c.l.sent[slot] + 1]);
    ExecuteKeeps(l1, CommitPoint(fix, l1, |l1.log|));
  }

  /** A slot that an exchange reached. */
  lemma SlotHears(fix: Repairs, c0: Course, c: Course, slot: nat)
    requires Going(fix, c0, c) && slot < |c.fs| == |c0.fs| <= |c0.l.sent| && c.l.me == c0.l.me
    requires c.l.commitLength >= c0.l.commitLength && Hears(fix, c0, c, slot)
    ensures CanServe(fix, c.l, slot, c.fs[slot])
    ensures var c' := Exchanged(fix, c, slot, Up);
            !c'.down ==>
              && |c'.l.sent| == |c.l.sent| && Hears(fix, c0, c', slot)
              && (Risen(c0, c, slot) ==> Risen(c0, c', slot))
              && (c'.changes == c.changes ==> BeatHeard(fix, c0, c', slot))
  {
    var l, f := c.l, c.fs[slot];
    ExchangeKeeps(fix, c, slot, Up);
    LeaderStays(fix, c, slot, Up);
    FailsExactly(fix, l, slot, f, Up);
    if Joins(fix, l.term, f) { RequestHeeded(fix, l, slot, f); } else { RequestIgnored(fix, l, slot, f); }
  }

  lemma OthersHear(fix: Repairs, c0: Course, c: Course, c': Course, slot: nat, s: nat)
    requires s < |c.fs| == |c0.fs| == |c.taken| <= |c0.l.sent| == |c.l.sent| && s != slot && Hears(fix, c0, c, s)
    requires |c'.fs| == |c.fs| == |c'.taken| && |c'.l.sent| == |c.l.sent|
    requires c'.fs[s] == c.fs[s] && c'.taken[s] == c.taken[s] && c'.l.sent[s] == c.l.sent[s]
    ensures Hears(fix, c0, c', s) && (Risen(c0, c, s) ==> Risen(c0, c', s))
  {}

  lemma ServesHeeds(fix: Repairs, faults: seq<seq<Link>>, c0: Course, c: Course, c': Course)
    requires Going(fix, c0, c) && Heeding(fix, c0, c) && Serves(fix, faults, c, c') && !c'.down
    ensures Heeding(fix, c0, c')
  {
    var slot := c.sockets[c.at];
    if slot in c.broken {
      RefusalHeeds(fix, c0, c, c', slot);
    } else {
      ExchangeHeeds(fix, c0, c, slot, LinkAt(faults, slot, c.taken[slot]));
    }
  }

  lemma ExchangeHeeds(fix: Repairs, c0: Course, c: Course, slot: nat, link: Link)
    requires Going(fix, c0, c) && Heeding(fix, c0, c) && c.at < |c.sockets| && slot == c.sockets[c.at]
    requires slot < |c.fs| && slot !in c.broken
    ensures CanServe(fix, c.l, slot, c.fs[slot])
    ensures var c' := Exchanged(fix, c, slot, link); !c'.down ==> Heeding(fix, c0, c')
  {
    ExchangeKeeps(fix, c, slot, link);
    LeaderStays(fix, c, slot, link);
    FailsExactly(fix, c.l, slot, c.fs[slot], link);
    var c' := Exchanged(fix, c, slot, link);
    if !c'.down {
      if link.Up? { SlotHears(fix, c0, c, slot); }
      TurnHeeds(fix, c0, c, c', slot);
    }
  }

  lemma RefusalHeeds(fix: Repairs, c0: Course, c: Course, c': Course, slot: nat)
    requires Heeding(fix, c0, c) && c.at < |c.sockets| && slot == c.sockets[c.at] && slot in c.broken
    requires slot < |c.fs| && HasSlot(c.l, slot) && c' == c.(l := CleanNodeState(c.l, slot), at := c.at + 1)
    ensures Heeding(fix, c0, c')
  {
    forall s | 0 <= s < |c.fs| && s !in c.broken ensures Hears(fix, c0, c', s) {
      OthersHear(fix, c0, c, c', slot, s);
    }
    if c'.changes == 0 {
      forall k | 0 <= k < c'.at ensures BeatHeard(fix, c0, c', c'.sockets[k]) {
        if k < c.at { assert BeatHeard(fix, c0, c, c.sockets[k]); }
      }
    }
  }

  lemma TurnHeeds(fix: Repairs, c0: Course, c: Course, c': Course, slot: nat)
    requires Heeding(fix, c0, c) && c.at < |c.sockets| && slot == c.sockets[c.at] && slot < |c.fs|
    requires |c'.l.sent| == |c.l.sent| && (forall s :: 0 <= s < |c.l.sent| && s != slot ==> c'.l.sent[s] == c.l.sent[s])
    requires c'.l.me == c.l.me && c'.l.commitLength >= c.l.commitLength
    requires |c'.fs| == |c.fs| && c'.fs == c.fs[slot := c'.fs[slot]]
    requires c'.taken == c.taken[slot := c.taken[slot] + 1]
    requires c'.at == c.at + 1 && c'.sockets == c.sockets && c.broken <= c'.broken && c.changes <= c'.changes
    requires c'.kept <= c.kept + {slot}
    requires slot !in c'.broken ==>
               && Hears(fix, c0, c', slot) && (Risen(c0, c, slot) ==> Risen(c0, c', slot))
               && (c'.changes == c.changes ==> BeatHeard(fix, c0, c', slot))
    ensures Heeding(fix, c0, c')
  {
    forall s | 0 <= s < |c'.fs| && s !in c'.broken ensures Hears(fix, c0, c', s) {
      if s != slot { OthersHear(fix, c0, c, c', slot, s); }
    }
    if c'.changes == 0 {
      forall k | 0 <= k < c'.at ensures BeatHeard(fix, c0, c', c'.sockets[k]) {
        var s := c.sockets[k];
        if k < c.at { assert BeatHeard(fix, c0, c, s); }
        if s != slot && s < |c.fs| && s !in c.broken { OthersHear(fix, c0, c, c', slot, s); }
      }
    }
  }

  /** A call that has not stepped down is always heard. */
  lemma {:induction false} AlwaysHeeding(fix: Repairs, faults: seq<seq<Link>>, trace: seq<Course>)
    requires Played(fix, faults, trace) && Starts(fix, trace[0]) && !Latest(trace).down
    ensures Heeding(fix, trace[0], Latest(trace))
    decreases |trace|
  {
    var n := |trace| - 1;
    if n == 0 {
      StartHeeds(fix, trace[0]);
    } else {
      FirstPart(fix, faults, trace, n);
      assert Goes(fix, faults, trace, n - 1);
      AlwaysGoing(fix, faults, trace[..n]);
      AlwaysHeeding(fix, faults, trace[..n]);
      if Serves(fix, faults, trace[n - 1], trace[n]) {
        ServesHeeds(fix, faults, trace[0], trace[n - 1], trace[n]);
      }
    }
  }

  /** At the end every follower behind a working link that joins the leader's term is in that
      term, follows that leader and has no vote. If it started with the leader's log and a
      smaller commit length, that has risen; and if the slot was up to date as well, it has risen
      by one for every exchange that the slot took, up to the leader's. */
  lemma AllHeed(fix: Repairs, c0: Course, c: Course, s: nat)
    requires Going(fix, c0, c) && Heeding(fix, c0, c) && Done(c) && s in c0.sockets && s !in c.broken
    ensures s < |c.fs| == |c0.fs| == |c.taken| <= |c0.l.sent| && c.taken[s] > 0
    ensures Joins(fix, c0.l.term, c0.fs[s]) ==>
              && c.fs[s].term == c0.l.term && c.fs[s].leaderId == c0.l.me && c.fs[s].status.Follower?
              && c.fs[s].votedFor == -1 && c0.fs[s].commitLength <= c.fs[s].commitLength
    ensures Joins(fix, c0.l.term, c0.fs[s]) && c0.fs[s].log == c0.l.log ==>
              && c.fs[s].log == c0.l.log
              && (c0.fs[s].commitLength < c0.l.commitLength ==> c0.fs[s].commitLength < c.fs[s].commitLength)
              && (c0.l.sent[s] == |c0.l.log| ==>
                    c.fs[s].commitLength >= c0.fs[s].commitLength + c.taken[s]
                    || c.fs[s].commitLength >= c0.l.commitLength)
    ensures !Joins(fix, c0.l.term, c0.fs[s]) ==> c.fs[s] == c0.fs[s]
  {
    var k :| 0 <= k < |c.sockets| && c.sockets[k] == s;
    assert BeatHeard(fix, c0, c, c.sockets[k]) && Hears(fix, c0, c, s);
  }
}
