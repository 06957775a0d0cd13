/** The cluster: servers that take turns, and the requests and replies sent so far.
    No request is ever taken out of `net`, so it may be handled late or twice. A new request
    to a server starts a new exchange: replies to an earlier one are not read any more. */
module Cluster {
  import opened RaftTypes
  import opened Handlers

  /** Who holds a server's `meta_lock`. A server awaiting a reply keeps the lock, so
      it handles nothing and its log cannot change. */
  datatype Lock =
    | Free
    | Electing
    | AwaitVote(peer: int, voteReq: VoteRequest)
    | Replicating
    | AwaitLog(slot: nat, logReq: LogRequest)
  {
    predicate InElection() { Electing? || AwaitVote? }
    predicate InReplication() { Replicating? || AwaitLog? }
  }

  datatype Packet =
    | VoteCall(to: int, vote: VoteRequest)
    | VoteReply(from: int, vote: VoteRequest, voteResp: VoteResponse)
    | LogCall(to: int, log: LogRequest)
    | LogReply(from: int, log: LogRequest, logResp: LogResponse)

  datatype Proc = Proc(n: NodeState, lock: Lock)

  /** Keys of the auxiliary record: who voted in which term, who acknowledged in which. */
  datatype Vote = Vote(voter: int, term: int)
  datatype Mark = Mark(follower: int, term: int)
  datatype Hollow = Hollow(follower: int, term: int, length: int)

  datatype Ballot = Ballot(cand: int, log: Log)

  /** Auxiliary record of a run. No guard reads it.
      `ballots`: for a voter and a term, whom it voted for first and its log then.
      `lead`: who ran InitLeader in a term.  `tlog`: that leader's log as it grows.
      `acc`: for a follower and a term, the longest prefix of that term's log it acknowledged
      and stored.  `hollow`: the acknowledgements of an entry that the follower did not store,
      because it kept a conflicting one. */
  datatype History = History(
    ballots: map<Vote, Ballot>,
    lead: map<int, int>,
    tlog: map<int, Log>,
    acc: map<Mark, nat>,
    hollow: set<Hollow>)

  const NoHistory := History(map[], map[], map[], map[], {})

  datatype State = State(ids: set<int>, procs: map<int, Proc>, net: set<Packet>, hist: History)

  function Acc(h: History, v: int, t: int): nat {
    if Mark(v, t) in h.acc then h.acc[Mark(v, t)] else 0
  }

  // ---- Starting states ----

  predicate Members(ids: set<int>, me: int, members: seq<int>) {
    && |members| == |ids| > 0
    && (forall j :: 0 <= j < |members| ==> members[j] in ids)
    && (forall j, k :: 0 <= j < k < |members| ==> members[j] != members[k])
    && members[|members| - 1] == me
  }

  function InitNode(me: int, members: seq<int>): NodeState {
    NodeState(me, members, 0, Follower, -1, -1, {}, [], 0, map[], [], [])
  }

  ghost predicate Init(s: State) {
    && s.procs.Keys == s.ids
    && -1 !in s.ids
    && s.net == {}
    && s.hist == NoHistory
    && (forall i :: i in s.ids ==>
          && Members(s.ids, i, s.procs[i].n.members)
          && s.procs[i] == Proc(InitNode(i, s.procs[i].n.members), Free))
  }

  // ---- What each step adds to the history ----

  function Cast(h: History, v: int, t: int, c: int, log: Log): History {
    if Vote(v, t) in h.ballots then h else h.(ballots := h.ballots[Vote(v, t) := Ballot(c, log)])
  }

  function Crown(h: History, n: NodeState): History {
    h.(lead := h.lead[n.term := n.me], tlog := h.tlog[n.term := n.log])
  }

  function Note(h: History, v: int, t: int, k: nat): History {
    if k <= Acc(h, v, t) then h else h.(acc := h.acc[Mark(v, t) := k])
  }

  // ---- The actions: a guard and an effect each ----

  function Apply(s: State, i: int, p: Proc, sent: set<Packet>, h: History): State {
    State(s.ids, s.procs[i := p], s.net + sent, h)
  }

  /** The replies that `from` gave to earlier requests equal to the new one. */
  function OldReplies(s: State, from: int, call: Packet): set<Packet> {
    set p | p in s.net && ((p.VoteReply? && p.from == from && call == VoteCall(from, p.vote))
                           || (p.LogReply? && p.from == from && call == LogCall(from, p.log)))
  }

  /** The start of an exchange with server `to`. */
  function Dial(s: State, to: int, call: Packet): State {
    s.(net := s.net - OldReplies(s, to, call))
  }

  predicate CanTimeout(s: State, i: int) {
    i in s.procs && s.procs[i].lock.Free? && s.procs[i].n.status.Follower?
  }

  function DoTimeout(s: State, i: int): State
    requires CanTimeout(s, i)
  {
    Apply(s, i, Proc(s.procs[i].n.(status := Candidate), Free), {}, s.hist)
  }

  /** TimeoutThread reads the status before it takes the lock, so a candidate that has
      become a follower since may still start an election. */
  predicate CanBeginElection(s: State, i: int) {
    i in s.procs && s.procs[i].lock.Free? && !s.procs[i].n.status.Leader?
  }

  function DoBeginElection(fix: Repairs, s: State, i: int): State
    requires CanBeginElection(s, i)
  {
    var n' := StartElection(fix, s.procs[i].n);
    Apply(s, i, Proc(n', Electing), {}, Cast(s.hist, i, n'.term, i, n'.log))
  }

  predicate CanSendVote(s: State, i: int, to: int) {
    i in s.procs && s.procs[i].lock.Electing? && to in s.ids && to != i
  }

  function DoSendVote(s: State, i: int, to: int): State
    requires CanSendVote(s, i, to)
  {
    var m := MakeVoteRequest(s.procs[i].n);
    Apply(Dial(s, to, VoteCall(to, m)), i, Proc(s.procs[i].n, AwaitVote(to, m)), {VoteCall(to, m)}, s.hist)
  }

  predicate CanDeliverVote(s: State, i: int, m: VoteRequest) {
    i in s.procs && s.procs[i].lock.Free? && VoteCall(i, m) in s.net
  }

  function Voted(h: History, n: NodeState, m: VoteRequest): History {
    if AnswerVote(n, m).voted then Cast(h, n.me, m.term, m.id, n.log) else h
  }

  function DoDeliverVote(s: State, i: int, m: VoteRequest): State
    requires CanDeliverVote(s, i, m)
  {
    var n := s.procs[i].n;
    Apply(s, i, Proc(MeetCandidate(n, m), Free), {VoteReply(i, m, AnswerVote(n, m))}, Voted(s.hist, n, m))
  }

  predicate CanReceiveVote(s: State, i: int, r: VoteResponse) {
    && i in s.procs && s.procs[i].lock.AwaitVote?
    && VoteReply(s.procs[i].lock.peer, s.procs[i].lock.voteReq, r) in s.net
  }

  function Polled(fix: Repairs, n: NodeState, r: VoteResponse): Proc {
    Proc(TakeVote(fix, n, r), if ElectionOver(fix, n, r) then Free else Electing)
  }

  function DoReceiveVote(fix: Repairs, s: State, i: int, r: VoteResponse): State
    requires CanReceiveVote(s, i, r)
  {
    var p' := Polled(fix, s.procs[i].n, r);
    Apply(s, i, p', {}, if p'.n.status.Leader? then Crown(s.hist, p'.n) else s.hist)
  }

  /** A failed receive counts as no vote. */
  predicate CanLoseVote(s: State, i: int) { i in s.procs && s.procs[i].lock.AwaitVote? }

  function DoLoseVote(s: State, i: int): State
    requires CanLoseVote(s, i)
  {
    Apply(s, i, Proc(s.procs[i].n, Electing), {}, s.hist)
  }

  predicate CanEndElection(s: State, i: int) { i in s.procs && s.procs[i].lock.Electing? }

  function DoEndElection(s: State, i: int): State
    requires CanEndElection(s, i)
  {
    Apply(s, i, Proc(s.procs[i].n, Free), {}, s.hist)
  }

  /** Only a leader logs client updates and replicates. */
  predicate LeaderOnly(n: NodeState) { n.status.Leader? }

  predicate CanUpdate(s: State, i: int) {
    i in s.procs && s.procs[i].lock.Free? && LeaderOnly(s.procs[i].n) && 0 < |s.procs[i].n.ack|
  }

  function Extend(h: History, n: NodeState, op: MapOp): History {
    Note(h.(tlog := h.tlog[n.term := n.log + [op]]), n.me, n.term, |n.log| + 1)
  }

  function DoUpdate(s: State, i: int, customer: int, order: int): State
    requires CanUpdate(s, i)
  {
    var n := s.procs[i].n;
    Apply(s, i, Proc(ClientUpdate(n, customer, order), Replicating), {},
          Extend(s.hist, n, MapOp(n.term, customer, order)))
  }

  predicate CanBeginReplicate(s: State, i: int) {
    i in s.procs && s.procs[i].lock.Free? && LeaderOnly(s.procs[i].n)
  }

  function DoBeginReplicate(s: State, i: int): State
    requires CanBeginReplicate(s, i)
  {
    Apply(s, i, Proc(s.procs[i].n, Replicating), {}, s.hist)
  }

  predicate CanSendLog(s: State, i: int, slot: nat) {
    && i in s.procs && s.procs[i].lock.Replicating?
    && slot < |s.procs[i].n.members| - 1 && SendInBounds(s.procs[i].n, slot)
  }

  function DoSendLog(s: State, i: int, slot: nat): State
    requires CanSendLog(s, i, slot)
  {
    var n := s.procs[i].n;
    var m, to := MakeLogRequest(n, slot), n.members[slot];
    Apply(Dial(s, to, LogCall(to, m)), i, Proc(n, AwaitLog(slot, m)), {LogCall(to, m)}, s.hist)
  }

  predicate CanDeliverLog(fix: Repairs, s: State, i: int, m: LogRequest) {
    && i in s.procs && s.procs[i].lock.Free? && LogCall(i, m) in s.net
    && LogInBounds(fix, s.procs[i].n, m)
  }

  function Accepted(fix: Repairs, h: History, n: NodeState, m: LogRequest): History {
    if !(Accepts(fix, n, m) && m.opTerm != -1 && 0 <= m.prefixLength) then h
    else if Stored(fix, n.log, m) then Note(h, n.me, m.term, m.prefixLength + 1)
    else Note(h.(hollow := h.hollow + {Hollow(n.me, m.term, m.prefixLength + 1)}), n.me, m.term, m.prefixLength)
  }

  /** Whether an accepting follower ends up with the request's entry. */
  predicate Stored(fix: Repairs, log: Log, m: LogRequest) { fix.cutConflict || !Conflicts(log, m) }

  function DoDeliverLog(fix: Repairs, s: State, i: int, m: LogRequest): State
    requires CanDeliverLog(fix, s, i, m)
  {
    var n := s.procs[i].n;
    Apply(s, i, Proc(TakeLog(fix, n, m), Free), {LogReply(i, m, AnswerLog(fix, n, m))}, Accepted(fix, s.hist, n, m))
  }

  predicate CanReceiveLog(s: State, i: int, r: LogResponse) {
    && i in s.procs && s.procs[i].lock.AwaitLog? && HasSlot(s.procs[i].n, s.procs[i].lock.slot)
    && LogReply(s.procs[i].n.members[s.procs[i].lock.slot], s.procs[i].lock.logReq, r) in s.net
  }

  /** A leader that steps down returns at once. */
  function Replied(fix: Repairs, n: NodeState, slot: nat, m: LogRequest, r: LogResponse): Proc
    requires HasSlot(n, slot)
  {
    Proc(TakeReply(fix, n, slot, m, r),
         if !NoReply(r) && m.opTerm != -1 && r.term > n.term then Free else Replicating)
  }

  function DoReceiveLog(fix: Repairs, s: State, i: int, r: LogResponse): State
    requires CanReceiveLog(s, i, r)
  {
    var p := s.procs[i];
    Apply(s, i, Replied(fix, p.n, p.lock.slot, p.lock.logReq, r), {}, s.hist)
  }

  predicate CanLoseLog(s: State, i: int) {
    i in s.procs && s.procs[i].lock.AwaitLog? && HasSlot(s.procs[i].n, s.procs[i].lock.slot)
  }

  function DoLoseLog(s: State, i: int): State
    requires CanLoseLog(s, i)
  {
    Apply(s, i, Proc(CleanNodeState(s.procs[i].n, s.procs[i].lock.slot), Replicating), {}, s.hist)
  }

  predicate CanEndReplicate(s: State, i: int) { i in s.procs && s.procs[i].lock.Replicating? }

  function DoEndReplicate(s: State, i: int): State
    requires CanEndReplicate(s, i)
  {
    Apply(s, i, Proc(s.procs[i].n, Free), {}, s.hist)
  }

  // ---- Steps ----

  datatype Step =
    | Timeout(i: int)
    | BeginElection(i: int)
    | SendVote(i: int, to: int)
    | DeliverVote(i: int, vote: VoteRequest)
    | ReceiveVote(i: int, voteResp: VoteResponse)
    | LoseVote(i: int)
    | EndElection(i: int)
    | Update(i: int, customer: int, order: int)
    | BeginReplicate(i: int)
    | SendLog(i: int, slot: nat)
    | DeliverLog(i: int, log: LogRequest)
    | ReceiveLog(i: int, logResp: LogResponse)
    | LoseLog(i: int)
    | EndReplicate(i: int)

  predicate Enabled(fix: Repairs, s: State, st: Step) {
    match st
    case Timeout(i) => CanTimeout(s, i)
    case BeginElection(i) => CanBeginElection(s, i)
    case SendVote(i, to) => CanSendVote(s, i, to)
    case DeliverVote(i, m) => CanDeliverVote(s, i, m)
    case ReceiveVote(i, r) => CanReceiveVote(s, i, r)
    case LoseVote(i) => CanLoseVote(s, i)
    case EndElection(i) => CanEndElection(s, i)
    case Update(i, _, _) => CanUpdate(s, i)
    case BeginReplicate(i) => CanBeginReplicate(s, i)
    case SendLog(i, slot) => CanSendLog(s, i, slot)
    case DeliverLog(i, m) => CanDeliverLog(fix, s, i, m)
    case ReceiveLog(i, r) => CanReceiveLog(s, i, r)
    case LoseLog(i) => CanLoseLog(s, i)
    case EndReplicate(i) => CanEndReplicate(s, i)
  }

  function After(fix: Repairs, s: State, st: Step): State
    requires Enabled(fix, s, st)
  {
    match st
    case Timeout(i) => DoTimeout(s, i)
    case BeginElection(i) => DoBeginElection(fix, s, i)
    case SendVote(i, to) => DoSendVote(s, i, to)
    case DeliverVote(i, m) => DoDeliverVote(s, i, m)
    case ReceiveVote(i, r) => DoReceiveVote(fix, s, i, r)
    case LoseVote(i) => DoLoseVote(s, i)
    case EndElection(i) => DoEndElection(s, i)
    case Update(i, c, o) => DoUpdate(s, i, c, o)
    case BeginReplicate(i) => DoBeginReplicate(s, i)
    case SendLog(i, slot) => DoSendLog(s, i, slot)
    case DeliverLog(i, m) => DoDeliverLog(fix, s, i, m)
    case ReceiveLog(i, r) => DoReceiveLog(fix, s, i, r)
    case LoseLog(i) => DoLoseLog(s, i)
    case EndReplicate(i) => DoEndReplicate(s, i)
  }

  /** The requests sent so far; no step takes one away. */
  ghost function Calls(s: State): set<Packet> {
    set p | p in s.net && (p.VoteCall? || p.LogCall?)
  }

  lemma StepKeepsCalls(fix: Repairs, s: State, st: Step)
    requires Enabled(fix, s, st)
    ensures Calls(s) <= Calls(After(fix, s, st))
  {}

  lemma StepKeepsIds(fix: Repairs, s: State, st: Step)
    requires Enabled(fix, s, st)
    ensures After(fix, s, st).ids == s.ids && After(fix, s, st).procs.Keys == s.procs.Keys
  {}

  /** With the term order repaired no step lowers a term. */
  lemma StepRaisesTerms(fix: Repairs, s: State, st: Step, a: int)
    requires fix.termOrder && Enabled(fix, s, st) && a in s.procs
    ensures a in After(fix, s, st).procs && s.procs[a].n.term <= After(fix, s, st).procs[a].n.term
  {
    if st.ReceiveLog? && a == st.i { ResponseTerm(fix, s.procs[a].n, s.procs[a].lock.slot, st.logResp); }
  }

  lemma ResponseTerm(fix: Repairs, n: NodeState, slot: nat, r: LogResponse)
    requires HasSlot(n, slot)
    ensures var n' := TakeLogResponse(fix, n, slot, r);
            n.term <= n'.term && n'.me == n.me && n'.log == n.log && (n'.term == n.term ==> n'.votedFor == n.votedFor)
  {
    if r.term == n.term && n.status.Leader? && r.success {
      var n1 := n.(sent := n.sent[slot := r.ack], ack := n.ack[slot := r.ack]);
      ExecuteKeeps(n1, CommitPoint(fix, n1, |n1.log|));
    }
  }

  /** A leader takes a response in the same way under the same commit rule. */
  lemma SameReply(fix: Repairs, fix': Repairs, p: Proc, r: LogResponse)
    requires p.lock.AwaitLog? && HasSlot(p.n, p.lock.slot) && fix'.ownTerm == fix.ownTerm
    ensures Replied(fix', p.n, p.lock.slot, p.lock.logReq, r) == Replied(fix, p.n, p.lock.slot, p.lock.logReq, r)
  {
    var n1 := p.n.(sent := p.n.sent[p.lock.slot := r.ack], ack := p.n.ack[p.lock.slot := r.ack]);
    SameCommit(fix, fix', n1, |n1.log|);
  }

  /** A step that only moves a lock, a slot or a request, or lets a server step down. */
  predicate LightStep(st: Step) {
    || st.Timeout? || st.SendVote? || st.LoseVote? || st.EndElection? || st.BeginReplicate? || st.SendLog?
    || st.ReceiveLog? || st.LoseLog? || st.EndReplicate?
  }

  /** It keeps the mover's log and all of the history. */
  lemma LightStepKeeps(fix: Repairs, s: State, st: Step)
    requires LightStep(st) && Enabled(fix, s, st)
    ensures var s', n, n' := After(fix, s, st), s.procs[st.i].n, After(fix, s, st).procs[st.i].n;
            && s'.ids == s.ids && s'.hist == s.hist && s'.procs == s.procs[st.i := s'.procs[st.i]]
            && n'.me == n.me && n'.log == n.log && n.term <= n'.term
                && (n'.term == n.term ==> n'.votedFor == n.votedFor)
  {
    if st.ReceiveLog? { ResponseTerm(fix, s.procs[st.i].n, s.procs[st.i].lock.slot, st.logResp); }
  }

  // ---- Runs ----

  ghost predicate Next(fix: Repairs, s: State, s': State) {
    exists st: Step :: Enabled(fix, s, st) && s' == After(fix, s, st)
  }

  ghost predicate NextAt(fix: Repairs, run: seq<State>, i: nat)
    requires i + 1 < |run|
  {
    Next(fix, run[i], run[i + 1])
  }

  ghost predicate Run(fix: Repairs, run: seq<State>) {
    && 0 < |run|
    && Init(run[0])
    && (forall i :: 0 <= i < |run| - 1 ==> NextAt(fix, run, i))
  }

  /** The step between two neighbouring states of a run. */
  lemma StepAt(fix: Repairs, run: seq<State>, i: nat) returns (st: Step)
    requires Run(fix, run) && i + 1 < |run|
    ensures Enabled(fix, run[i], st) && run[i + 1] == After(fix, run[i], st)
  {
    assert NextAt(fix, run, i);
    st :| Enabled(fix, run[i], st) && run[i + 1] == After(fix, run[i], st);
  }

  /** The servers of a run never change. */
  lemma {:induction false} IdsStay(fix: Repairs, run: seq<State>, i: nat)
    requires Run(fix, run) && i < |run|
    ensures run[i].ids == run[0].ids && run[i].procs.Keys == run[0].ids
  {
    if i > 0 {
      IdsStay(fix, run, i - 1);
      var st := StepAt(fix, run, i - 1);
      StepKeepsIds(fix, run[i - 1], st);
    }
  }

  ghost predicate Reach(fix: Repairs, s: State) {
    exists run :: Run(fix, run) && run[|run| - 1] == s
  }

  lemma ReachStep(fix: Repairs, s: State, st: Step) returns (s': State)
    requires Reach(fix, s) && Enabled(fix, s, st)
    ensures s' == After(fix, s, st) && Reach(fix, s') && Calls(s) <= Calls(s')
  {
    s' := After(fix, s, st);
    StepKeepsCalls(fix, s, st);
    var run :| Run(fix, run) && run[|run| - 1] == s;
    var run' := run + [s'];
    forall i | 0 <= i < |run'| - 1 ensures NextAt(fix, run', i) {
      if i < |run| - 1 { assert NextAt(fix, run, i); }
    }
    assert Run(fix, run') && run'[|run'| - 1] == s';
  }

  /** No server has the number that stands for a failed one. */
  lemma RealNames(fix: Repairs, s: State)
    requires Reach(fix, s)
    ensures -1 !in s.ids
  {
    var run :| Run(fix, run) && run[|run| - 1] == s;
    IdsStay(fix, run, |run| - 1);
  }

  // ---- A starting state for any set of servers ----

  /** Any numbering of the servers will do. */
  ghost function Enumerate(ids: set<int>): (r: seq<int>)
    ensures |r| == |ids| && (forall v :: v in r <==> v in ids)
    ensures forall j, k :: 0 <= j < k < |r| ==> r[j] != r[k]
  {
    if ids == {} then []
    else
      assert (forall u :: u !in ids) ==> ids == {};
      var v :| v in ids;
      Enumerate(ids - {v}) + [v]
  }

  /** The others in some order, then the server itself. */
  ghost function Roster(ids: set<int>, me: int): (r: seq<int>)
    requires me in ids
    ensures Members(ids, me, r) && forall v :: v in ids ==> v in r
  {
    var others := Enumerate(ids - {me});
    assert |ids - {me}| == |ids| - 1;
    assert forall j :: 0 <= j < |others| ==> others[j] in others;
    others + [me]
  }

  ghost function Start(ids: set<int>): (s: State)
    requires -1 !in ids
    ensures Init(s) && s.ids == ids
  {
    State(ids, map i | i in ids :: Proc(InitNode(i, Roster(ids, i)), Free), {}, NoHistory)
  }

  lemma StartReachable(fix: Repairs, ids: set<int>)
    requires -1 !in ids
    ensures Reach(fix, Start(ids))
  {
    var run := [Start(ids)];
    assert Run(fix, run) && run[|run| - 1] == Start(ids);
  }
}
