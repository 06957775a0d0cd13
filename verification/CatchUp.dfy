/** A leader and one follower with the link up: how the exchanges of ReplicateLog bring
    the follower's log, and then its table, to the leader's. */
module CatchUp {
  import opened RaftTypes
  import opened Handlers
  import R = Replaying

  // ---- Which followers can be brought up to date ----

  /** Whether the follower takes part in the leader's term when a request arrives. */
  predicate Joins(fix: Repairs, term: int, f: NodeState) {
    f.term <= term || (f.status.Follower? && !fix.termOrder)
  }

  ghost predicate Matching(a: Log, b: Log) {
    forall k :: 0 <= k < |a| && k < |b| && a[k].term == b[k].term ==> a[..k + 1] == b[..k + 1]
  }

  /** What every reachable leader and follower satisfy (see Reachability), as far as the
      repaired truncation is concerned; without it the follower must hold no conflict. */
  ghost predicate Follows(fix: Repairs, line: Log, term: int, f: NodeState) {
    && f.me != -1 && f.commitLength <= |f.log|
    && (Joins(fix, term, f) ==>
          && Matching(line, f.log)
          && f.log[..f.commitLength] <= line
          && (fix.cutConflict || f.log <= line || line <= f.log))
  }

  ghost predicate Leads(l: NodeState, slot: nat) {
    && l.status.Leader? && SendInBounds(l, slot) && l.commitLength <= |l.log|
    && R.Positive(l.log)
  }

  /** The length of the longest common prefix. */
  function Common(a: Log, b: Log): (c: nat)
    ensures c <= |a| && c <= |b| && a[..c] == b[..c]
    ensures c < |a| && c < |b| ==> a[c] != b[c]
  {
    if a == [] || b == [] || a[0] != b[0] then 0
    else
      var c := Common(a[1..], b[1..]);
      assert a[..c + 1] == [a[0]] + a[1..][..c] && b[..c + 1] == [b[0]] + b[1..][..c];
      c + 1
  }

  lemma CommonIsLongest(a: Log, b: Log, k: nat)
    requires k <= |a| && k <= |b|
    ensures a[..k] == b[..k] <==> k <= Common(a, b)
  {
    var c := Common(a, b);
    if k <= c {
      assert a[..k] == a[..c][..k] && b[..k] == b[..c][..k];
    } else {
      assert a[..k][c] == a[c] && b[..k][c] == b[c];
    }
  }

  // ---- One exchange ----

  function Offer(l: NodeState, slot: nat): LogRequest
    requires SendInBounds(l, slot)
  {
    MakeLogRequest(l, slot)
  }

  /** The leader after response `r`: one without a sender is a failure, and the one to a
      heartbeat is not looked at further. */
  function HearReply(fix: Repairs, l: NodeState, slot: nat, r: LogResponse): NodeState
    requires SendInBounds(l, slot)
  {
    if NoReply(r) then CleanNodeState(l, slot)
    else if l.sent[slot] == |l.log| then l
    else TakeLogResponse(fix, l, slot, r)
  }

  /** The leader after the reply of follower `f`. */
  function Heard(fix: Repairs, l: NodeState, slot: nat, f: NodeState): NodeState
    requires SendInBounds(l, slot)
  {
    HearReply(fix, l, slot, AnswerLog(fix, f, Offer(l, slot)))
  }

  /** What an accepting follower's log becomes: unchanged, or the leader's up to the entry. */
  lemma AcceptedLog(fix: Repairs, l: NodeState, f: NodeState, p: nat)
    requires p < |l.log| && R.Positive(l.log) && Follows(fix, l.log, l.term, f) && Joins(fix, l.term, f)
    requires CanLog(f.log, RequestAt(l, p))
    ensures var log' := AcceptLog(fix, f.log, RequestAt(l, p));
            && l.log[..p + 1] <= log'
            && log' == (if l.log[..p + 1] <= f.log then f.log else l.log[..p + 1])
    ensures l.log[..p] <= f.log
    ensures R.CutKeepsCommitted(fix, f, RequestAt(l, p)) && LogInBounds(fix, f, RequestAt(l, p))
  {}

  /** A follower accepts exactly up to the common prefix. */
  lemma AcceptsUpToCommon(fix: Repairs, l: NodeState, f: NodeState, p: nat)
    requires p < |l.log| && Follows(fix, l.log, l.term, f) && Joins(fix, l.term, f)
    ensures CanLog(f.log, RequestAt(l, p)) <==> p <= Common(l.log, f.log)
  {}

  /** How far a slot still is from the leader's log: down to the common prefix, then up. */
  function Distance(line: Log, s: int, log: Log): nat
    requires 0 <= s <= |line|
  {
    var n, c := |line|, Common(line, log);
    if s > c then (s - c) + (n - c) else n - s
  }

  /** The follower of a later term refuses and the leader steps down. */
  lemma EntryOutdated(fix: Repairs, l: NodeState, slot: nat, f: NodeState)
    requires Leads(l, slot) && l.sent[slot] < |l.log| && !Joins(fix, l.term, f) && f.me != -1
    ensures LogInBounds(fix, f, Offer(l, slot)) && R.CutKeepsCommitted(fix, f, Offer(l, slot))
    ensures Heard(fix, l, slot, f) == Demote(l, f.term) && f.term > l.term
    ensures TakeLog(fix, f, Offer(l, slot)) == f
  {}

  /** A follower whose log does not reach or match the prefix: the leader backs off by one. */
  lemma EntryRefused(fix: Repairs, l: NodeState, slot: nat, f: NodeState)
    requires Leads(l, slot) && Follows(fix, l.log, l.term, f) && Joins(fix, l.term, f) && l.sent[slot] < |l.log|
    requires !CanLog(f.log, Offer(l, slot))
    ensures LogInBounds(fix, f, Offer(l, slot)) && R.CutKeepsCommitted(fix, f, Offer(l, slot))
    ensures var p, f' := l.sent[slot], TakeLog(fix, f, Offer(l, slot));
            && Common(l.log, f.log) < p && Heard(fix, l, slot, f) == l.(sent := l.sent[slot := p - 1])
            && f'.log == f.log && Follows(fix, l.log, l.term, f') && Joins(fix, l.term, f')
  {
    AcceptsUpToCommon(fix, l, f, l.sent[slot]);
  }

  /** A follower that can log the entry stores it; the leader records it and moves on. */
  lemma EntryAccepted(fix: Repairs, l: NodeState, slot: nat, f: NodeState)
    requires Leads(l, slot) && Follows(fix, l.log, l.term, f) && Joins(fix, l.term, f) && l.sent[slot] < |l.log|
    requires CanLog(f.log, Offer(l, slot))
    ensures LogInBounds(fix, f, Offer(l, slot)) && R.CutKeepsCommitted(fix, f, Offer(l, slot))
    ensures var p, l', f' := l.sent[slot], Heard(fix, l, slot, f), TakeLog(fix, f, Offer(l, slot));
            && l' == l.(sent := l.sent[slot := p + 1], ack := l.ack[slot := p + 1],
                        record := l'.record, commitLength := l'.commitLength)
            && l.commitLength <= l'.commitLength <= |l.log|
            && Follows(fix, l.log, l.term, f') && Joins(fix, l.term, f')
            && f'.log == (if l.log[..p + 1] <= f.log then f.log else l.log[..p + 1])
            && p <= Common(l.log, f.log) && p + 1 <= Common(l.log, f'.log)
  {
    var p, m := l.sent[slot], Offer(l, slot);
    AcceptedLog(fix, l, f, p);
    LeaderAdvances(fix, l, slot, f);
    FollowsOn(fix, l, f, m);
    CommonGrows(fix, l, f, p);
  }

  lemma CommonGrows(fix: Repairs, l: NodeState, f: NodeState, p: nat)
    requires p < |l.log| && R.Positive(l.log) && Follows(fix, l.log, l.term, f) && Joins(fix, l.term, f)
    requires CanLog(f.log, RequestAt(l, p))
    ensures p <= Common(l.log, f.log) && p + 1 <= Common(l.log, AcceptLog(fix, f.log, RequestAt(l, p)))
  {
    AcceptedLog(fix, l, f, p);
    AcceptsUpToCommon(fix, l, f, p);
    var log' := AcceptLog(fix, f.log, RequestAt(l, p));
    assert l.log[..p + 1] == log'[..p + 1];
    CommonIsLongest(l.log, log', p + 1);
  }

  lemma EntryInBounds(fix: Repairs, l: NodeState, slot: nat, f: NodeState)
    requires Leads(l, slot) && Follows(fix, l.log, l.term, f) && l.sent[slot] < |l.log|
    ensures LogInBounds(fix, f, Offer(l, slot)) && R.CutKeepsCommitted(fix, f, Offer(l, slot))
    ensures Follows(fix, l.log, l.term, TakeLog(fix, f, Offer(l, slot)))
    ensures Joins(fix, l.term, f) <==> AnswerLog(fix, f, Offer(l, slot)).term <= l.term
  {
    if !Joins(fix, l.term, f) {
      EntryOutdated(fix, l, slot, f);
    } else if CanLog(f.log, Offer(l, slot)) {
      EntryAccepted(fix, l, slot, f);
    } else {
      EntryRefused(fix, l, slot, f);
    }
  }

  /** What one exchange that carries an entry achieves with a follower that joins: the slot
      is strictly closer to the leader's log, and moves up only past what is stored. */
  lemma EntryProgress(fix: Repairs, l: NodeState, slot: nat, f: NodeState)
    requires Leads(l, slot) && Follows(fix, l.log, l.term, f) && Joins(fix, l.term, f) && l.sent[slot] < |l.log|
    ensures LogInBounds(fix, f, Offer(l, slot)) && R.CutKeepsCommitted(fix, f, Offer(l, slot))
    ensures var l', f' := Heard(fix, l, slot, f), TakeLog(fix, f, Offer(l, slot));
            && Leads(l', slot) && l'.log == l.log && l'.term == l.term
            && l'.sent == l.sent[slot := l'.sent[slot]]
            && (l'.sent[slot] > l.sent[slot] ==> l.log[..l'.sent[slot]] <= f'.log)
            && Follows(fix, l.log, l.term, f') && Joins(fix, l.term, f')
            && Distance(l.log, l'.sent[slot], f'.log) < Distance(l.log, l.sent[slot], f.log)
  {
    if CanLog(f.log, Offer(l, slot)) { AcceptedProgress(fix, l, slot, f); } else { EntryRefused(fix, l, slot, f); }
  }

  lemma AcceptedProgress(fix: Repairs, l: NodeState, slot: nat, f: NodeState)
    requires Leads(l, slot) && Follows(fix, l.log, l.term, f) && Joins(fix, l.term, f) && l.sent[slot] < |l.log|
    requires CanLog(f.log, Offer(l, slot))
    ensures LogInBounds(fix, f, Offer(l, slot)) && R.CutKeepsCommitted(fix, f, Offer(l, slot))
    ensures var s, l', f' := l.sent[slot] + 1, Heard(fix, l, slot, f), TakeLog(fix, f, Offer(l, slot));
            && l' == l.(sent := l.sent[slot := s], ack := l.ack[slot := s],
                        record := l'.record, commitLength := l'.commitLength)
            && l.commitLength <= l'.commitLength <= |l.log|
            && l.log[..s] <= f'.log
            && Follows(fix, l.log, l.term, f') && Joins(fix, l.term, f')
            && Distance(l.log, s, f'.log) < Distance(l.log, s - 1, f.log)
  {
    EntryAccepted(fix, l, slot, f);
  }

  lemma LeaderAdvances(fix: Repairs, l: NodeState, slot: nat, f: NodeState)
    requires Leads(l, slot) && l.sent[slot] < |l.log|
    requires Joins(fix, l.term, f) && CanLog(f.log, Offer(l, slot)) && f.me != -1
    ensures var p, l' := l.sent[slot], Heard(fix, l, slot, f);
            && l' == l.(sent := l.sent[slot := p + 1], ack := l.ack[slot := p + 1],
                        record := l'.record, commitLength := l'.commitLength)
            && l.commitLength <= l'.commitLength <= |l.log|
  {
    var p := l.sent[slot];
    var l1 := l.(sent := l.sent[slot := p + 1], ack := l.ack[slot := p + 1]);
    ExecuteKeeps(l1, CommitPoint(fix, l1, |l1.log|));
  }

  lemma MatchesItself(line: Log, n: nat)
    requires n <= |line|
    ensures Matching(line, line[..n])
  {
    forall k | 0 <= k < n && line[k].term == line[..n][k].term
      ensures line[..k + 1] == line[..n][..k + 1]
    {}
  }

  lemma FollowsOn(fix: Repairs, l: NodeState, f: NodeState, m: LogRequest)
    requires Follows(fix, l.log, l.term, f) && Joins(fix, l.term, f) && R.Positive(l.log)
    requires 0 <= m.prefixLength < |l.log| && m == RequestAt(l, m.prefixLength)
    requires CanLog(f.log, m) && LogInBounds(fix, f, m) && R.CutKeepsCommitted(fix, f, m)
    ensures Follows(fix, l.log, l.term, TakeLog(fix, f, m)) && Joins(fix, l.term, TakeLog(fix, f, m))
  {
    var p, f' := m.prefixLength, TakeLog(fix, f, m);
    AcceptedLog(fix, l, f, p);
    if f'.log != f.log { MatchesItself(l.log, p + 1); }
    CommitsInLine(fix, l, f, m);
  }

  lemma CommitsInLine(fix: Repairs, l: NodeState, f: NodeState, m: LogRequest)
    requires Follows(fix, l.log, l.term, f) && Joins(fix, l.term, f) && R.Positive(l.log)
    requires 0 <= m.prefixLength < |l.log| && m == RequestAt(l, m.prefixLength)
    requires CanLog(f.log, m) && LogInBounds(fix, f, m) && R.CutKeepsCommitted(fix, f, m)
    ensures var f' := TakeLog(fix, f, m);
            f'.commitLength <= |f'.log| && f'.log[..f'.commitLength] <= l.log
  {
    AcceptedLog(fix, l, f, m.prefixLength);
    if CommitsOne(fix, f, m) { assert TakeLog(fix, f, m).log <= l.log; }
  }

  // ---- Links ----

  /** What a link does to one exchange. After a failure the socket stays closed. */
  datatype Link = Up | RequestLost | ReplyLost

  /** What slot `s`'s link does to its exchange `k`. */
  function LinkAt(faults: seq<seq<Link>>, s: nat, k: nat): Link {
    if s < |faults| && k < |faults[s]| then faults[s][k] else Up
  }

  predicate LinkFailed(faults: seq<seq<Link>>, s: nat, taken: nat) {
    exists k :: 0 <= k < taken && !LinkAt(faults, s, k).Up?
  }

  // ---- All slots together ----

  ghost predicate InRange(line: Log, sent: seq<int>, logs: seq<Log>, slots: seq<nat>) {
    && |logs| <= |sent|
    && (forall j :: 0 <= j < |sent| ==> 0 <= sent[j] <= |line|)
    && (forall k :: 0 <= k < |slots| ==> slots[k] < |logs|)
    && (forall j, k :: 0 <= j < k < |slots| ==> slots[j] != slots[k])
  }

  /** The distance left over the listed slots whose links are not broken. */
  ghost function Total(line: Log, sent: seq<int>, logs: seq<Log>, slots: seq<nat>, broken: set<nat>): nat
    requires InRange(line, sent, logs, slots)
  {
    if slots == [] then 0
    else (if slots[0] in broken then 0 else Distance(line, sent[slots[0]], logs[slots[0]]))
         + Total(line, sent, logs, slots[1..], broken)
  }

  /** Changing one slot changes the total by that slot's distance, if it is listed. */
  lemma {:induction false} TotalChanges(line: Log, sent: seq<int>, logs: seq<Log>, slots: seq<nat>, broken: set<nat>,
                                        slot: nat, s: int, log: Log)
    requires InRange(line, sent, logs, slots) && slot < |logs| && slot !in broken && 0 <= s <= |line|
    requires InRange(line, sent[slot := s], logs[slot := log], slots)
    ensures Total(line, sent[slot := s], logs[slot := log], slots, broken) ==
            Total(line, sent, logs, slots, broken)
            + (if slot in slots then Distance(line, s, log) - Distance(line, sent[slot], logs[slot]) else 0)
  {
    if slots != [] { TotalChanges(line, sent, logs, slots[1..], broken, slot, s, log); }
  }

  lemma {:induction false} TotalIgnores(line: Log, sent: seq<int>, logs: seq<Log>, slots: seq<nat>, broken: set<nat>,
                                        slot: nat, s: int)
    requires InRange(line, sent, logs, slots) && slot < |logs| && slot in broken && 0 <= s <= |line|
    ensures InRange(line, sent[slot := s], logs, slots)
    ensures Total(line, sent[slot := s], logs, slots, broken) == Total(line, sent, logs, slots, broken)
  {
    if slots != [] { TotalIgnores(line, sent, logs, slots[1..], broken, slot, s); }
  }

  /** Slots in range, and every slot that was behind at the start and has caught up belongs to
      a follower that holds the whole log. */
  ghost predicate OnTrack(line: Log, sent: seq<int>, logs: seq<Log>, slots: seq<nat>, behind: set<nat>,
                          broken: set<nat>) {
    && InRange(line, sent, logs, slots)
    && (forall j :: j in behind ==> j < |logs|)
    && (forall j :: j in behind && j !in broken && sent[j] == |line| ==> line <= logs[j])
    && (forall j :: j in broken ==> j < |sent| && sent[j] == 0)
  }

  /** An exchange that carried an entry keeps the slots on track and lowers the total. */
  lemma EntryTrack(line: Log, sent: seq<int>, logs: seq<Log>, slots: seq<nat>, behind: set<nat>, broken: set<nat>,
                   slot: nat, s: int, log: Log)
    requires OnTrack(line, sent, logs, slots, behind, broken) && slot < |logs| && slot in slots && slot !in broken
    requires 0 <= s <= |line| && sent[slot] < |line| && (s > sent[slot] ==> line[..s] <= log)
    requires Distance(line, s, log) < Distance(line, sent[slot], logs[slot])
    ensures OnTrack(line, sent[slot := s], logs[slot := log], slots, behind, broken)
    ensures Total(line, sent[slot := s], logs[slot := log], slots, broken) < Total(line, sent, logs, slots, broken)
  {
    TotalChanges(line, sent, logs, slots, broken, slot, s, log);
    assert s == |line| ==> line[..s] == line;
  }

  ghost function Slots(connected: seq<nat>): set<nat> { set s | s in connected }

  /** The slots that are not up to date. */
  function Behind(line: Log, sent: seq<int>, peers: nat): (b: set<nat>)
    requires peers <= |sent|
    ensures forall s: nat :: s in b <==> s < peers && sent[s] < |line|
  {
    set s: nat | s < peers && sent[s] < |line|
  }

  // ---- Heartbeats ----

  /** A heartbeat changes no log and keeps the follower in step. */
  lemma HeartbeatExchange(fix: Repairs, l: NodeState, f: NodeState)
    requires l.commitLength <= |l.log| && Follows(fix, l.log, l.term, f)
    ensures var m := RequestAt(l, |l.log|);
            && LogInBounds(fix, f, m) && R.CutKeepsCommitted(fix, f, m)
            && var f' := TakeLog(fix, f, m);
               && f'.log == f.log && Follows(fix, l.log, l.term, f')
               && (Joins(fix, l.term, f) ==> Joins(fix, l.term, f'))
  {}

  ghost predicate InStep(fix: Repairs, l: NodeState, f: NodeState) {
    && f.log == l.log && Joins(fix, l.term, f)
    && f.commitLength <= l.commitLength <= |l.log|
  }

  /** The follower after `k` heartbeats. */
  function Beats(fix: Repairs, l: NodeState, f: NodeState, k: nat): (f': NodeState)
    requires InStep(fix, l, f)
    ensures InStep(fix, l, f')
    ensures f'.commitLength == if f.commitLength + k <= l.commitLength then f.commitLength + k else l.commitLength
  {
    if k == 0 then f
    else
      assert RequestAt(l, |l.log|).prefixTerm == PrefixTerm(l.log, |l.log|);
      TakeLog(fix, Beats(fix, l, f, k - 1), RequestAt(l, |l.log|))
  }

  /** Each heartbeat commits exactly one entry, and after enough of them the follower's
      table is the leader's. */
  lemma {:induction false} HeartbeatsCatchUp(fix: Repairs, l: NodeState, f: NodeState, k: nat)
    requires InStep(fix, l, f) && R.Replays(l) && R.Replays(f)
    ensures R.Replays(Beats(fix, l, f, k))
    ensures k >= l.commitLength - f.commitLength ==> Beats(fix, l, f, k).record == l.record
  {
    if k > 0 {
      HeartbeatsCatchUp(fix, l, f, k - 1);
      BeatReplays(fix, l, Beats(fix, l, f, k - 1));
    }
  }

  lemma BeatReplays(fix: Repairs, l: NodeState, f: NodeState)
    requires InStep(fix, l, f) && R.Replays(f)
    ensures LogInBounds(fix, f, RequestAt(l, |l.log|)) && R.Replays(TakeLog(fix, f, RequestAt(l, |l.log|)))
  {
    R.TakeLogReplays(fix, f, RequestAt(l, |l.log|));
  }

  // ---- Sending the log again ----

  ghost predicate Holds(fix: Repairs, l: NodeState, f: NodeState, p: nat) {
    && p <= |l.log| && R.Positive(l.log)
    && Follows(fix, l.log, l.term, f) && Joins(fix, l.term, f) && l.log[..p] <= f.log
  }

  /** A follower that holds the first `p` entries accepts the next one. */
  lemma Pushed(fix: Repairs, l: NodeState, f: NodeState, p: nat)
    requires Holds(fix, l, f, p) && p < |l.log|
    ensures LogInBounds(fix, f, RequestAt(l, p))
    ensures Holds(fix, l, TakeLog(fix, f, RequestAt(l, p)), p + 1)
    ensures TakeLog(fix, f, RequestAt(l, p)).log == if l.log[..p + 1] <= f.log then f.log else l.log[..p + 1]
  {
    assert l.log[..p] == f.log[..p];
    CommonIsLongest(l.log, f.log, p);
    AcceptsUpToCommon(fix, l, f, p);
    AcceptedLog(fix, l, f, p);
    FollowsOn(fix, l, f, RequestAt(l, p));
  }

  /** The follower after the leader sent it every entry from `p` on. */
  function Push(fix: Repairs, l: NodeState, f: NodeState, p: nat): NodeState
    requires Holds(fix, l, f, p)
    decreases |l.log| - p
  {
    if p == |l.log| then f
    else
      Pushed(fix, l, f, p);
      Push(fix, l, TakeLog(fix, f, RequestAt(l, p)), p + 1)
  }

  lemma {:induction false} PushResult(fix: Repairs, l: NodeState, f: NodeState, p: nat)
    requires Holds(fix, l, f, p)
    ensures Push(fix, l, f, p).log == if l.log <= f.log then f.log else l.log
    decreases |l.log| - p
  {
    if p == |l.log| {
      assert l.log[..p] == l.log;
    } else {
      Pushed(fix, l, f, p);
      var f' := TakeLog(fix, f, RequestAt(l, p));
      PushResult(fix, l, f', p + 1);
      if l.log <= f.log { assert l.log[..p + 1] <= f.log; }
    }
  }

  /** Whatever request is handled, a follower that joins goes on to the same end. */
  lemma HandledOnce(fix: Repairs, l: NodeState, f: NodeState, s: nat)
    requires Holds(fix, l, f, 0) && s < |l.log|
    ensures LogInBounds(fix, f, RequestAt(l, s))
    ensures Holds(fix, l, TakeLog(fix, f, RequestAt(l, s)), 0)
    ensures var f' := TakeLog(fix, f, RequestAt(l, s));
            (l.log <= f'.log <==> l.log <= f.log || (s == |l.log| - 1 && CanLog(f.log, RequestAt(l, s))))
            && (l.log <= f.log ==> f'.log == f.log)
            && (l.log <= f'.log && !(l.log <= f.log) ==> f'.log == l.log)
  {
    if CanLog(f.log, RequestAt(l, s)) {
      AcceptsUpToCommon(fix, l, f, s);
      CommonIsLongest(l.log, f.log, s);
      Pushed(fix, l, f, s);
      assert s == |l.log| - 1 ==> l.log[..s + 1] == l.log;
    }
  }

  /** After a lost response, whether the follower had taken the entry or refused it while the
      leader was still backing off, the leader starts again from the first entry. The follower,
      which did handle the lost request, ends with the log it would have had anyway: the
      leader's log, or its own if that already extended it. Nothing is logged twice. */
  lemma ResendIdempotent(fix: Repairs, l: NodeState, f: NodeState, s: nat)
    requires Holds(fix, l, f, 0) && s < |l.log|
    ensures LogInBounds(fix, f, RequestAt(l, s))
    ensures var f' := TakeLog(fix, f, RequestAt(l, s));
            && Holds(fix, l, f', 0)
            && Push(fix, l, f', 0).log == Push(fix, l, f, 0).log
            && Push(fix, l, f, 0).log == if l.log <= f.log then f.log else l.log
    ensures Holds(fix, l, f, s) ==> Push(fix, l, f, s).log == Push(fix, l, f, 0).log
  {
    HandledOnce(fix, l, f, s);
    PushResult(fix, l, f, 0);
    PushResult(fix, l, TakeLog(fix, f, RequestAt(l, s)), 0);
    if Holds(fix, l, f, s) { PushResult(fix, l, f, s); }
  }
}
