/** The guarantees of the cluster, over every run: any number of servers, any
    interleaving, lost links, late and repeated deliveries. */
module Safety {
  import opened RaftTypes
  import opened Handlers
  import opened Cluster
  import E = Elections
  import L = Logs
  import R = Replaying
  import C = Commits
  import H = Hollows
  import S = SmallCluster
  import W = TwoServers

  // ---- Which repairs each guarantee rests on ----

  /** A and B are needed only from four servers on. */
  predicate FairVotes(fix: Repairs, size: nat) {
    (fix.quorum && fix.freshVotes) || size <= 3
  }

  predicate FairElections(fix: Repairs, size: nat) {
    fix.termOrder && FairVotes(fix, size)
  }

  /** D is needed only from three servers on. */
  predicate SoundAcks(fix: Repairs, size: nat) {
    FairElections(fix, size) && (fix.cutConflict || size <= 2)
  }

  /** E is needed only from three servers on; a cluster of four can do without D. */
  predicate SafeCommits(fix: Repairs, size: nat) {
    FairElections(fix, size) && (size <= 2 || (fix.ownTerm && (fix.cutConflict || size == 4)))
  }

  // ---- Runs ----

  /** A run of a small cluster is also a run with the repairs that its size makes up for. */
  lemma RepairedRun(fix: Repairs, run: seq<State>) returns (fix': Repairs)
    requires Run(fix, run) && FairElections(fix, |run[0].ids|)
    ensures Run(fix', run) && E.Sound(fix')
    ensures fix' == fix.(quorum := true, freshVotes := true, cutConflict := fix.cutConflict || |run[0].ids| <= 2)
  {
    fix' := fix.(quorum := true, freshVotes := true);
    if |run[0].ids| <= 3 { S.SmallRuns(fix, fix', run); }
    if |run[0].ids| <= 2 {
      W.UncutRuns(fix', fix'.(cutConflict := true), run);
      fix' := fix'.(cutConflict := true);
    }
  }

  lemma ElectionStep(fix: Repairs, run: seq<State>, i: nat)
    requires E.Sound(fix) && Run(fix, run) && i + 1 < |run|
    ensures E.Extends(run[i].hist, run[i + 1].hist)
  {
    E.Holds(fix, run, i);
    var st := StepAt(fix, run, i);
    E.StepGrows(fix, run[i], st);
  }

  /** Later states of a run remember every vote and leader of the earlier ones. */
  lemma {:induction false} ElectionsExtend(fix: Repairs, run: seq<State>, i: nat, j: nat)
    requires E.Sound(fix) && Run(fix, run) && i <= j < |run|
    ensures E.Extends(run[i].hist, run[j].hist)
    decreases j
  {
    if i < j {
      ElectionsExtend(fix, run, i, j - 1);
      ElectionStep(fix, run, j - 1);
    }
  }

  lemma LogsStep(fix: Repairs, run: seq<State>, i: nat)
    requires E.Sound(fix) && Run(fix, run) && i + 1 < |run|
    ensures L.Extends(run[i].hist, run[i + 1].hist)
  {
    L.Holds(fix, run, i);
    var st := StepAt(fix, run, i);
    L.StepGrows(fix, run[i], st);
  }

  lemma {:induction false} LogsExtend(fix: Repairs, run: seq<State>, i: nat, j: nat)
    requires E.Sound(fix) && Run(fix, run) && i <= j < |run|
    ensures L.Extends(run[i].hist, run[j].hist)
    decreases j
  {
    if i < j {
      LogsExtend(fix, run, i, j - 1);
      LogsStep(fix, run, j - 1);
    }
  }

  /** With conflicts cut no acknowledgement is ever hollow. */
  lemma {:induction false} NoneHollow(fix: Repairs, run: seq<State>, i: nat)
    requires Run(fix, run) && i < |run|
    ensures H.None(fix, run[i])
  {
    if i > 0 {
      NoneHollow(fix, run, i - 1);
      var st := StepAt(fix, run, i - 1);
      H.NoneKept(fix, run[i - 1], st);
    }
  }

  lemma CommitsNext(fix: Repairs, run: seq<State>, i: nat)
    requires Run(fix, run) && i + 1 < |run| && C.Sound(fix, |run[0].ids|)
    requires H.Inv(run[i]) && R.Inv(run[i]) && C.CommitsOk(run[i])
    ensures H.Inv(run[i + 1]) && R.Inv(run[i + 1]) && C.CommitsOk(run[i + 1])
  {
    IdsStay(fix, run, i);
    L.Holds(fix, run, i);
    NoneHollow(fix, run, i);
    var st := StepAt(fix, run, i);
    C.StepKeeps(fix, run[i], st);
  }

  lemma CommitsFirst(fix: Repairs, run: seq<State>)
    requires Run(fix, run)
    ensures H.Inv(run[0]) && R.Inv(run[0]) && C.CommitsOk(run[0])
  {
    C.InitOk(run[0]);
  }

  lemma {:induction false} CommitsGoOn(fix: Repairs, run: seq<State>, i: nat)
    requires Run(fix, run) && C.Sound(fix, |run[0].ids|) && i < |run|
    ensures H.Inv(run[i]) && R.Inv(run[i]) && C.CommitsOk(run[i])
  {
    if i == 0 {
      CommitsFirst(fix, run);
    } else {
      CommitsGoOn(fix, run, i - 1);
      CommitsNext(fix, run, i - 1);
    }
  }

  lemma CommitsHold(fix: Repairs, run: seq<State>, i: nat)
    requires Run(fix, run) && C.Sound(fix, |run[0].ids|) && i < |run|
    ensures C.Inv(run[i])
  {
    L.Holds(fix, run, i);
    CommitsGoOn(fix, run, i);
  }

  /** What a server of a run is known for. */
  lemma KnownAt(fix: Repairs, run: seq<State>, i: nat, a: int)
    requires E.Sound(fix) && Run(fix, run) && i < |run| && (a in run[0].ids || a in run[i].procs)
    ensures run[i].ids == run[0].ids && a in run[i].ids && a in run[i].procs
    ensures run[i].procs[a].n.me == a && L.Known(run[i], run[i].procs[a])
  {
    IdsStay(fix, run, i);
    L.Holds(fix, run, i);
    L.Knows(run[i], a);
  }

  // ---- Election safety ----

  /** Over a whole run, at most one server is ever leader of a term. */
  lemma ElectionSafety(fix: Repairs, run: seq<State>, i: nat, j: nat, a: int, b: int)
    requires Run(fix, run) && FairElections(fix, |run[0].ids|)
    requires i < |run| && j < |run| && a in run[i].procs && b in run[j].procs
    requires run[i].procs[a].n.status.Leader? && run[j].procs[b].n.status.Leader?
    requires run[i].procs[a].n.term == run[j].procs[b].n.term
    ensures a == b
  {
    var fix' := RepairedRun(fix, run);
    if i <= j { ElectionsExtend(fix', run, i, j); } else { ElectionsExtend(fix', run, j, i); }
    KnownAt(fix', run, i, a);
    KnownAt(fix', run, j, b);
  }

  // ---- Log matching ----

  /** Two logs, at any two moments of a run, that hold the same term at an index are
      identical up to and including it. */
  lemma LogMatching(fix: Repairs, run: seq<State>, i: nat, j: nat, a: int, b: int, k: nat)
    requires Run(fix, run) && FairElections(fix, |run[0].ids|)
    requires i < |run| && j < |run| && a in run[i].procs && b in run[j].procs
    requires k < |run[i].procs[a].n.log| && k < |run[j].procs[b].n.log|
    requires run[i].procs[a].n.log[k].term == run[j].procs[b].n.log[k].term
    ensures run[i].procs[a].n.log[..k + 1] == run[j].procs[b].n.log[..k + 1]
  {
    var fix' := RepairedRun(fix, run);
    var top := if i <= j then j else i;
    LinedLater(fix', run, i, top, a);
    LinedLater(fix', run, j, top, b);
    L.LogMatching(run[top].hist, run[i].procs[a].n.log, run[j].procs[b].n.log, k);
  }

  lemma LinedLater(fix: Repairs, run: seq<State>, i: nat, top: nat, a: int)
    requires E.Sound(fix) && Run(fix, run) && i <= top < |run| && a in run[i].procs
    ensures L.Lined(run[top].hist, run[i].procs[a].n.log)
  {
    KnownAt(fix, run, i, a);
    LogsExtend(fix, run, i, top);
    L.LinedKept(run[i].hist, run[top].hist, run[i].procs[a].n.log);
  }

  // ---- Term order ----

  /** A server's term never goes down along a run. */
  lemma {:induction false} TermsRise(fix: Repairs, run: seq<State>, i: nat, j: nat, a: int)
    requires Run(fix, run) && fix.termOrder && i <= j < |run| && a in run[i].procs
    ensures a in run[j].procs && run[i].procs[a].n.term <= run[j].procs[a].n.term
    decreases j
  {
    if i < j {
      TermsRise(fix, run, i, j - 1, a);
      var st := StepAt(fix, run, j - 1);
      StepRaisesTerms(fix, run[j - 1], st, a);
    }
  }

  /** Along a log terms never go down, start at 1 and stay within the owner's term. */
  lemma TermOrder(fix: Repairs, run: seq<State>, i: nat, a: int)
    requires Run(fix, run) && FairElections(fix, |run[0].ids|) && i < |run| && a in run[i].procs
    ensures var n := run[i].procs[a].n;
            forall k, l :: 0 <= k <= l < |n.log| ==> 1 <= n.log[k].term <= n.log[l].term <= n.term
  {
    var fix' := RepairedRun(fix, run);
    KnownAt(fix', run, i, a);
    var s, n := run[i], run[i].procs[a].n;
    forall k, l | 0 <= k <= l < |n.log| ensures 1 <= n.log[k].term <= n.log[l].term <= n.term {
      L.PrefixLined(s.hist, n.log, l + 1);
      H.LastIsHighest(s, n.log[..l + 1], k);
    }
  }

  // ---- Acknowledgements ----

  /** While a server leads a term, an acknowledgement of `k` entries in a slot means that
      slot's server stores the leader's first `k` entries, for as long as it stays in the
      term: not only now, but at every later moment of the run. */
  lemma AckSoundness(fix: Repairs, run: seq<State>, i: nat, j: nat, a: int, slot: nat)
    requires Run(fix, run) && SoundAcks(fix, |run[0].ids|)
    requires i <= j < |run| && a in run[i].procs && run[i].procs[a].n.status.Leader?
    ensures HasSlot(run[i].procs[a].n, slot) ==>
              var n := run[i].procs[a].n;
              var v, k := n.members[slot], n.ack[slot];
              && v in run[j].procs && k <= |n.log|
              && (k > 0 && run[j].procs[v].n.term == n.term ==> n.log[..k] <= run[j].procs[v].n.log)
  {
    var fix' := RepairedRun(fix, run);
    KnownAt(fix', run, i, a);
    NoneHollow(fix', run, i);
    var n := run[i].procs[a].n;
    if HasSlot(n, slot) {
      KnownAt(fix', run, j, n.members[slot]);
      LogsExtend(fix', run, i, j);
      AckedStays(run[i].hist, run[j], run[j].procs[n.members[slot]], n, slot);
    }
  }

  lemma AckedStays(h: History, s: State, p: Proc, n: NodeState, slot: nat)
    requires L.SlotsOk(h, n) && slot < |n.members| && h.hollow == {} && n.term in h.tlog && n.log == h.tlog[n.term]
    requires L.Extends(h, s.hist) && L.Known(s, p) && p.n.me == n.members[slot]
    ensures n.ack[slot] <= |n.log|
    ensures n.ack[slot] > 0 && p.n.term == n.term ==> n.log[..n.ack[slot]] <= p.n.log
  {
    var k := n.ack[slot];
    assert L.Backed(h, n.members[slot], n.term, k);
    if k > 0 && p.n.term == n.term {
      L.AckedKnown(s, p, n.term, k);
      assert s.hist.tlog[n.term][..k] == n.log[..k];
    }
  }

  // ---- Commit safety ----

  /** What a server has committed, as a later state of the run has it on record. */
  lemma CommittedAt(fix: Repairs, run: seq<State>, i: nat, j: nat, a: int)
    requires Run(fix, run) && C.Sound(fix, |run[0].ids|) && i <= j < |run| && a in run[0].ids
    ensures C.Ledger(run[j]) && run[i].ids == run[j].ids == run[0].ids && a in run[i].procs
    ensures R.Replays(run[i].procs[a].n)
    ensures var n := run[i].procs[a].n; C.CommittedPrefix(run[j].hist, run[j].ids, n.log[..n.commitLength], n.term)
  {
    KnownAt(fix, run, i, a);
    IdsStay(fix, run, j);
    LedgerAt(fix, run, j);
    LogsExtend(fix, run, i, j);
    CommitsGoOn(fix, run, i);
    var n := run[i].procs[a].n;
    assert C.CommitOk(run[i].hist, run[i].ids, n) && R.ProcOk(run[i].procs[a]);
    C.PrefixKept(run[i].hist, run[j].hist, run[0].ids, n.log[..n.commitLength], n.term, n.term);
  }

  lemma LedgerAt(fix: Repairs, run: seq<State>, j: nat)
    requires Run(fix, run) && E.Sound(fix) && j < |run|
    ensures C.Ledger(run[j])
  {
    L.Holds(fix, run, j);
    C.Ledgered(run[j]);
  }

  /** What any server has ever committed is in the log of every leader of a later term, even
      of one that was elected before the commit; and, from then on, of its own term's leader. */
  lemma LeaderCompleteness(fix: Repairs, run: seq<State>, i: nat, j: nat, a: int, b: int)
    requires Run(fix, run) && SafeCommits(fix, |run[0].ids|)
    requires i < |run| && j < |run| && a in run[i].procs && b in run[j].procs
    requires run[j].procs[b].n.status.Leader?
    requires var t, u := run[i].procs[a].n.term, run[j].procs[b].n.term; t < u || (t == u && i <= j)
    ensures run[i].procs[a].n.commitLength <= |run[i].procs[a].n.log|
    ensures run[i].procs[a].n.log[..run[i].procs[a].n.commitLength] <= run[j].procs[b].n.log
  {
    var fix' := RepairedRun(fix, run);
    var top := if i <= j then j else i;
    IdsStay(fix, run, i);
    CommittedAt(fix', run, i, top, a);
    KnownAt(fix', run, j, b);
    LogsExtend(fix', run, j, top);
    var n, l := run[i].procs[a].n, run[j].procs[b].n;
    if i <= j {
      C.CommittedInLine(run[j], n.log[..n.commitLength], n.term, l.term);
    } else {
      LedgerAt(fix', run, j);
      C.LinesFacts(run[j], l.term);
      L.ElectionLogKept(run[j].hist, run[top].hist, run[j].ids, l.term);
      C.CommittedInElection(run[top], n.log[..n.commitLength], n.term, l.term);
    }
  }

  predicate AgreeOnCommitted(m: NodeState, n: NodeState) {
    && m.commitLength <= |m.log| && n.commitLength <= |n.log|
    && (forall k :: 0 <= k < m.commitLength && k < n.commitLength ==> m.log[k] == n.log[k])
    && (m.commitLength == n.commitLength ==> m.record == n.record)
  }

  /** Two servers, at any two moments of a run, agree on every entry both have committed,
      and with equally many committed entries their tables are equal. */
  lemma StateMachineSafety(fix: Repairs, run: seq<State>, i: nat, j: nat, a: int, b: int)
    requires Run(fix, run) && SafeCommits(fix, |run[0].ids|)
    requires i < |run| && j < |run| && a in run[0].ids && b in run[0].ids
    ensures a in run[i].procs && b in run[j].procs
    ensures AgreeOnCommitted(run[i].procs[a].n, run[j].procs[b].n)
  {
    var fix' := RepairedRun(fix, run);
    var top := if i <= j then j else i;
    CommittedAt(fix', run, i, top, a);
    CommittedAt(fix', run, j, top, b);
    var m, n := run[i].procs[a].n, run[j].procs[b].n;
    C.CommittedComparable(run[top], m.log[..m.commitLength], n.log[..n.commitLength], m.term, n.term);
    PrefixesAgree(m, n);
  }

  lemma PrefixesAgree(m: NodeState, n: NodeState)
    requires R.Replays(m) && R.Replays(n)
    requires m.log[..m.commitLength] <= n.log[..n.commitLength] || n.log[..n.commitLength] <= m.log[..m.commitLength]
    ensures AgreeOnCommitted(m, n)
  {
    var x, y := m.log[..m.commitLength], n.log[..n.commitLength];
    forall k | 0 <= k < m.commitLength && k < n.commitLength ensures m.log[k] == n.log[k] {
      assert x[k] == y[k];
    }
    if m.commitLength == n.commitLength { assert x == y; }
  }

  // ---- Nothing committed is removed ----

  /** No handler lowers a commit length; true of the code as written. */
  lemma StepKeepsCommitLength(fix: Repairs, s: State, st: Step, a: int)
    requires Enabled(fix, s, st) && a in s.procs
    ensures s.procs[a].n.commitLength <= After(fix, s, st).procs[a].n.commitLength
  {
    if st.ReceiveLog? && a == st.i {
      var n, slot := s.procs[a].n, s.procs[a].lock.slot;
      var n1 := n.(sent := n.sent[slot := st.logResp.ack], ack := n.ack[slot := st.logResp.ack]);
      ExecuteKeeps(n1, CommitPoint(fix, n1, |n1.log|));
    }
  }

  lemma {:induction false} CommitLengthGrows(fix: Repairs, run: seq<State>, i: nat, j: nat, a: int)
    requires Run(fix, run) && i <= j < |run| && a in run[i].procs
    ensures a in run[j].procs && run[i].procs[a].n.commitLength <= run[j].procs[a].n.commitLength
    decreases j
  {
    if i < j {
      CommitLengthGrows(fix, run, i, j - 1, a);
      var st := StepAt(fix, run, j - 1);
      StepKeepsCommitLength(fix, run[j - 1], st, a);
    }
  }

  /** Along a run a server's commit length never goes down, its committed entries stay in
      its log, and no request ever sent would make it cut below its commit length. */
  lemma NothingCommittedIsRemoved(fix: Repairs, run: seq<State>, i: nat, j: nat, a: int)
    requires Run(fix, run) && SafeCommits(fix, |run[0].ids|)
    requires i <= j < |run| && a in run[0].ids
    ensures a in run[i].procs && a in run[j].procs
    ensures var m, n := run[i].procs[a].n, run[j].procs[a].n;
            m.commitLength <= n.commitLength && m.commitLength <= |m.log| && m.log[..m.commitLength] <= n.log
    ensures forall r :: LogCall(a, r) in run[j].net ==> R.CutKeepsCommitted(fix, run[j].procs[a].n, r)
  {
    StateMachineSafety(fix, run, i, j, a, a);
    CommitLengthGrows(fix, run, i, j, a);
    CutsKeep(fix, run, j, a);
  }

  lemma CutsKeep(fix: Repairs, run: seq<State>, j: nat, a: int)
    requires Run(fix, run) && SafeCommits(fix, |run[0].ids|)
    requires j < |run| && a in run[j].procs
    ensures forall r :: LogCall(a, r) in run[j].net ==> R.CutKeepsCommitted(fix, run[j].procs[a].n, r)
  {
    var fix' := RepairedRun(fix, run);
    CommitsHold(fix', run, j);
    forall r | LogCall(a, r) in run[j].net ensures R.CutKeepsCommitted(fix, run[j].procs[a].n, r) {
      C.CutsNothingCommitted(fix', run[j], a, r);
    }
  }

  // ---- Replay ----

  /** In every reachable state a server's table is the replay of its committed entries, a
      read answers the last committed order, and no message ever sent and no slot of a
      leader can make a handler read past the end of a log. Needs no repair at all; with
      the truncation repaired it needs the others. */
  lemma ReplayRefinement(fix: Repairs, run: seq<State>, i: nat, a: int)
    requires Run(fix, run) && (fix.cutConflict ==> SafeCommits(fix, |run[0].ids|))
    requires i < |run| && a in run[0].ids
    ensures a in run[i].procs && R.Replays(run[i].procs[a].n)
    ensures forall c :: R.LastOrder(run[i].procs[a].n.log[..run[i].procs[a].n.commitLength], c,
            GetValue(run[i].procs[a].n, c))
    ensures forall m :: LogCall(a, m) in run[i].net ==> LogInBounds(fix, run[i].procs[a].n, m)
    ensures forall slot: nat :: run[i].procs[a].n.status.Leader? && slot < |run[i].procs[a].n.members| ==>
              SendInBounds(run[i].procs[a].n, slot)
  {
    ReplaysHold(fix, run, i);
    assert R.ProcOk(run[i].procs[a]);
    var n := run[i].procs[a].n;
    forall c ensures R.LastOrder(n.log[..n.commitLength], c, GetValue(n, c)) { R.ReadsCommitted(n, c); }
    forall m | LogCall(a, m) in run[i].net ensures LogInBounds(fix, n, m) {
      CutsAreSafe(fix, run, i, a, m);
      R.DeliveryInBounds(fix, run[i], a, m);
    }
    forall slot: nat | n.status.Leader? && slot < |n.members| ensures SendInBounds(n, slot) {
      R.SendingInBounds(run[i], a, slot);
    }
  }

  lemma CutsAreSafe(fix: Repairs, run: seq<State>, i: nat, a: int, m: LogRequest)
    requires Run(fix, run) && (fix.cutConflict ==> SafeCommits(fix, |run[0].ids|))
    requires i < |run| && a in run[0].ids && a in run[i].procs && LogCall(a, m) in run[i].net
    ensures R.CutKeepsCommitted(fix, run[i].procs[a].n, m)
  {
    if fix.cutConflict { NothingCommittedIsRemoved(fix, run, i, i, a); }
  }

  lemma {:induction false} ReplaysHold(fix: Repairs, run: seq<State>, i: nat)
    requires Run(fix, run) && (fix.cutConflict ==> SafeCommits(fix, |run[0].ids|)) && i < |run|
    ensures R.Inv(run[i]) && run[i].ids == run[0].ids
  {
    IdsStay(fix, run, i);
    if i == 0 {
      R.InitOk(run[0]);
    } else {
      ReplaysHold(fix, run, i - 1);
      ReplaysNext(fix, run, i - 1);
    }
  }

  lemma ReplaysNext(fix: Repairs, run: seq<State>, i: nat)
    requires Run(fix, run) && (fix.cutConflict ==> SafeCommits(fix, |run[0].ids|)) && i + 1 < |run| && R.Inv(run[i])
    ensures R.Inv(run[i + 1])
  {
    IdsStay(fix, run, i);
    var st := StepAt(fix, run, i);
    if st.DeliverLog? { CutsAreSafe(fix, run, i, st.i, st.log); }
    R.StepKeeps(fix, run[i], st);
  }
}
