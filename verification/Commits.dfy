/** Leader completeness and commit safety: what a majority acknowledged in a leader's
    own term is in the log of every later leader, and servers commit nothing else. */
module Commits {
  import opened RaftTypes
  import opened Handlers
  import opened Cluster
  import E = Elections
  import L = Logs
  import H = Hollows
  import R = Replaying

  // ---- Committed prefixes ----

  predicate AllAcked(h: History, q: set<int>, t: int, k: nat) {
    forall v :: v in q ==> k <= Acc(h, v, t)
  }

  /** Enough servers store the first `k` entries of term `t`'s leader for good: half of
      them, if the last of the entries is the leader's own; or all, whatever its term is. */
  ghost predicate Lasting(h: History, ids: set<int>, t: int, k: nat)
    requires t in h.tlog && 0 < k <= |h.tlog[t]|
  {
    || (h.tlog[t][k - 1].term == t && exists q: set<int> :: E.Half(ids, q) && AllAcked(h, q, t, k))
    || AllAcked(h, ids, t, k)
  }

  /** The first `k` entries of term `t`'s leader are committed by that leader. */
  ghost predicate Committed(h: History, ids: set<int>, t: int, k: nat) {
    t in h.tlog && 0 < k <= |h.tlog[t]| && Lasting(h, ids, t, k)
  }

  /** `pre` is a committed sequence of entries, by a leader of a term up to `bound`. */
  ghost predicate CommittedPrefix(h: History, ids: set<int>, pre: Log, bound: int) {
    pre == [] || exists t: int, k: nat :: t <= bound && Committed(h, ids, t, k) && pre <= h.tlog[t][..k]
  }

  // ---- Leader completeness ----

  /** What leader completeness rests on. */
  ghost predicate Ledger(s: State) {
    L.Books(s) && forall v :: v in s.ids ==> L.VotesKeepAcked(s.hist, v)
  }

  lemma Ledgered(s: State)
    requires L.Inv(s)
    ensures Ledger(s)
  {
    L.Balanced(s);
    forall v | v in s.ids ensures L.VotesKeepAcked(s.hist, v) { L.Knows(s, v); }
  }

  lemma VoterKeepsCommitted(s: State, t: int, k: nat, v: int, u: int)
    requires Ledger(s) && t < u && 0 < k <= Acc(s.hist, v, t)
    requires Vote(v, u) in s.hist.ballots
    requires t in s.hist.tlog && k <= |s.hist.tlog[t]|
    requires forall w :: t < w < u && w in s.hist.lead ==> s.hist.tlog[t][..k] <= L.ElectionLog(s.hist, w)
    ensures s.hist.tlog[t][..k] <= s.hist.ballots[Vote(v, u)].log
  {
    var h := s.hist;
    assert v in s.ids && L.VotesKeepAcked(h, v);
    assert L.KeepsAcked(h, v, h.ballots[Vote(v, u)].log, u, u - 1);
    assert L.Retained(h, h.ballots[Vote(v, u)].log, t, k, u - 1);
  }

  /** A log is the prefix of its last entry's line. */
  lemma OnLastLine(h: History, log: Log)
    requires L.Lined(h, log) && log != []
    ensures LastTerm(log) in h.tlog && log <= h.tlog[LastTerm(log)]
  {
    assert L.OnLine(h, log, |log| - 1);
    assert log[..|log|] == log;
  }

  /** A log that ends in an entry of its last leader holds what that leader started with. */
  lemma LongerThanElected(s: State, log: Log)
    requires Ledger(s) && L.Lined(s.hist, log) && log != []
    ensures LastTerm(log) in s.hist.lead && L.ElectionLog(s.hist, LastTerm(log)) <= log
  {
    var t := LastTerm(log);
    OnLastLine(s.hist, log);
    L.BookTerms(s, t);
    assert L.LineOk(s.hist, t);
    var start, line := L.ElectionLog(s.hist, t), s.hist.tlog[t];
    assert forall k :: 0 <= k < |start| ==> line[k] == start[k] && line[k].term <= t - 1;
    assert line[|log| - 1].term == t;
  }

  /** A candidate as up to date as a log holding the committed entries holds them too. */
  lemma UpToDateHolds(s: State, t: int, k: nat, voter: Log, bid: Log, u: int)
    requires Ledger(s) && t < u
    requires t in s.hist.tlog && 0 < k <= |s.hist.tlog[t]| && s.hist.tlog[t][k - 1].term == t
    requires L.Lined(s.hist, voter) && L.Lined(s.hist, bid) && L.TermsUpTo(bid, u - 1)
    requires s.hist.tlog[t][..k] <= voter && UpToDate(LastTerm(bid), |bid|, voter)
    requires forall w :: t < w < u && w in s.hist.lead ==> s.hist.tlog[t][..k] <= L.ElectionLog(s.hist, w)
    ensures s.hist.tlog[t][..k] <= bid
  {
    var h, pre := s.hist, s.hist.tlog[t][..k];
    OnLastLine(h, voter);
    var last := LastTerm(voter);
    L.BookTerms(s, last);
    assert voter[k - 1] == pre[k - 1] && voter[k - 1] == h.tlog[last][k - 1];
    assert t <= last;
    L.BookTerms(s, t);
    OnLastLine(h, bid);
    var w := LastTerm(bid);
    if w == last { assert voter <= bid; } else { LongerThanElected(s, bid); }
  }

  lemma {:induction false} LeaderCompleteness(s: State, t: int, k: nat, u: int)
    requires Ledger(s) && Committed(s.hist, s.ids, t, k) && t < u && u in s.hist.lead
    ensures s.hist.tlog[t][..k] <= L.ElectionLog(s.hist, u)
    decreases u - t
  {
    var h, ids := s.hist, s.ids;
    forall w | t < w < u && w in h.lead ensures h.tlog[t][..k] <= L.ElectionLog(h, w) {
      LeaderCompleteness(s, t, k, w);
    }
    var c := h.lead[u];
    assert E.Elected(h, ids, u, c) && E.VotedFor(h, c, u, c);
    if AllAcked(h, ids, t, k) {
      VoterKeepsCommitted(s, t, k, c, u);
    } else {
      var q :| E.Half(ids, q) && AllAcked(h, q, t, k);
      var p :| E.Majority(ids, p) && E.AllVoted(h, p, u, c);
      var v := E.HalfMeets(ids, p, q);
      assert E.VotedFor(h, v, u, c);
      VoterBound(s, t, k, v, u);
    }
  }

  /** A leader that got the vote of a server that stores the entries has them, too. */
  lemma VoterBound(s: State, t: int, k: nat, v: int, u: int)
    requires Ledger(s) && t in s.hist.tlog && 0 < k <= |s.hist.tlog[t]| && s.hist.tlog[t][k - 1].term == t
    requires t < u && u in s.hist.lead && E.VotedFor(s.hist, v, u, s.hist.lead[u]) && k <= Acc(s.hist, v, t)
    requires forall w :: t < w < u && w in s.hist.lead ==> s.hist.tlog[t][..k] <= L.ElectionLog(s.hist, w)
    ensures s.hist.tlog[t][..k] <= L.ElectionLog(s.hist, u)
  {
    var h, c := s.hist, s.hist.lead[u];
    VoterKeepsCommitted(s, t, k, v, u);
    var b, bid := h.ballots[Vote(v, u)], E.BidLog(h, c, u);
    assert E.BallotOk(h, s.ids, u, b);
    assert L.BallotLogOk(h, v, u, b) && L.BallotLogOk(h, c, u, h.ballots[Vote(c, u)]);
    UpToDateHolds(s, t, k, b.log, bid, u);
  }

  lemma LinesFacts(s: State, u: int)
    requires Ledger(s) && u in s.hist.tlog
    ensures u in s.hist.lead && L.ElectionLog(s.hist, u) <= s.hist.tlog[u]
  {}

  /** A committed sequence is in the log every leader of a later term was elected with. */
  lemma CommittedInElection(s: State, pre: Log, bound: int, u: int)
    requires Ledger(s) && CommittedPrefix(s.hist, s.ids, pre, bound) && bound < u && u in s.hist.lead
    ensures pre <= L.ElectionLog(s.hist, u)
  {
    if pre != [] {
      var t: int, k: nat :| t <= bound && Committed(s.hist, s.ids, t, k) && pre <= s.hist.tlog[t][..k];
      LeaderCompleteness(s, t, k, u);
    }
  }

  /** What a leader committed is in the log of every leader from its term on. */
  lemma CommittedLater(s: State, t: int, k: nat, u: int)
    requires Ledger(s) && Committed(s.hist, s.ids, t, k) && t <= u && u in s.hist.tlog
    ensures s.hist.tlog[t][..k] <= s.hist.tlog[u]
  {
    if t < u {
      LinesFacts(s, u);
      LeaderCompleteness(s, t, k, u);
    }
  }

  lemma CommittedInLine(s: State, pre: Log, bound: int, u: int)
    requires Ledger(s) && CommittedPrefix(s.hist, s.ids, pre, bound) && bound <= u && u in s.hist.tlog
    ensures pre <= s.hist.tlog[u]
  {
    if pre != [] {
      var t: int, k: nat :| t <= bound && Committed(s.hist, s.ids, t, k) && pre <= s.hist.tlog[t][..k];
      CommittedLater(s, t, k, u);
    }
  }

  lemma CommittedComparable(s: State, a: Log, b: Log, x: int, y: int)
    requires Ledger(s) && CommittedPrefix(s.hist, s.ids, a, x) && CommittedPrefix(s.hist, s.ids, b, y)
    ensures a <= b || b <= a
  {
    if a != [] && b != [] {
      var t: int, k: nat :| t <= x && Committed(s.hist, s.ids, t, k) && a <= s.hist.tlog[t][..k];
      var u: int, l: nat :| u <= y && Committed(s.hist, s.ids, u, l) && b <= s.hist.tlog[u][..l];
      var top := if t <= u then u else t;
      CommittedInLine(s, a, t, top);
      CommittedInLine(s, b, u, top);
    }
  }

  // ---- The invariant ----

  ghost predicate CommitOk(h: History, ids: set<int>, n: NodeState) {
    n.commitLength <= |n.log| && CommittedPrefix(h, ids, n.log[..n.commitLength], n.term)
  }

  ghost predicate PacketOk(h: History, ids: set<int>, p: Packet) {
    match p
    case LogCall(_, m) =>
      && m.term in h.tlog && 0 <= m.commitLength <= |h.tlog[m.term]|
      && CommittedPrefix(h, ids, h.tlog[m.term][..m.commitLength], m.term)
    case _ => true
  }

  ghost predicate CommitsOk(s: State) {
    && s.procs.Keys == s.ids
    && (forall i :: i in s.ids ==> CommitOk(s.hist, s.ids, s.procs[i].n))
    && (forall p :: p in s.net ==> PacketOk(s.hist, s.ids, p))
  }

  ghost predicate Inv(s: State) {
    L.Inv(s) && H.Inv(s) && R.Inv(s) && CommitsOk(s)
  }

  // ---- What a growing history keeps ----

  lemma CommittedKept(h: History, h': History, ids: set<int>, t: int, k: nat)
    requires Committed(h, ids, t, k) && L.Extends(h, h')
    ensures Committed(h', ids, t, k) && h'.tlog[t][..k] == h.tlog[t][..k]
  {
    assert h'.tlog[t][k - 1] == h.tlog[t][k - 1];
    if AllAcked(h, ids, t, k) {
      assert AllAcked(h', ids, t, k);
    } else {
      var q :| E.Half(ids, q) && AllAcked(h, q, t, k);
      assert AllAcked(h', q, t, k);
    }
  }

  lemma PrefixKept(h: History, h': History, ids: set<int>, pre: Log, bound: int, bound': int)
    requires CommittedPrefix(h, ids, pre, bound) && L.Extends(h, h') && bound <= bound'
    ensures CommittedPrefix(h', ids, pre, bound')
  {
    if pre != [] {
      var t: int, k: nat :| t <= bound && Committed(h, ids, t, k) && pre <= h.tlog[t][..k];
      CommittedKept(h, h', ids, t, k);
    }
  }

  lemma ShorterPrefix(h: History, ids: set<int>, pre: Log, k: nat, bound: int)
    requires CommittedPrefix(h, ids, pre, bound) && k <= |pre|
    ensures CommittedPrefix(h, ids, pre[..k], bound)
  {}

  lemma PacketKept(h: History, h': History, i: int, ids: set<int>, p: Packet)
    requires PacketOk(h, ids, p) && L.Grows(h, h', i)
    ensures PacketOk(h', ids, p)
  {
    if p.LogCall? {
      var m := p.log;
      assert h'.tlog[m.term][..m.commitLength] == h.tlog[m.term][..m.commitLength];
      PrefixKept(h, h', ids, h.tlog[m.term][..m.commitLength], m.term, m.term);
    }
  }

  lemma Frame(s: State, i: int, p: Proc, sent: set<Packet>, h: History)
    requires CommitsOk(s) && i in s.ids && L.Grows(s.hist, h, i)
    requires CommitOk(h, s.ids, p.n)
    requires forall k :: k in sent ==> PacketOk(h, s.ids, k)
    ensures CommitsOk(Apply(s, i, p, sent, h))
  {
    var s' := Apply(s, i, p, sent, h);
    forall j | j in s.ids ensures CommitOk(h, s.ids, s'.procs[j].n) {
      if j != i {
        var n := s.procs[j].n;
        assert CommitOk(s.hist, s.ids, n);
        PrefixKept(s.hist, h, s.ids, n.log[..n.commitLength], n.term, n.term);
      }
    }
    forall k | k in s.net ensures PacketOk(h, s.ids, k) {
      PacketKept(s.hist, h, i, s.ids, k);
    }
  }

  // ---- A follower ----

  /** What is known of a follower and a request on its way to it. */
  ghost predicate Delivery(s: State, n: NodeState, m: LogRequest) {
    && L.LinesOk(s.hist) && L.Lined(s.hist, n.log) && L.LogRequestOk(s.hist, m)
    && R.Replays(n) && R.RequestInRange(m)
    && CommitOk(s.hist, s.ids, n) && PacketOk(s.hist, s.ids, LogCall(n.me, m))
  }

  lemma DeliveryFacts(s: State, i: int, m: LogRequest)
    requires Inv(s) && i in s.ids && LogCall(i, m) in s.net
    ensures s.procs[i].n.me == i && Delivery(s, s.procs[i].n, m)
  {}

  /** A conflict is never below the commit length. */
  lemma CutsNothingCommitted(fix: Repairs, s: State, i: int, m: LogRequest)
    requires E.Sound(fix) && Inv(s) && i in s.ids && LogCall(i, m) in s.net
    ensures R.CutKeepsCommitted(fix, s.procs[i].n, m)
  {
    var n := s.procs[i].n;
    DeliveryFacts(s, i, m);
    if Accepts(fix, n, m) {
      Ledgered(s);
      CommittedInLine(s, n.log[..n.commitLength], n.term, m.term);
    }
  }

  lemma FollowerCommits(fix: Repairs, s: State, n: NodeState, m: LogRequest, h: History)
    requires E.Sound(fix) && Delivery(s, n, m) && LogInBounds(fix, n, m)
    requires R.CutKeepsCommitted(fix, n, m) && L.Grows(s.hist, h, n.me)
    ensures CommitOk(h, s.ids, TakeLog(fix, n, m))
  {
    var n' := TakeLog(fix, n, m);
    R.TakeLogReplays(fix, n, m);
    if CommitsOne(fix, n, m) {
      OneMoreCommitted(fix, s, n, m);
      PrefixKept(s.hist, h, s.ids, n'.log[..n'.commitLength], m.term, n'.term);
    } else {
      assert n'.log[..n.commitLength] == n.log[..n.commitLength];
      PrefixKept(s.hist, h, s.ids, n.log[..n.commitLength], n.term, n'.term);
    }
  }

  /** The entry a follower executes is one its leader has committed. */
  lemma OneMoreCommitted(fix: Repairs, s: State, n: NodeState, m: LogRequest)
    requires E.Sound(fix) && Delivery(s, n, m) && LogInBounds(fix, n, m) && CommitsOne(fix, n, m)
    ensures CommittedPrefix(s.hist, s.ids, AcceptLog(fix, n.log, m)[..n.commitLength + 1], m.term)
  {
    var log', line, c := AcceptLog(fix, n.log, m), s.hist.tlog[m.term], n.commitLength + 1;
    StaysInLine(fix, s, n, m);
    assert log'[..c] == line[..m.commitLength][..c];
    ShorterPrefix(s.hist, s.ids, line[..m.commitLength], c, m.term);
  }

  /** A log that a request extends is within the log of the leader that sent it. */
  lemma StaysInLine(fix: Repairs, s: State, n: NodeState, m: LogRequest)
    requires E.Sound(fix) && Delivery(s, n, m) && CommitsOne(fix, n, m)
    ensures AcceptLog(fix, n.log, m) <= s.hist.tlog[m.term]
  {
    if m.opTerm != -1 {
      L.AcceptedPrefix(fix, s.hist, n.log, m);
    } else {
      L.PrefixMatches(s.hist, n.log, m);
    }
  }

  // ---- A leader ----

  /** The servers whose slots acknowledged at least `k` entries. */
  function Ackers(members: seq<int>, ack: seq<int>, k: int): set<int>
    requires |members| == |ack|
  {
    if ack == [] then {}
    else
      var j := |ack| - 1;
      Ackers(members[..j], ack[..j], k) + if ack[j] >= k then {members[j]} else {}
  }

  lemma {:induction false} AckersCount(members: seq<int>, ack: seq<int>, k: int)
    requires |members| == |ack|
    requires forall i, j :: 0 <= i < j < |members| ==> members[i] != members[j]
    ensures |Ackers(members, ack, k)| == CountAck(ack, k)
    ensures forall v :: v in Ackers(members, ack, k) ==> exists j :: 0 <= j < |ack| && members[j] == v && ack[j] >= k
  {
    if ack != [] {
      var j := |ack| - 1;
      AckersCount(members[..j], ack[..j], k);
      forall v | v in Ackers(members, ack, k)
        ensures exists i :: 0 <= i < |ack| && members[i] == v && ack[i] >= k
      {
        if v in Ackers(members[..j], ack[..j], k) {
          var i :| 0 <= i < j && members[..j][i] == v && ack[..j][i] >= k;
          assert members[i] == v && ack[i] >= k;
        }
      }
    }
  }

  /** The commit rule is safe with conflicts cut and either the rule repaired or at most two
      servers. It is also safe in a cluster of four with the rule repaired alone. */
  predicate Sound(fix: Repairs, size: nat) {
    E.Sound(fix) && ((fix.cutConflict && (fix.ownTerm || size <= 2)) || (fix.ownTerm && size == 4))
  }

  /** Of a majority of four, at least two belong to another majority. */
  lemma TwoInCommon(ids: set<int>, p: set<int>, q: set<int>)
    requires E.Majority(ids, p) && E.Majority(ids, q) && |ids| == 4
    ensures E.Half(ids, p * q)
  {
    E.SubsetSize(p + q, ids);
  }

  /** An acknowledgement on record for `k` entries or more, by a server that voted for the
      leader or of entries that are surely stored. */
  lemma AckStands(s: State, v: int, t: int, k: nat, a: int)
    requires H.Inv(s) && E.Shape(s) && v in s.ids && t in s.hist.tlog && t in s.hist.lead && 0 < k <= a
             && k <= |s.hist.tlog[t]|
    requires L.Backed(s.hist, v, t, a)
    requires s.hist.hollow == {} || (s.hist.tlog[t][k - 1].term == t && E.VotedFor(s.hist, v, t, s.hist.lead[t]))
    ensures k <= Acc(s.hist, v, t)
  {
    if a > Acc(s.hist, v, t) { assert H.Ok(s.hist, s.procs[v].n); }
  }

  /** The servers whose acknowledgements stand. */
  lemma AckersStand(s: State, n: NodeState, k: nat, q: set<int>)
    requires H.Inv(s) && E.Shape(s) && Leading(s, n) && 0 < k <= |n.log|
    requires q <= Ackers(n.members, n.ack, k)
    requires s.hist.hollow == {} || (n.log[k - 1].term == n.term && E.AllVoted(s.hist, q, n.term, s.hist.lead[n.term]))
    ensures AllAcked(s.hist, q, n.term, k)
  {
    AckersCount(n.members, n.ack, k);
    forall v | v in q ensures k <= Acc(s.hist, v, n.term) {
      var j :| 0 <= j < |n.ack| && n.members[j] == v && n.ack[j] >= k;
      assert s.hist.hollow == {} || E.VotedFor(s.hist, v, n.term, s.hist.lead[n.term]);
      AckStands(s, v, n.term, k, n.ack[j]);
    }
  }

  /** A leader as its slots and the books show it. */
  ghost predicate Leading(s: State, n: NodeState) {
    && n.me in s.ids && Members(s.ids, n.me, n.members) && n.term in s.hist.tlog && n.term in s.hist.lead
    && n.log == s.hist.tlog[n.term] && L.SlotsOk(s.hist, n)
  }

  lemma AckersMajority(s: State, n: NodeState, k: int)
    requires Leading(s, n) && CountAck(n.ack, k) * 2 > |n.members|
    ensures E.Majority(s.ids, Ackers(n.members, n.ack, k))
  {
    AckersCount(n.members, n.ack, k);
    var q := Ackers(n.members, n.ack, k);
    assert forall v :: v in q ==> v in s.ids;
  }

  /** What a leader's CommitLog reaches is committed. */
  lemma ReachesCommitted(fix: Repairs, s: State, n: NodeState, k: nat)
    requires Sound(fix, |s.ids|) && H.None(fix, s) && H.Inv(s) && E.Shape(s) && E.LeadersOk(s.hist, s.ids)
    requires Leading(s, n) && 0 < k <= |n.log| && Acked(fix, n, k)
    ensures Committed(s.hist, s.ids, n.term, k)
  {
    var q := Ackers(n.members, n.ack, k);
    AckersMajority(s, n, k);
    if fix.cutConflict {
      AckersStand(s, n, k, q);
      if !fix.ownTerm { E.Everyone(s.ids, q); } else { assert E.Half(s.ids, q); }
    } else {
      assert E.Elected(s.hist, s.ids, n.term, s.hist.lead[n.term]);
      var p :| E.Majority(s.ids, p) && E.AllVoted(s.hist, p, n.term, s.hist.lead[n.term]);
      TwoInCommon(s.ids, p, q);
      AckersStand(s, n, k, p * q);
    }
  }

  lemma LeaderCommits(fix: Repairs, s: State, n: NodeState)
    requires Sound(fix, |s.ids|) && H.None(fix, s) && H.Inv(s) && E.Shape(s) && E.LeadersOk(s.hist, s.ids)
    requires Leading(s, n) && CommitOk(s.hist, s.ids, n)
    ensures CommitOk(s.hist, s.ids, CommitLog(fix, n))
  {
    var k := CommitPoint(fix, n, |n.log|);
    ExecuteKeeps(n, k);
    if k > n.commitLength {
      ReachesCommitted(fix, s, n, k);
      assert n.log[..k] <= s.hist.tlog[n.term][..k];
    }
  }

  lemma SuccessCommits(fix: Repairs, s: State, p: Proc, r: LogResponse)
    requires Sound(fix, |s.ids|) && H.None(fix, s) && H.Inv(s) && E.Shape(s)
    requires L.Known(s, p) && CommitOk(s.hist, s.ids, p.n) && p.lock.AwaitLog?
    requires L.PacketOk(s.hist, LogReply(p.n.members[p.lock.slot], p.lock.logReq, r))
    requires p.lock.logReq.opTerm != -1 && r.term == p.n.term && r.success
    ensures CommitOk(s.hist, s.ids, TakeLogResponse(fix, p.n, p.lock.slot, r))
  {
    var slot := p.lock.slot;
    LeaderCommits(fix, s, p.n.(sent := p.n.sent[slot := r.ack], ack := p.n.ack[slot := r.ack]));
  }

  lemma ReplyCommits(fix: Repairs, s: State, p: Proc, r: LogResponse)
    requires Sound(fix, |s.ids|) && H.None(fix, s) && H.Inv(s) && E.Shape(s)
    requires L.Known(s, p) && CommitOk(s.hist, s.ids, p.n) && p.lock.AwaitLog?
    requires L.PacketOk(s.hist, LogReply(p.n.members[p.lock.slot], p.lock.logReq, r))
    ensures CommitOk(s.hist, s.ids, Replied(fix, p.n, p.lock.slot, p.lock.logReq, r).n)
  {
    var slot := p.lock.slot;
    if p.lock.logReq.opTerm != -1 {
      if r.term == p.n.term && r.success {
        SuccessCommits(fix, s, p, r);
      } else if r.term > p.n.term {
        PrefixKept(s.hist, s.hist, s.ids, p.n.log[..p.n.commitLength], p.n.term, r.term);
      }
    }
  }

  // ---- The steps ----

  lemma FollowerCommitsOk(fix: Repairs, s: State, i: int, m: LogRequest)
    requires E.Sound(fix) && Inv(s) && CanDeliverLog(fix, s, i, m)
    requires L.Grows(s.hist, Accepted(fix, s.hist, s.procs[i].n, m), i)
    ensures CommitOk(Accepted(fix, s.hist, s.procs[i].n, m), s.ids, TakeLog(fix, s.procs[i].n, m))
  {
    DeliveryFacts(s, i, m);
    CutsNothingCommitted(fix, s, i, m);
    FollowerCommits(fix, s, s.procs[i].n, m, Accepted(fix, s.hist, s.procs[i].n, m));
  }

  lemma DeliverLogKeeps(fix: Repairs, s: State, i: int, m: LogRequest)
    requires CommitsOk(s) && i in s.ids && CanDeliverLog(fix, s, i, m)
    requires L.Grows(s.hist, Accepted(fix, s.hist, s.procs[i].n, m), i)
    requires CommitOk(Accepted(fix, s.hist, s.procs[i].n, m), s.ids, TakeLog(fix, s.procs[i].n, m))
    ensures CommitsOk(DoDeliverLog(fix, s, i, m))
  {
    var n, h := s.procs[i].n, Accepted(fix, s.hist, s.procs[i].n, m);
    Frame(s, i, Proc(TakeLog(fix, n, m), Free), {LogReply(i, m, AnswerLog(fix, n, m))}, h);
  }

  lemma ReceiveLogKeeps(fix: Repairs, s: State, i: int, r: LogResponse)
    requires Sound(fix, |s.ids|) && H.None(fix, s) && Inv(s) && CanReceiveLog(s, i, r)
    ensures CommitsOk(DoReceiveLog(fix, s, i, r))
  {
    var p := s.procs[i];
    assert L.PacketOk(s.hist, LogReply(p.n.members[p.lock.slot], p.lock.logReq, r));
    L.Knows(s, i);
    ReplyCommits(fix, s, p, r);
    L.SameHistory(s.hist, i);
    Frame(s, i, Replied(fix, p.n, p.lock.slot, p.lock.logReq, r), {}, s.hist);
  }

  /** The commit length a leader sends along is committed. */
  lemma SendLogKeeps(s: State, i: int, slot: nat)
    requires Inv(s) && CanSendLog(s, i, slot)
    ensures CommitsOk(DoSendLog(s, i, slot))
  {
    var n, to := s.procs[i].n, s.procs[i].n.members[slot];
    var m := MakeLogRequest(n, slot);
    L.Knows(s, i);
    assert CommitOk(s.hist, s.ids, n);
    L.SameHistory(s.hist, i);
    Dials(s, to, LogCall(to, m));
    Frame(Dial(s, to, LogCall(to, m)), i, Proc(n, AwaitLog(slot, m)), {LogCall(to, m)}, s.hist);
  }

  lemma Dials(s: State, to: int, call: Packet)
    requires CommitsOk(s)
    ensures CommitsOk(Dial(s, to, call))
  {}

  lemma SendVoteKeeps(s: State, i: int, to: int)
    requires CommitsOk(s) && CanSendVote(s, i, to)
    ensures CommitsOk(DoSendVote(s, i, to))
  {
    var n := s.procs[i].n;
    var m := MakeVoteRequest(n);
    L.SameHistory(s.hist, i);
    Dials(s, to, VoteCall(to, m));
    OtherKeeps(Dial(s, to, VoteCall(to, m)), i, Proc(n, AwaitVote(to, m)), {VoteCall(to, m)}, s.hist);
  }

  /** The steps that move no commit length and send no log request. */
  lemma OtherKeeps(s: State, i: int, p: Proc, sent: set<Packet>, h: History)
    requires CommitsOk(s) && i in s.ids && L.Grows(s.hist, h, i)
    requires var n := s.procs[i].n;
             n.log <= p.n.log && p.n.commitLength == n.commitLength && n.term <= p.n.term
    requires forall k :: k in sent ==> !k.LogCall?
    ensures CommitsOk(Apply(s, i, p, sent, h))
  {
    var n := s.procs[i].n;
    assert CommitOk(s.hist, s.ids, n);
    assert p.n.log[..n.commitLength] == n.log[..n.commitLength];
    PrefixKept(s.hist, h, s.ids, n.log[..n.commitLength], n.term, p.n.term);
    Frame(s, i, p, sent, h);
  }

  /** The same in terms of steps. */
  lemma OtherStepKeeps(fix: Repairs, s: State, st: Step)
    requires CommitsOk(s) && Enabled(fix, s, st)
    requires L.Grows(s.hist, After(fix, s, st).hist, st.i)
    requires !st.DeliverLog? && !st.ReceiveLog? && !st.SendLog? && !st.SendVote?
    ensures CommitsOk(After(fix, s, st))
  {
    var n, s' := s.procs[st.i].n, After(fix, s, st);
    var sent := if st.DeliverVote? then {VoteReply(st.i, st.vote, AnswerVote(n, st.vote))} else {};
    assert s' == Apply(s, st.i, s'.procs[st.i], sent, s'.hist);
    OtherKeeps(s, st.i, s'.procs[st.i], sent, s'.hist);
  }

  lemma DeliveryKeeps(fix: Repairs, s: State, i: int, m: LogRequest)
    requires Sound(fix, |s.ids|) && Inv(s) && CanDeliverLog(fix, s, i, m)
    requires L.Grows(s.hist, DoDeliverLog(fix, s, i, m).hist, i)
    ensures CommitsOk(DoDeliverLog(fix, s, i, m))
  {
    FollowerCommitsOk(fix, s, i, m);
    DeliverLogKeeps(fix, s, i, m);
  }

  lemma CommitStep(fix: Repairs, s: State, st: Step)
    requires Sound(fix, |s.ids|) && H.None(fix, s) && Inv(s) && Enabled(fix, s, st)
    requires L.Grows(s.hist, After(fix, s, st).hist, st.i)
    ensures CommitsOk(After(fix, s, st))
  {
    match st
    case DeliverLog(i, m) => DeliveryKeeps(fix, s, i, m);
    case ReceiveLog(i, r) => ReceiveLogKeeps(fix, s, i, r);
    case SendLog(i, slot) => SendLogKeeps(s, i, slot);
    case SendVote(i, to) => SendVoteKeeps(s, i, to);
    case _ => OtherStepKeeps(fix, s, st);
  }

  lemma StepKeeps(fix: Repairs, s: State, st: Step)
    requires Sound(fix, |s.ids|) && H.None(fix, s) && Inv(s) && Enabled(fix, s, st)
    ensures Inv(After(fix, s, st)) && L.Grows(s.hist, After(fix, s, st).hist, st.i)
  {
    L.StepGrows(fix, s, st);
    CommitStep(fix, s, st);
    L.StepKeeps(fix, s, st);
    H.StepKeeps(fix, s, st);
    if st.DeliverLog? { CutsNothingCommitted(fix, s, st.i, st.log); }
    R.StepKeeps(fix, s, st);
  }

  lemma InitOk(s: State)
    requires Init(s)
    ensures Inv(s)
  {}
}
