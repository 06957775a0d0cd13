/** Which repairs are needed at which cluster size, exactly: for elections, for
    acknowledgements and for commits, over all runs. */
module Exact {
  import opened RaftTypes
  import opened Cluster
  import P = Campaigns
  import S = Safety
  import D = Duel
  import N = Names
  import V = SplitVotes
  import G = Regress
  import W = Seesaw
  import T = EarlierTerms
  import X = Conflicts
  import Q = Rivals

  // ---- Elections ----

  /** Two servers lead the same term, at two moments of a run. */
  ghost predicate Clash(run: seq<State>, i: nat, j: nat, c: int, d: int) {
    && c != d && i < |run| && j < |run| && c in run[i].procs && d in run[j].procs
    && run[i].procs[c].n.status.Leader? && run[j].procs[d].n.status.Leader?
    && run[i].procs[c].n.term == run[j].procs[d].n.term
  }

  ghost predicate OneLeaderPerTerm(run: seq<State>) {
    forall i: nat, j: nat, c: int, d: int :: !Clash(run, i, j, c, d)
  }

  /** No run has two leaders of one term, however far apart, if and only if the cluster has
      only one server, or terms only go up and, from four servers on, the quorum and the vote
      set are repaired. */
  lemma ElectionSafetyExactly(fix: Repairs, ids: set<int>)
    requires -1 !in ids
    ensures (forall run: seq<State> :: Run(fix, run) && run[0].ids == ids ==> OneLeaderPerTerm(run))
            <==> (|ids| <= 1 || S.FairElections(fix, |ids|))
  {
    if |ids| <= 1 || S.FairElections(fix, |ids|) {
      forall run: seq<State> | Run(fix, run) && run[0].ids == ids ensures OneLeaderPerTerm(run) {
        forall i: nat, j: nat, c: int, d: int ensures !Clash(run, i, j, c, d) {
          if Clash(run, i, j, c, d) { NoClash(fix, run, i, j, c, d); }
        }
      }
    } else {
      var run, i, j, c, d := ClashRun(fix, ids);
      assert !OneLeaderPerTerm(run);
    }
  }

  lemma NoClash(fix: Repairs, run: seq<State>, i: nat, j: nat, c: int, d: int)
    requires Run(fix, run) && (|run[0].ids| <= 1 || S.FairElections(fix, |run[0].ids|))
    ensures !Clash(run, i, j, c, d)
  {
    if Clash(run, i, j, c, d) {
      if |run[0].ids| <= 1 { D.StaysAlone(fix, run, i); } else { S.ElectionSafety(fix, run, i, j, c, d); }
    }
  }

  lemma ClashRun(fix: Repairs, ids: set<int>) returns (run: seq<State>, i: nat, j: nat, c: int, d: int)
    requires -1 !in ids && |ids| > 1 && !S.FairElections(fix, |ids|)
    ensures Run(fix, run) && run[0].ids == ids && Clash(run, i, j, c, d)
  {
    if |ids| == 2 {
      c, d := P.Pair(ids);
      run, i, j := InTurn(fix, c, d);
    } else {
      var s, t;
      s, c, d, t := Contest(fix, ids);
      run := RunTo(fix, s);
      i, j := |run| - 1, |run| - 1;
    }
  }

  /** Two servers, one after the other. */
  lemma InTurn(fix: Repairs, c: int, d: int) returns (run: seq<State>, i: nat, j: nat)
    requires !fix.termOrder && c != d && -1 !in {c, d}
    ensures Run(fix, run) && run[0].ids == {c, d} && Clash(run, i, j, c, d)
  {
    var s := W.LeadInTurn(fix, c, d);
    run := RunTo(fix, s);
    j := |run| - 1;
    i := N.SentByLeader(fix, run, j, d, W.MineCall(c));
  }

  lemma RunTo(fix: Repairs, s: State) returns (run: seq<State>)
    requires Reach(fix, s)
    ensures Run(fix, run) && run[|run| - 1] == s && run[0].ids == s.ids == s.procs.Keys
  {
    run :| Run(fix, run) && run[|run| - 1] == s;
    IdsStay(fix, run, |run| - 1);
  }

  /** Without fair elections, from three servers on, there are two leaders of one term at the
      same moment. */
  lemma Contest(fix: Repairs, ids: set<int>) returns (s: State, c: int, d: int, t: int)
    requires -1 !in ids && |ids| > 2 && !S.FairElections(fix, |ids|)
    ensures Reach(fix, s) && s.ids == ids && V.Contest(s, c, d, t)
  {
    t := 2;
    if |ids| > 3 && !fix.quorum {
      s, c, d := V.SplitQuorums(fix, ids);
      t := 1;
    } else if |ids| > 3 && !fix.freshVotes {
      s, c, d := V.StaleVotes(fix, ids);
    } else {
      s, c, d := G.TermRegressSplits(fix, ids);
    }
  }

  // ---- Leaders at the same moment ----

  ghost predicate OneLeaderAtOnce(s: State) {
    forall c, d :: !V.TwoLeaders(s, c, d)
  }

  /** No reachable state has two leaders of one term if and only if the cluster has at most two
      servers, or elections are fair. */
  lemma LeadersAtOnceExactly(fix: Repairs, ids: set<int>)
    requires -1 !in ids
    ensures (forall s :: Reach(fix, s) && s.ids == ids ==> OneLeaderAtOnce(s))
            <==> (|ids| <= 2 || S.FairElections(fix, |ids|))
  {
    if |ids| <= 2 || S.FairElections(fix, |ids|) {
      forall s | Reach(fix, s) && s.ids == ids ensures OneLeaderAtOnce(s) {
        forall c, d ensures !V.TwoLeaders(s, c, d) {
          if V.TwoLeaders(s, c, d) { Excluded(fix, s, c, d); }
        }
      }
    } else {
      var s, c, d, t := Contest(fix, ids);
      assert V.TwoLeaders(s, c, d);
    }
  }

  lemma Excluded(fix: Repairs, s: State, c: int, d: int)
    requires Reach(fix, s) && (|s.ids| <= 2 || S.FairElections(fix, |s.ids|))
    ensures !V.TwoLeaders(s, c, d)
  {
    var run := RunTo(fix, s);
    var i: nat := |run| - 1;
    if V.TwoLeaders(s, c, d) {
      if |s.ids| <= 2 { D.NeverBothLead(fix, run, i, c, d); } else { S.ElectionSafety(fix, run, i, i, c, d); }
    }
  }

  // ---- Acknowledgements ----

  ghost predicate NoHollowAck(s: State) {
    forall c: int, slot: nat :: !X.HollowAck(s, c, slot)
  }

  /** In every reachable state an acknowledgement in a leader's slot stands for stored entries
      if and only if the cluster has only one server, or elections are fair and the truncation
      is repaired or there are at most two servers. */
  lemma AcknowledgementsExactly(fix: Repairs, ids: set<int>)
    requires -1 !in ids
    ensures (forall s :: Reach(fix, s) && s.ids == ids ==> NoHollowAck(s))
            <==> (|ids| <= 1 || S.SoundAcks(fix, |ids|))
  {
    if |ids| <= 1 || S.SoundAcks(fix, |ids|) {
      forall s | Reach(fix, s) && s.ids == ids ensures NoHollowAck(s) {
        forall c: int, slot: nat ensures !X.HollowAck(s, c, slot) {
          if X.HollowAck(s, c, slot) { Backed(fix, s, c, slot); }
        }
      }
    } else {
      var s, c, slot := Unbacked(fix, ids);
      assert !NoHollowAck(s);
    }
  }

  lemma Backed(fix: Repairs, s: State, c: int, slot: nat)
    requires Reach(fix, s) && (|s.ids| <= 1 || S.SoundAcks(fix, |s.ids|))
    ensures !X.HollowAck(s, c, slot)
  {
    var run := RunTo(fix, s);
    var i: nat := |run| - 1;
    if X.HollowAck(s, c, slot) {
      if |s.ids| <= 1 { D.StaysAlone(fix, run, i); } else { S.AckSoundness(fix, run, i, i, c, slot); }
    }
  }

  lemma Unbacked(fix: Repairs, ids: set<int>) returns (s: State, c: int, slot: nat)
    requires -1 !in ids && |ids| > 1 && !S.SoundAcks(fix, |ids|)
    ensures Reach(fix, s) && s.ids == ids && X.HollowAck(s, c, slot)
  {
    if |ids| == 2 {
      var a, b := P.Pair(ids);
      s := W.Acknowledged(fix, a, b);
      c, slot := b, 0;
    } else if !S.FairElections(fix, |ids|) {
      var s0, b, t;
      s0, b, c, t := Contest(fix, ids);
      s, slot := Q.RivalsAcknowledged(fix, s0, b, c, t);
    } else {
      s, c, slot := X.ConflictAcknowledged(fix, ids);
    }
  }

  // ---- Commits ----

  ghost predicate AllAgree(s: State) {
    forall a, b :: a in s.procs && b in s.procs ==> S.AgreeOnCommitted(s.procs[a].n, s.procs[b].n)
  }

  /** All servers agree on what they have committed in every reachable state if and only if the
      cluster has only one server, or elections are fair and it has two, or the commit rule is
      repaired as well and so is the truncation or the cluster has exactly four servers. */
  lemma CommitSafetyExactly(fix: Repairs, ids: set<int>)
    requires -1 !in ids
    ensures (forall s :: Reach(fix, s) && s.ids == ids ==> AllAgree(s))
            <==> (|ids| <= 1 || S.SafeCommits(fix, |ids|))
  {
    if |ids| <= 1 || S.SafeCommits(fix, |ids|) {
      forall s | Reach(fix, s) && s.ids == ids ensures AllAgree(s) { Agree(fix, s); }
    } else {
      var s, a, c := Disagreement(fix, ids);
      assert !AllAgree(s);
    }
  }

  lemma Disagreement(fix: Repairs, ids: set<int>) returns (s: State, a: int, c: int)
    requires -1 !in ids && |ids| > 1 && !S.SafeCommits(fix, |ids|)
    ensures Reach(fix, s) && s.ids == ids && a in s.procs && c in s.procs
    ensures !S.AgreeOnCommitted(s.procs[a].n, s.procs[c].n)
  {
    if |ids| == 2 {
      a, c := P.Pair(ids);
      s := W.TurnsCommit(fix, a, c);
    } else if !S.FairElections(fix, |ids|) {
      var s0, t;
      s0, a, c, t := Contest(fix, ids);
      s := Q.RivalsCommit(fix, s0, a, c, t);
    } else if !fix.ownTerm {
      s, a, c := T.TwoCommits(fix, ids);
    } else {
      s, a, c := X.ConflictCommits(fix, ids);
    }
  }

  lemma Agree(fix: Repairs, s: State)
    requires Reach(fix, s) && (|s.ids| <= 1 || S.SafeCommits(fix, |s.ids|))
    ensures AllAgree(s)
  {
    var run := RunTo(fix, s);
    var i: nat := |run| - 1;
    forall a, b | a in s.procs && b in s.procs ensures S.AgreeOnCommitted(s.procs[a].n, s.procs[b].n) {
      if |s.ids| <= 1 {
        D.StaysAlone(fix, run, i);
        D.OnlyOne(s.ids, a, b);
      } else {
        S.StateMachineSafety(fix, run, i, i, a, b);
      }
    }
  }
}
