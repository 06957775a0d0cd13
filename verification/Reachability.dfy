/** Every reachable cluster state meets what the catch-up of ReplicateLog asks of a leader
    and its followers. */
module Reachability {
  import opened RaftTypes
  import opened Handlers
  import opened Cluster
  import E = Elections
  import L = Logs
  import R = Replaying
  import C = Commits
  import CU = CatchUp
  import S = Safety
  import W = TwoServers

  /** In every reachable state a leader can build a request for every slot, and every server
      can be brought up to date by it: whoever joins the term has a matching log, and what it
      has committed is in the leader's log. Needs the repaired truncation, except with at most
      two servers. */
  lemma LeaderCanServe(fix: Repairs, run: seq<State>, i: nat, a: int, b: int, slot: nat)
    requires Run(fix, run) && S.SafeCommits(fix, |run[0].ids|) && S.SoundAcks(fix, |run[0].ids|)
    requires i < |run| && a in run[i].procs && b in run[i].procs
    requires run[i].procs[a].n.status.Leader? && slot < |run[i].procs[a].n.members|
    ensures CU.Leads(run[i].procs[a].n, slot)
    ensures CU.Follows(fix, run[i].procs[a].n.log, run[i].procs[a].n.term, run[i].procs[b].n)
  {
    var fix' := S.RepairedRun(fix, run);
    S.KnownAt(fix', run, i, a);
    S.KnownAt(fix', run, i, b);
    S.CommittedAt(fix', run, i, i, b);
    S.CommitsGoOn(fix', run, i);
    R.SendingInBounds(run[i], a, slot);
    assert R.ProcOk(run[i].procs[a]);
    Matches(run[i], run[i].procs[a], run[i].procs[b]);
    var l, f := run[i].procs[a].n, run[i].procs[b].n;
    if f.term <= l.term {
      C.CommittedInLine(run[i], f.log[..f.commitLength], f.term, l.term);
      if |run[0].ids| <= 2 { Holds(fix', run, i, a, b); }
    }
  }

  lemma Matches(s: State, p: Proc, q: Proc)
    requires L.Known(s, p) && L.Known(s, q)
    ensures CU.Matching(p.n.log, q.n.log)
  {
    forall k | 0 <= k < |p.n.log| && k < |q.n.log| && p.n.log[k].term == q.n.log[k].term
      ensures p.n.log[..k + 1] == q.n.log[..k + 1]
    {
      L.LogMatching(s.hist, p.n.log, q.n.log, k);
    }
  }

  /** Of two servers the leader has all that the other has. */
  lemma Holds(fix: Repairs, run: seq<State>, i: nat, a: int, b: int)
    requires Run(fix, run) && E.Sound(fix) && |run[0].ids| <= 2 && i < |run| && a in run[i].procs && b in run[i].procs
    requires run[i].procs[a].n.status.Leader? && run[i].procs[b].n.term <= run[i].procs[a].n.term
    ensures run[i].procs[b].n.log <= run[i].procs[a].n.log
  {
    S.KnownAt(fix, run, i, a);
    S.KnownAt(fix, run, i, b);
    L.Holds(fix, run, i);
    W.Holds(fix, run, i);
    W.TopIs(run[i], b, run[i].procs[a].n.term);
    assert W.Within(run[i].hist, run[i].procs[b].n);
  }
}
