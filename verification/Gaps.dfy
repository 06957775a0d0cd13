/** Where the code as written departs from the protocol it documents: for each departure
    the exact condition under which a single call still does what is documented. What each
    departure means for whole runs is in Exact.dfy. */
module Gaps {
  import opened RaftTypes
  import opened Handlers

  // ---- Exactly when a handler as written does what is documented ----

  /** A: the literal quorum is the strict majority except at half the cluster or just under. */
  lemma QuorumExactly(votes: nat, size: nat)
    ensures (WonElection(AsWritten, votes, size) <==> WonElection(Repaired, votes, size))
            <==> !(size - 1 <= 2 * votes <= size)
  {}

  /** B: an election starts with the candidate's own vote only, unless others were left over. */
  lemma FreshVotesExactly(n: NodeState)
    ensures StartElection(AsWritten, n) == StartElection(Repaired, n) <==> n.votes <= {n.me}
  {}

  /** C: a log request leaves the term where it was or raises it, unless it finds a follower
      of a later term. */
  lemma TermOrderExactly(n: NodeState, r: LogRequest)
    ensures MeetLeader(AsWritten, n, r).term >= n.term <==> !(n.status.Follower? && r.term < n.term)
    ensures MeetLeader(Repaired, n, r).term >= n.term
  {}

  /** D: with logs that match, an accepted entry is in its place afterwards, unless an entry
      of another term was there; the repaired cut always puts it there, and keeps all before. */
  lemma CutExactly(log: Log, r: LogRequest)
    requires CanLog(log, r) && 0 <= r.prefixLength && r.opTerm != -1
    requires r.prefixLength < |log| && log[r.prefixLength].term == r.opTerm ==> log[r.prefixLength] == RequestOp(r)
    ensures var p, written, repaired := r.prefixLength, AcceptLog(AsWritten, log, r), AcceptLog(Repaired, log, r);
            && p < |written| && p < |repaired|
            && (written[p] == RequestOp(r) <==> !Conflicts(log, r))
            && (written == repaired <==> !Conflicts(log, r))
            && repaired[..p + 1] == log[..p] + [RequestOp(r)]
  {
    if Conflicts(log, r) { assert AcceptLog(Repaired, log, r)[r.prefixLength] == RequestOp(r); }
  }

  /** E: the leader commits what the documented rule commits, unless the longest prefix a
      majority acknowledged ends in an entry of an earlier term. */
  lemma OwnTermExactly(n: NodeState)
    ensures var k := CommitPoint(AsWritten, n, |n.log|);
            CommitPoint(Repaired, n, |n.log|) == k <==> k == n.commitLength || n.log[k - 1].term == n.term
  {
    var k, j := CommitPoint(AsWritten, n, |n.log|), CommitPoint(Repaired, n, |n.log|);
    if k > n.commitLength && n.log[k - 1].term == n.term { assert Acked(Repaired, n, k); }
    if j > n.commitLength { assert Acked(AsWritten, n, j); }
  }
}
