/** One whole call of RequestVote, and when it makes its caller leader. */
module Canvassing {
  import opened RaftTypes
  import opened Handlers

  /** The candidate after asking its neighbours in turn; a missing reply is no vote. */
  function Canvass(fix: Repairs, n: NodeState, replies: seq<Option<VoteResponse>>): NodeState
    decreases |replies|
  {
    if replies == [] then n
    else if replies[0].None? then Canvass(fix, n, replies[1..])
    else
      var n' := TakeVote(fix, n, replies[0].value);
      if ElectionOver(fix, n, replies[0].value) then n' else Canvass(fix, n', replies[1..])
  }

  predicate Grants(term: int, reply: Option<VoteResponse>) {
    reply.Some? && reply.value.term == term && reply.value.voted
  }

  predicate Outdates(term: int, reply: Option<VoteResponse>) {
    reply.Some? && reply.value.term > term
  }

  /** The voters among the replies. */
  function Voters(term: int, replies: seq<Option<VoteResponse>>): set<int> {
    set j | 0 <= j < |replies| && Grants(term, replies[j]) :: replies[j].value.id
  }

  predicate NoneOutdates(term: int, replies: seq<Option<VoteResponse>>) {
    forall k :: 0 <= k < |replies| ==> !Outdates(term, replies[k])
  }

  /** Reply `j` is the one that wins. */
  predicate WinsAt(fix: Repairs, n: NodeState, replies: seq<Option<VoteResponse>>, j: nat) {
    && j < |replies| && Grants(n.term, replies[j])
    && WonElection(fix, |n.votes + Voters(n.term, replies[..j + 1])|, |n.members|)
    && NoneOutdates(n.term, replies[..j])
  }

  lemma VotersCons(term: int, replies: seq<Option<VoteResponse>>)
    requires replies != []
    ensures Voters(term, replies) ==
            (if Grants(term, replies[0]) then {replies[0].value.id} else {}) + Voters(term, replies[1..])
  {}

  /** Winning after the first reply is winning among the others, with its vote counted. */
  lemma WinsLater(fix: Repairs, n: NodeState, n': NodeState, replies: seq<Option<VoteResponse>>, j: nat)
    requires replies != [] && !Outdates(n.term, replies[0])
    requires n'.term == n.term && n'.members == n.members
    requires n'.votes == n.votes + if Grants(n.term, replies[0]) then {replies[0].value.id} else {}
    ensures WinsAt(fix, n, replies, j + 1) <==> WinsAt(fix, n', replies[1..], j)
  {
    if j + 1 < |replies| {
      var tail := replies[1..];
      assert tail[..j + 1] == replies[..j + 2][1..];
      VotersCons(n.term, replies[..j + 2]);
      assert n.votes + Voters(n.term, replies[..j + 2]) == n'.votes + Voters(n.term, tail[..j + 1]);
      NoneOutdatesCons(n.term, replies[..j + 1]);
      assert replies[..j + 1][1..] == tail[..j];
    }
  }

  lemma NoneOutdatesCons(term: int, replies: seq<Option<VoteResponse>>)
    requires replies != []
    ensures NoneOutdates(term, replies) <==> !Outdates(term, replies[0]) && NoneOutdates(term, replies[1..])
  {}

  /** RequestVote makes its caller leader exactly when some vote completes a winning set
      before any reply shows a later term. */
  lemma {:induction false} WinsExactly(fix: Repairs, n: NodeState, replies: seq<Option<VoteResponse>>)
    requires !n.status.Leader?
    ensures Canvass(fix, n, replies).status.Leader? <==> exists j: nat :: WinsAt(fix, n, replies, j)
    decreases |replies|
  {
    if replies != [] {
      var n' := if replies[0].Some? then TakeVote(fix, n, replies[0].value) else n;
      FirstReply(fix, n, replies);
      if !Outdates(n.term, replies[0]) && !WinsAt(fix, n, replies, 0) {
        WinsExactly(fix, n', replies[1..]);
        if exists j: nat :: WinsAt(fix, n, replies, j) {
          var j: nat :| WinsAt(fix, n, replies, j);
          WinsLater(fix, n, n', replies, j - 1);
        }
        if exists j: nat :: WinsAt(fix, n', replies[1..], j) {
          var j: nat :| WinsAt(fix, n', replies[1..], j);
          WinsLater(fix, n, n', replies, j);
        }
      }
    }
  }

  lemma FirstReply(fix: Repairs, n: NodeState, replies: seq<Option<VoteResponse>>)
    requires replies != [] && !n.status.Leader?
    ensures Outdates(n.term, replies[0]) ==>
              && !Canvass(fix, n, replies).status.Leader?
              && forall j: nat :: !WinsAt(fix, n, replies, j)
    ensures WinsAt(fix, n, replies, 0) ==> Canvass(fix, n, replies).status.Leader?
    ensures !Outdates(n.term, replies[0]) && !WinsAt(fix, n, replies, 0) ==>
              var n' := if replies[0].Some? then TakeVote(fix, n, replies[0].value) else n;
              && Canvass(fix, n, replies) == Canvass(fix, n', replies[1..])
              && n'.term == n.term && n'.members == n.members && !n'.status.Leader?
              && n'.votes == n.votes + if Grants(n.term, replies[0]) then {replies[0].value.id} else {}
  {
    VotersCons(n.term, replies[..1]);
    assert replies[..1][1..] == [];
    assert Voters(n.term, []) == {};
    if Grants(n.term, replies[0]) {
      assert n.votes + Voters(n.term, replies[..1]) == n.votes + {replies[0].value.id};
    }
  }

  // ---- All that a call can come to ----

  ghost predicate NoneWins(fix: Repairs, n: NodeState, replies: seq<Option<VoteResponse>>, k: nat) {
    forall j: nat :: j < k ==> !WinsAt(fix, n, replies, j)
  }

  /** Reply `j` is the first that wins. */
  ghost predicate FirstWin(fix: Repairs, n: NodeState, replies: seq<Option<VoteResponse>>, j: nat) {
    WinsAt(fix, n, replies, j) && NoneWins(fix, n, replies, j)
  }

  /** Reply `j` is the first of a later term, and nothing has won before it. */
  ghost predicate OutdatedAt(fix: Repairs, n: NodeState, replies: seq<Option<VoteResponse>>, j: nat) {
    && j < |replies| && Outdates(n.term, replies[j]) && NoneOutdates(n.term, replies[..j])
    && NoneWins(fix, n, replies, j)
  }

  /** The leader that a win at reply `j` makes of the candidate. */
  function Elected(n: NodeState, replies: seq<Option<VoteResponse>>, j: nat): NodeState
    requires j < |replies|
  {
    n.(votes := n.votes + Voters(n.term, replies[..j + 1]), status := Leader, leaderId := n.me,
       sent := seq(|n.members|, _ => |n.log|), ack := seq(|n.members|, _ => 0))
  }

  /** The follower that a reply of a later term makes of it. */
  function Unseated(n: NodeState, term: int): NodeState {
    n.(term := term, status := Follower, votedFor := -1, votes := {})
  }

  ghost predicate LeadsAs(fix: Repairs, n: NodeState, replies: seq<Option<VoteResponse>>, n': NodeState) {
    exists j: nat :: FirstWin(fix, n, replies, j) && n' == Elected(n, replies, j)
  }

  ghost predicate FollowsAs(fix: Repairs, n: NodeState, replies: seq<Option<VoteResponse>>, n': NodeState) {
    exists j: nat :: OutdatedAt(fix, n, replies, j) && n' == Unseated(n, replies[j].value.term)
  }

  ghost predicate RunsOn(fix: Repairs, n: NodeState, replies: seq<Option<VoteResponse>>, n': NodeState) {
    && NoneOutdates(n.term, replies) && NoneWins(fix, n, replies, |replies|)
    && n' == n.(votes := n.votes + Voters(n.term, replies))
  }

  /** The three ways in which a call that starts from candidate `n` ends in `n'`. */
  ghost predicate Outcome(fix: Repairs, n: NodeState, replies: seq<Option<VoteResponse>>, n': NodeState) {
    LeadsAs(fix, n, replies, n') || FollowsAs(fix, n, replies, n') || RunsOn(fix, n, replies, n')
  }

  /** A call ends as leader by its first winning vote, as follower of the first later term that
      a reply shows before, or else as the candidate it was with all the votes it got. */
  lemma {:induction false} CanvassOutcome(fix: Repairs, n: NodeState, replies: seq<Option<VoteResponse>>)
    ensures Outcome(fix, n, replies, Canvass(fix, n, replies))
    decreases |replies|
  {
    if replies == [] {
      assert n.votes + Voters(n.term, []) == n.votes;
    } else if Outdates(n.term, replies[0]) {
      assert OutdatedAt(fix, n, replies, 0);
    } else {
      var n1 := n.(votes := n.votes + if Grants(n.term, replies[0]) then {replies[0].value.id} else {});
      FirstVote(fix, n, n1, replies);
      if WinsAt(fix, n, replies, 0) {
        assert FirstWin(fix, n, replies, 0);
      } else {
        CanvassOutcome(fix, n1, replies[1..]);
        Later(fix, n, n1, replies, Canvass(fix, n1, replies[1..]));
      }
    }
  }

  /** A whole election of server `n`: it votes for itself in the next term, with its own vote
      beside those it still has, or alone. */
  lemma ElectionOutcome(fix: Repairs, n: NodeState, replies: seq<Option<VoteResponse>>)
    ensures var own := if fix.freshVotes then {n.me} else n.votes + {n.me};
            Outcome(fix, n.(votedFor := n.me, term := n.term + 1, votes := own), replies,
                    Canvass(fix, StartElection(fix, n), replies))
  {
    CanvassOutcome(fix, StartElection(fix, n), replies);
  }

  /** What the first reply does if it shows no later term. */
  lemma FirstVote(fix: Repairs, n: NodeState, n1: NodeState, replies: seq<Option<VoteResponse>>)
    requires replies != [] && !Outdates(n.term, replies[0])
    requires n1 == n.(votes := n.votes + if Grants(n.term, replies[0]) then {replies[0].value.id} else {})
    ensures if WinsAt(fix, n, replies, 0) then Canvass(fix, n, replies) == Elected(n, replies, 0)
            else Canvass(fix, n, replies) == Canvass(fix, n1, replies[1..])
  {
    VotersCons(n.term, replies[..1]);
    assert replies[..1][1..] == [] && Voters(n.term, []) == {};
    assert n1.votes == n.votes + Voters(n.term, replies[..1]);
    assert !Grants(n.term, replies[0]) ==> n1.votes == n.votes && n1 == n;
  }

  /** The outcome after the first reply is the outcome of the whole call. */
  lemma Later(fix: Repairs, n: NodeState, n1: NodeState, replies: seq<Option<VoteResponse>>, n': NodeState)
    requires replies != [] && !Outdates(n.term, replies[0]) && !WinsAt(fix, n, replies, 0)
    requires n1 == n.(votes := n.votes + if Grants(n.term, replies[0]) then {replies[0].value.id} else {})
    requires Outcome(fix, n1, replies[1..], n')
    ensures Outcome(fix, n, replies, n')
  {
    if LeadsAs(fix, n1, replies[1..], n') {
      var j: nat :| FirstWin(fix, n1, replies[1..], j) && n' == Elected(n1, replies[1..], j);
      WinLater(fix, n, n1, replies, j);
      assert LeadsAs(fix, n, replies, n');
    } else if FollowsAs(fix, n1, replies[1..], n') {
      var j: nat :| OutdatedAt(fix, n1, replies[1..], j) && n' == Unseated(n1, replies[1..][j].value.term);
      UnseatLater(fix, n, n1, replies, j);
      assert FollowsAs(fix, n, replies, n');
    } else {
      RestLater(fix, n, n1, replies, n');
    }
  }

  lemma RestLater(fix: Repairs, n: NodeState, n1: NodeState, replies: seq<Option<VoteResponse>>, n': NodeState)
    requires replies != [] && !Outdates(n.term, replies[0]) && !WinsAt(fix, n, replies, 0)
    requires n1 == n.(votes := n.votes + if Grants(n.term, replies[0]) then {replies[0].value.id} else {})
    requires RunsOn(fix, n1, replies[1..], n')
    ensures RunsOn(fix, n, replies, n')
  {
    var k := |replies| - 1;
    NoneWinsLater(fix, n, n1, replies, k);
    NoneOutdatesCons(n.term, replies);
    VotesLater(n, n1, replies, k);
    assert replies[1..][..k] == replies[1..] && replies[..k + 1] == replies;
  }

  lemma WinLater(fix: Repairs, n: NodeState, n1: NodeState, replies: seq<Option<VoteResponse>>, j: nat)
    requires replies != [] && !Outdates(n.term, replies[0]) && !WinsAt(fix, n, replies, 0)
    requires n1 == n.(votes := n.votes + if Grants(n.term, replies[0]) then {replies[0].value.id} else {})
    requires FirstWin(fix, n1, replies[1..], j)
    ensures FirstWin(fix, n, replies, j + 1) && Elected(n1, replies[1..], j) == Elected(n, replies, j + 1)
  {
    NoneWinsLater(fix, n, n1, replies, j);
    WinsLater(fix, n, n1, replies, j);
    VotesLater(n, n1, replies, j + 1);
  }

  lemma UnseatLater(fix: Repairs, n: NodeState, n1: NodeState, replies: seq<Option<VoteResponse>>, j: nat)
    requires replies != [] && !Outdates(n.term, replies[0]) && !WinsAt(fix, n, replies, 0)
    requires n1 == n.(votes := n.votes + if Grants(n.term, replies[0]) then {replies[0].value.id} else {})
    requires OutdatedAt(fix, n1, replies[1..], j)
    ensures OutdatedAt(fix, n, replies, j + 1)
  {
    NoneWinsLater(fix, n, n1, replies, j);
    NoneOutdatesCons(n.term, replies[..j + 1]);
    assert replies[..j + 1][1..] == replies[1..][..j];
  }

  lemma NoneWinsLater(fix: Repairs, n: NodeState, n1: NodeState, replies: seq<Option<VoteResponse>>, k: nat)
    requires replies != [] && !Outdates(n.term, replies[0]) && !WinsAt(fix, n, replies, 0)
    requires n1 == n.(votes := n.votes + if Grants(n.term, replies[0]) then {replies[0].value.id} else {})
    requires NoneWins(fix, n1, replies[1..], k)
    ensures NoneWins(fix, n, replies, k + 1)
  {
    forall j: nat | 0 < j < k + 1 ensures !WinsAt(fix, n, replies, j) { WinsLater(fix, n, n1, replies, j - 1); }
  }

  lemma VotesLater(n: NodeState, n1: NodeState, replies: seq<Option<VoteResponse>>, k: nat)
    requires replies != [] && k < |replies|
    requires n1 == n.(votes := n.votes + if Grants(n.term, replies[0]) then {replies[0].value.id} else {})
    ensures n1.votes + Voters(n.term, replies[1..][..k]) == n.votes + Voters(n.term, replies[..k + 1])
  {
    VotersCons(n.term, replies[..k + 1]);
    assert replies[..k + 1][1..] == replies[1..][..k];
  }

  lemma PointIs(fix: Repairs, n: NodeState, k: nat)
    requires k == 0 || (n.commitLength <= k <= |n.log| && Acked(fix, n, k))
    requires forall j :: n.commitLength <= j <= |n.log| && j > k ==> !Acked(fix, n, j)
    ensures CommitPoint(fix, n, |n.log|) == if k == 0 then n.commitLength else k
  {}
}
