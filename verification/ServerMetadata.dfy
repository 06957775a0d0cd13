/** The state of one server and its handlers, updated in place. Every method is proved
    to take its fields to the state that the functions in Handlers.dfy give. */
module Server {
  import opened RaftTypes
  import H = Handlers
  import C = Canvassing
  import CU = CatchUp
  import K = Courses
  import R = Replaying

  class ServerMetadata {
    const factoryId: int
    const members: seq<int>
    const repairs: Repairs

    var leaderId: int
    var currentTerm: int
    var status: Status
    var commitLength: nat
    var logSize: int
    var votedFor: int
    var voteReceived: set<int>
    var smrLog: seq<MapOp>
    var customerRecord: map<int, int>
    // Both arrays are empty until the server first becomes leader.
    var sentLength: array<int>
    var ackLength: array<int>

    ghost predicate Valid()
      reads this
    {
      logSize == |smrLog| && sentLength != ackLength
    }

    ghost function State(): NodeState
      reads this, sentLength, ackLength
      requires Valid()
    {
      NodeState(factoryId, members, currentTerm, status, leaderId, votedFor, voteReceived,
                smrLog, commitLength, customerRecord, sentLength[..], ackLength[..])
    }

    constructor (id: int, neighbours: seq<int>, fix: Repairs)
      ensures Valid() && fresh(sentLength) && fresh(ackLength)
      ensures members == neighbours + [id] && repairs == fix
      ensures State() == NodeState(id, neighbours + [id], 0, Follower, -1, -1, {}, [], 0, map[], [], [])
    {
      factoryId, members, repairs := id, neighbours + [id], fix;
      leaderId, currentTerm, status, commitLength := -1, 0, Follower, 0;
      logSize, votedFor, voteReceived, smrLog, customerRecord := 0, -1, {}, [], map[];
      sentLength, ackLength := new int[0], new int[0];
    }

    // ---- Reading ----

    method GetTermAtIdx(idx: int) returns (term: int)
      requires idx < |smrLog|
      ensures term == TermAt(smrLog, idx) == if idx < 0 then -1 else smrLog[idx].term
    {
      if idx < 0 { return -1; }
      return smrLog[idx].term;
    }

    method GetLastTerm() returns (lastTerm: int)
      requires Valid()
      ensures lastTerm == LastTerm(smrLog)
      ensures lastTerm == if smrLog == [] then 0 else smrLog[|smrLog| - 1].term
    {
      lastTerm := 0;
      if logSize != 0 { lastTerm := smrLog[logSize - 1].term; }
    }

    method GetPrefixTerm(prefixLength: int) returns (prefixTerm: int)
      requires prefixLength <= |smrLog|
      ensures prefixTerm == PrefixTerm(smrLog, prefixLength)
      ensures prefixTerm == if prefixLength <= 0 then 0 else smrLog[prefixLength - 1].term
    {
      prefixTerm := 0;
      if prefixLength > 0 { prefixTerm := GetTermAtIdx(prefixLength - 1); }
    }

    method GetValue(customer: int) returns (order: int)
      requires Valid()
      ensures order == H.GetValue(State(), customer)
      ensures order == if customer in customerRecord then customerRecord[customer] else -1
    {
      if customer in customerRecord { return customerRecord[customer]; }
      return -1;
    }

    // ---- Elections ----

    method WonElection() returns (won: bool)
      ensures won == H.WonElection(repairs, |voteReceived|, |members|)
      ensures won <==> if repairs.quorum then |voteReceived| * 2 > |members| else |voteReceived| * 2 >= |members| - 1
    {
      won := if repairs.quorum then |voteReceived| * 2 > |members| else |voteReceived| * 2 >= |members| - 1;
    }

    method InitLeader()
      requires Valid()
      modifies this
      ensures Valid() && fresh(sentLength) && fresh(ackLength)
      ensures State() == H.InitLeader(old(State()))
      ensures status.Leader? && leaderId == factoryId && sentLength.Length == ackLength.Length == |members|
      ensures forall j :: 0 <= j < |members| ==> sentLength[j] == logSize && ackLength[j] == 0
      ensures unchanged(this`currentTerm, this`commitLength, this`logSize, this`votedFor, this`voteReceived)
      ensures unchanged(this`smrLog, this`customerRecord)
    {
      var size := |members|;
      sentLength := new int[size];
      ackLength := new int[size];
      for i := 0 to size
        invariant Valid() && fresh(sentLength) && fresh(ackLength)
        invariant sentLength.Length == ackLength.Length == size
        invariant forall j :: 0 <= j < i ==> sentLength[j] == logSize && ackLength[j] == 0
        invariant unchanged(this`leaderId, this`currentTerm, this`status, this`commitLength, this`logSize)
        invariant unchanged(this`votedFor, this`voteReceived, this`smrLog, this`customerRecord)
        modifies sentLength, ackLength
      {
        sentLength[i] := logSize;
        ackLength[i] := 0;
      }
      leaderId := factoryId;
      status := Leader;
      assert sentLength[..] == H.InitLeader(old(State())).sent;
      assert ackLength[..] == H.InitLeader(old(State())).ack;
    }

    method Demote(term: int)
      requires Valid()
      modifies this`currentTerm, this`status, this`votedFor, this`voteReceived
      ensures Valid() && State() == H.Demote(old(State()), term)
      ensures currentTerm == term && status.Follower? && votedFor == -1 && voteReceived == {}
    {
      currentTerm := term;
      status := Follower;
      votedFor := -1;
      voteReceived := {};
    }

    /** `replies` are the responses of the connected neighbours in the order they are
        asked; a failed receive is `None`. */
    method RequestVote(replies: seq<Option<VoteResponse>>)
      requires Valid()
      modifies this
      ensures Valid()
      ensures State() == C.Canvass(repairs, H.StartElection(repairs, old(State())), replies)
      ensures var n := old(State());
              var own := if repairs.freshVotes then {n.me} else n.votes + {n.me};
              C.Outcome(repairs, n.(votedFor := n.me, term := n.term + 1, votes := own), replies, State())
      ensures status.Leader? && !old(status).Leader? ==> fresh(sentLength) && fresh(ackLength)
    {
      votedFor := factoryId;
      voteReceived := if repairs.freshVotes then {factoryId} else voteReceived + {factoryId};
      currentTerm := currentTerm + 1;
      AskAll(replies);
      C.ElectionOutcome(repairs, old(State()), replies);
    }

    /** The loop over the neighbours. */
    method AskAll(replies: seq<Option<VoteResponse>>)
      requires Valid()
      modifies this
      ensures Valid() && State() == C.Canvass(repairs, old(State()), replies)
      ensures status.Leader? && !old(status).Leader? ==> fresh(sentLength) && fresh(ackLength)
    {
      var i := 0;
      while i < |replies|
        invariant 0 <= i <= |replies| && Valid()
        invariant C.Canvass(repairs, old(State()), replies) == C.Canvass(repairs, State(), replies[i..])
        invariant sentLength == old(sentLength) && ackLength == old(ackLength) && status == old(status)
      {
        if replies[i].Some? {
          var res := replies[i].value;
          if currentTerm == res.term && res.voted {
            voteReceived := voteReceived + {res.id};
            var won := WonElection();
            if won {
              InitLeader();
              return;
            }
          } else if res.term > currentTerm {
            Demote(res.term);
            return;
          }
        }
        i := i + 1;
      }
    }

    /** The request that SendRequestVote puts on the wire. */
    method NextVoteRequest() returns (m: VoteRequest)
      requires Valid()
      ensures m == H.MakeVoteRequest(State())
      ensures m.id == factoryId && m.term == currentTerm && m.logSize == |smrLog|
      ensures m.lastTerm == if smrLog == [] then 0 else smrLog[|smrLog| - 1].term
    {
      var lastTerm := GetLastTerm();
      m := VoteRequest(factoryId, currentTerm, logSize, lastTerm);
    }

    /** The voter takes over a later term and its candidate. The reply carries the voter's number
        and the later of the two terms, and a vote only for whom it has voted for in that term. */
    method GetVoteResponse(msg: VoteRequest) returns (res: VoteResponse)
      requires Valid()
      modifies this`currentTerm, this`status, this`votedFor, this`voteReceived
      ensures Valid()
      ensures State() == H.MeetCandidate(old(State()), msg)
      ensures res == H.AnswerVote(old(State()), msg)
      ensures res.id == factoryId && res.term == currentTerm
      ensures currentTerm == if msg.term > old(currentTerm) then msg.term else old(currentTerm)
      ensures msg.term > old(currentTerm) ==> status.Follower? && votedFor == msg.id && voteReceived == {}
      ensures msg.term <= old(currentTerm) ==> unchanged(this`status, this`votedFor, this`voteReceived)
      ensures res.voted <==>
              && msg.term >= old(currentTerm) && (msg.term > old(currentTerm) || old(votedFor) == msg.id)
              && var lastTerm := if smrLog == [] then 0 else smrLog[|smrLog| - 1].term;
                 msg.lastTerm > lastTerm || (msg.lastTerm == lastTerm && msg.logSize >= |smrLog|)
    {
      var lastTerm := GetLastTerm();
      if msg.term > currentTerm {
        currentTerm := msg.term;
        status := Follower;
        voteReceived := {};
        votedFor := msg.id;
      }
      var valid := msg.lastTerm > lastTerm || (msg.lastTerm == lastTerm && msg.logSize >= logSize);
      if valid && msg.term == currentTerm && votedFor == msg.id {
        res := VoteResponse(factoryId, currentTerm, true);
      } else {
        res := VoteResponse(factoryId, currentTerm, false);
      }
    }

    // ---- The log and the table ----

    method AppendLog(opTerm: int, customer: int, order: int)
      requires Valid()
      modifies this`smrLog, this`logSize
      ensures Valid() && State() == H.AppendLog(old(State()), MapOp(opTerm, customer, order))
      ensures smrLog == old(smrLog) + [MapOp(opTerm, customer, order)]
    {
      smrLog := smrLog + [MapOp(opTerm, customer, order)];
      logSize := logSize + 1;
    }

    method ExecuteLog(idx: int)
      requires Valid() && 0 <= idx < |smrLog|
      modifies this`customerRecord, this`commitLength
      ensures Valid() && commitLength == old(commitLength) + 1
      ensures customerRecord == old(customerRecord)[smrLog[idx].customer := smrLog[idx].order]
    {
      var op := smrLog[idx];
      customerRecord := customerRecord[op.customer := op.order];
      commitLength := commitLength + 1;
    }

    /** The counting of acknowledgements for one length. */
    method CountAcks(i: int) returns (count: nat)
      ensures count == H.CountAck(ackLength[..], i)
    {
      count := 0;
      for j := 0 to ackLength.Length
        invariant count == H.CountAck(ackLength[..j], i)
      {
        assert ackLength[..j + 1][..j] == ackLength[..j];
        if ackLength[j] >= i { count := count + 1; }
      }
      assert ackLength[..ackLength.Length] == ackLength[..];
    }

    /** Commits up to the largest length in reach that a strict majority acknowledged. */
    method CommitLog()
      requires Valid() && ackLength.Length == |members|
      modifies this`customerRecord, this`commitLength
      ensures Valid() && State() == H.CommitLog(repairs, old(State()))
    {
      var commitUntil := 0;
      ghost var n := State();
      if commitLength <= logSize {
        for i := commitLength to logSize + 1
          invariant Valid() && State() == n
          invariant commitUntil == 0 || (n.commitLength <= commitUntil < i && H.Acked(repairs, n, commitUntil))
          invariant forall k :: n.commitLength <= k < i && k > commitUntil ==> !H.Acked(repairs, n, k)
        {
          var count := CountAcks(i);
          var term := GetTermAtIdx(i - 1);
          if count * 2 > |members| && (repairs.ownTerm ==> term == currentTerm) {
            commitUntil := i;
          }
        }
      }
      C.PointIs(repairs, n, commitUntil);
      if commitUntil == 0 { return; }
      for i := commitLength to commitUntil
        invariant Valid() && commitLength == i
        invariant H.ExecuteTo(n, commitUntil) == H.ExecuteTo(State(), commitUntil)
        invariant State() == n.(record := customerRecord, commitLength := i)
      {
        ExecuteLog(i);
      }
      commitLength := commitUntil;
    }

    // ---- ReplicateLog: the follower's side ----

    /** The repaired truncation: drops everything from `prefixLength` on. */
    method DropUncommittedLog(prefixLength: int)
      requires Valid() && 0 <= prefixLength <= |smrLog|
      modifies this`smrLog, this`logSize
      ensures Valid() && smrLog == old(smrLog)[..prefixLength]
    {
      while logSize > prefixLength
        invariant Valid() && prefixLength <= |smrLog| <= |old(smrLog)| && smrLog == old(smrLog)[..|smrLog|]
      {
        smrLog := smrLog[..|smrLog| - 1];
        logSize := logSize - 1;
      }
    }

    /** A request of no earlier term, or any request to a follower as written, makes this server a
        follower of its sender in its term. The reply carries this server's number and term, and
        accepts a request whose term is that and whose prefix the log ends or goes on with. Only
        an accepted entry is logged, and an entry is executed only where the log ends. */
    method GetLogResponse(req: LogRequest) returns (res: LogResponse)
      requires Valid() && H.LogInBounds(repairs, State(), req)
      modifies this`leaderId, this`currentTerm, this`status, this`votedFor, this`voteReceived
      modifies this`smrLog, this`logSize, this`commitLength, this`customerRecord
      ensures Valid()
      ensures State() == H.TakeLog(repairs, old(State()), req)
      ensures res == H.AnswerLog(repairs, old(State()), req)
      ensures res.followerId == factoryId && res.term == currentTerm
      ensures var joins := req.term >= old(currentTerm) || (old(status).Follower? && !repairs.termOrder);
              if joins
              then currentTerm == req.term && leaderId == req.leaderId && status.Follower? && votedFor == -1
                   && voteReceived == {}
              else currentTerm == old(currentTerm) && leaderId == old(leaderId) && status == old(status)
                   && votedFor == old(votedFor) && voteReceived == old(voteReceived)
      ensures res.success <==>
              && currentTerm == req.term && |old(smrLog)| >= req.prefixLength
              && (req.prefixLength <= 0 || old(smrLog)[req.prefixLength - 1].term == req.prefixTerm)
              && (req.prefixLength < 0 ==> req.prefixTerm == -1)
      ensures res.ack == if res.success then req.prefixLength + 1 else 0
      ensures var kept := H.CutConflict(repairs, old(smrLog), req);
              smrLog == (if res.success && req.opTerm != -1 && |kept| <= req.prefixLength
                         then kept + [MapOp(req.opTerm, req.opCustomer, req.opOrder)]
                         else if res.success then kept else old(smrLog))
      ensures var one := res.success && |H.CutConflict(repairs, old(smrLog), req)| <= req.prefixLength
                         && req.commitLength > old(commitLength);
              && commitLength == old(commitLength) + (if one then 1 else 0)
              && (one ==> old(commitLength) < |smrLog|)
              && customerRecord == if one then var op := smrLog[old(commitLength)];
                                               old(customerRecord)[op.customer := op.order]
                                   else old(customerRecord)
    {
      H.LogAnswered(repairs, State(), req);
      if req.term >= currentTerm || (status.Follower? && !repairs.termOrder) {
        currentTerm := req.term;
        status := Follower;
        leaderId := req.leaderId;
        voteReceived := {};
        votedFor := -1;
      }
      var canLog := logSize >= req.prefixLength;
      if canLog && req.prefixLength != 0 {
        var term := GetTermAtIdx(req.prefixLength - 1);
        canLog := term == req.prefixTerm;
      }
      if currentTerm == req.term && canLog {
        LogAndCommit(req);
        res := LogResponse(factoryId, currentTerm, req.prefixLength + 1, true);
      } else {
        res := LogResponse(factoryId, currentTerm, 0, false);
      }
    }

    /** The part of GetLogResponse that logs the entry and commits a single one. As written
        the truncation is never reached: it asks for a log longer than the prefix where the
        log is known not to be. */
    method LogAndCommit(req: LogRequest)
      requires Valid() && H.CanLog(smrLog, req)
      requires |H.CutConflict(repairs, smrLog, req)| <= req.prefixLength && req.commitLength > commitLength ==>
                 commitLength < |H.AcceptLog(repairs, smrLog, req)|
      modifies this`smrLog, this`logSize, this`commitLength, this`customerRecord
      ensures Valid()
      ensures var n := old(State()).(log := H.AcceptLog(repairs, old(smrLog), req));
              State() == if |H.CutConflict(repairs, old(smrLog), req)| <= req.prefixLength
                  && req.commitLength > n.commitLength
                         then H.ExecuteLog(n) else n
    {
      if repairs.cutConflict && req.opTerm != -1 && 0 <= req.prefixLength < logSize
         && smrLog[req.prefixLength].term != req.opTerm {
        DropUncommittedLog(req.prefixLength);
      }
      var included := logSize > req.prefixLength;
      if !included {
        if req.opTerm != -1 {
          AppendLog(req.opTerm, req.opCustomer, req.opOrder);
        }
        if req.commitLength > commitLength {
          ExecuteLog(commitLength);
        }
      }
    }

    // ---- ReplicateLog: the leader's side ----

    method SetAckLength(nodeIdx: int, size: int)
      requires Valid() && (nodeIdx == -1 || 0 <= nodeIdx < ackLength.Length) && ackLength.Length == |members| > 0
      modifies ackLength
      ensures ackLength[..] == old(ackLength[..])[if nodeIdx == -1 then |members| - 1 else nodeIdx := size]
    {
      var idx := if nodeIdx == -1 then |members| - 1 else nodeIdx;
      ackLength[idx] := size;
    }

    /** LeaderMaintainLog up to its call of ReplicateLog. */
    method LogUpdate(customer: int, order: int)
      requires Valid() && ackLength.Length == |members| > 0
      modifies this`smrLog, this`logSize, ackLength
      ensures Valid() && State() == H.ClientUpdate(old(State()), customer, order)
      ensures smrLog == old(smrLog) + [MapOp(currentTerm, customer, order)]
      ensures ackLength[..] == old(ackLength[..])[|members| - 1 := |smrLog|]
    {
      AppendLog(currentTerm, customer, order);
      SetAckLength(-1, logSize);
    }

    method CleanNodeState(idx: nat)
      requires Valid() && H.HasSlot(State(), idx)
      modifies sentLength, ackLength
      ensures Valid() && State() == H.CleanNodeState(old(State()), idx)
      ensures sentLength[..] == old(sentLength[..])[idx := 0] && ackLength[..] == old(ackLength[..])[idx := 0]
    {
      ackLength[idx] := 0;
      sentLength[idx] := 0;
    }

    method NextRequest(slot: nat) returns (req: LogRequest)
      requires Valid() && H.SendInBounds(State(), slot)
      ensures req == H.MakeLogRequest(State(), slot)
      ensures req.leaderId == factoryId && req.term == currentTerm && req.commitLength == commitLength
      ensures req.prefixLength == sentLength[slot]
      ensures req.prefixTerm == if sentLength[slot] == 0 then 0 else smrLog[sentLength[slot] - 1].term
      ensures if sentLength[slot] == |smrLog| then req.opTerm == req.opCustomer == req.opOrder == -1
              else MapOp(req.opTerm, req.opCustomer, req.opOrder) == smrLog[sentLength[slot]]
    {
      var prefixLength := sentLength[slot];
      var prefixTerm := GetPrefixTerm(prefixLength);
      if logSize == prefixLength {
        req := LogRequest(factoryId, currentTerm, prefixLength, prefixTerm, commitLength, -1, -1, -1);
      } else {
        var op := smrLog[prefixLength];
        req := LogRequest(factoryId, currentTerm, prefixLength, prefixTerm, commitLength, op.term, op.customer,
            op.order);
      }
    }

    /** Returns whether the server stepped down. */
    method TakeLogResponse(slot: nat, res: LogResponse) returns (down: bool)
      requires Valid() && H.HasSlot(State(), slot)
      modifies this`currentTerm, this`status, this`votedFor, this`voteReceived
      modifies this`commitLength, this`customerRecord, sentLength, ackLength
      ensures Valid() && State() == H.TakeLogResponse(repairs, old(State()), slot, res)
      ensures down == (res.term > old(currentTerm))
      ensures down ==> currentTerm == res.term && status.Follower? && votedFor == -1 && voteReceived == {}
      ensures !down ==> currentTerm == old(currentTerm) && status == old(status) && votedFor == old(votedFor)
      ensures var heard := res.term == old(currentTerm) && old(status).Leader?;
              && ackLength[..] == (if heard && res.success then old(ackLength[..])[slot := res.ack]
                                   else old(ackLength[..]))
              && sentLength[..] == (if heard && res.success then old(sentLength[..])[slot := res.ack]
                                    else if heard && old(sentLength[slot]) > 0
                                    then old(sentLength[..])[slot := old(sentLength[slot]) - 1]
                                    else old(sentLength[..]))
    {
      down := false;
      if res.term == currentTerm && status.Leader? {
        if res.success {
          sentLength[slot] := res.ack;
          ackLength[slot] := res.ack;
          CommitLog();
        } else if sentLength[slot] > 0 {
          sentLength[slot] := sentLength[slot] - 1;
        }
      } else if res.term > currentTerm {
        Demote(res.term);
        down := true;
      }
    }

    /** The state of a server apart from its own slots, which it needs only as a leader. */
    ghost function AsFollower(): NodeState
      reads this
    {
      NodeState(factoryId, members, currentTerm, status, leaderId, votedFor, voteReceived,
                smrLog, commitLength, customerRecord, [], [])
    }

    /** A neighbour that the leader of `term` with log `line` can bring up to date. */
    ghost predicate Servable(fix: Repairs, line: Log, term: int)
      reads this
    {
      Valid() && repairs == fix && CU.Follows(fix, line, term, AsFollower())
    }

    ghost predicate Demoted(term: int)
      reads this
    {
      status.Follower? && currentTerm > term && votedFor == -1 && voteReceived == {}
    }

    ghost predicate Leading()
      reads this, sentLength, ackLength
    {
      && Valid() && status.Leader? && commitLength <= logSize && R.Positive(smrLog)
      && sentLength.Length == ackLength.Length == |members|
      && (forall j :: 0 <= j < sentLength.Length ==> 0 <= sentLength[j] <= logSize)
    }

    /** The neighbour handles the leader's next request. */
    method Deliver(slot: nat, peer: ServerMetadata) returns (res: LogResponse)
      requires Leading() && slot < |members| && peer != this && peer.Servable(repairs, smrLog, currentTerm)
      modifies peer`leaderId, peer`currentTerm, peer`status, peer`votedFor, peer`voteReceived
      modifies peer`smrLog, peer`logSize, peer`commitLength, peer`customerRecord
      ensures peer.Servable(repairs, smrLog, currentTerm)
      ensures K.CanServe(repairs, State(), slot, old(peer.AsFollower()))
      ensures res == H.AnswerLog(repairs, old(peer.AsFollower()), CU.Offer(State(), slot))
      ensures peer.AsFollower() == H.TakeLog(repairs, old(peer.AsFollower()), CU.Offer(State(), slot))
      ensures sentLength[slot] == logSize ==> peer.smrLog == old(peer.smrLog)
    {
      ghost var l, f := State(), peer.AsFollower();
      if logSize == sentLength[slot] {
        CU.HeartbeatExchange(repairs, l, f);
      } else {
        CU.EntryInBounds(repairs, l, slot, f);
      }
      var req := NextRequest(slot);
      K.SlotsIdle(repairs, peer.State(), req);
      res := peer.GetLogResponse(req);
    }

    /** The leader takes the reply to a request that carried an entry. */
    method Conclude(slot: nat, peer: ServerMetadata, res: LogResponse, ghost f: NodeState) returns (down: bool)
      requires Leading() && slot < |members| && peer != this && peer.Servable(repairs, smrLog, currentTerm)
               && sentLength[slot] < logSize
      requires CU.Follows(repairs, smrLog, currentTerm, f)
      requires res == H.AnswerLog(repairs, f, CU.Offer(State(), slot))
      requires H.LogInBounds(repairs, f, CU.Offer(State(), slot))
      requires peer.AsFollower() == H.TakeLog(repairs, f, CU.Offer(State(), slot))
      modifies this`currentTerm, this`status, this`votedFor, this`voteReceived
      modifies this`commitLength, this`customerRecord, sentLength, ackLength
      ensures Valid() && State() == H.TakeLogResponse(repairs, old(State()), slot, res)
      ensures down == (res.term > old(currentTerm)) && (down ==> Demoted(old(currentTerm)))
      ensures !down ==>
                && Leading() && currentTerm == old(currentTerm)
                && sentLength[..] == old(sentLength[..])[slot := sentLength[slot]]
                && (sentLength[slot] > old(sentLength[slot]) ==> smrLog[..sentLength[slot]] <= peer.smrLog)
                && CU.Distance(smrLog, sentLength[slot], peer.smrLog) < CU.Distance(smrLog, old(sentLength[slot]),
                    f.log)
    {
      ghost var l := State();
      CU.EntryInBounds(repairs, l, slot, f);
      if res.term <= currentTerm { CU.EntryProgress(repairs, l, slot, f); }
      down := TakeLogResponse(slot, res);
    }

    /** One exchange whose request arrives. A response without a sender, which is what a failed
        receive leaves, stands for a failed neighbour. */
    method ExchangeSent(slot: nat, peer: ServerMetadata, link: CU.Link) returns (out: K.Outcome)
      requires Leading() && slot < |members| && peer != this && peer.Servable(repairs, smrLog, currentTerm)
               && !link.RequestLost?
      modifies this`currentTerm, this`status, this`votedFor, this`voteReceived
      modifies this`commitLength, this`customerRecord, sentLength, ackLength
      modifies peer`leaderId, peer`currentTerm, peer`status, peer`votedFor, peer`voteReceived
      modifies peer`smrLog, peer`logSize, peer`commitLength, peer`customerRecord
      ensures Valid() && peer.Valid()
      ensures K.CanServe(repairs, old(State()), slot, old(peer.AsFollower()))
      ensures State() == K.Told(repairs, old(State()), slot, old(peer.AsFollower()), link)
      ensures peer.AsFollower() == K.Asked(repairs, old(State()), slot, old(peer.AsFollower()), link)
      ensures out.Failed? <==> !link.Up?
      ensures out.SteppedDown? <==> link.Up? && K.Outdated(repairs, old(State()), slot, old(peer.AsFollower()))
      ensures !out.SteppedDown? ==>
                Leading() && peer.Servable(repairs, smrLog, currentTerm) && currentTerm == old(currentTerm)
                && sentLength[..] == old(sentLength[..])[slot := sentLength[slot]]
      ensures out.Failed? ==> sentLength[slot] == ackLength[slot] == 0
      ensures out.Beat? ==> old(sentLength[slot]) == logSize == sentLength[slot] && peer.smrLog == old(peer.smrLog)
      ensures out.Entry? ==>
                && old(sentLength[slot]) < logSize
                && (sentLength[slot] > old(sentLength[slot]) ==> smrLog[..sentLength[slot]] <= peer.smrLog)
                && CU.Distance(smrLog, sentLength[slot], peer.smrLog) < CU.Distance(smrLog, old(sentLength[slot]),
                    old(peer.smrLog))
      ensures out.SteppedDown? ==> Demoted(old(currentTerm))
    {
      ghost var f := peer.AsFollower();
      var res := Deliver(slot, peer);
      if link.ReplyLost? { res := H.NoResponse; }
      if res.followerId == -1 {
        CleanNodeState(slot);
        return K.Failed;
      }
      if logSize == sentLength[slot] { return K.Beat; }
      var down := Conclude(slot, peer, res, f);
      return if down then K.SteppedDown else K.Entry;
    }

    /** One exchange with one neighbour. */
    method Exchange(slot: nat, peer: ServerMetadata, link: CU.Link) returns (out: K.Outcome)
      requires Leading() && slot < |members| && peer != this && peer.Servable(repairs, smrLog, currentTerm)
      modifies this`currentTerm, this`status, this`votedFor, this`voteReceived
      modifies this`commitLength, this`customerRecord, sentLength, ackLength
      modifies peer`leaderId, peer`currentTerm, peer`status, peer`votedFor, peer`voteReceived
      modifies peer`smrLog, peer`logSize, peer`commitLength, peer`customerRecord
      ensures Valid() && peer.Valid()
      ensures K.CanServe(repairs, old(State()), slot, old(peer.AsFollower()))
      ensures State() == K.Told(repairs, old(State()), slot, old(peer.AsFollower()), link)
      ensures peer.AsFollower() == K.Asked(repairs, old(State()), slot, old(peer.AsFollower()), link)
      ensures out.Failed? <==> !link.Up?
      ensures out.SteppedDown? <==> link.Up? && K.Outdated(repairs, old(State()), slot, old(peer.AsFollower()))
      ensures !out.SteppedDown? ==>
                Leading() && peer.Servable(repairs, smrLog, currentTerm) && currentTerm == old(currentTerm)
                && sentLength[..] == old(sentLength[..])[slot := sentLength[slot]]
      ensures out.Failed? ==> sentLength[slot] == ackLength[slot] == 0
      ensures out.Beat? ==> old(sentLength[slot]) == logSize == sentLength[slot] && peer.smrLog == old(peer.smrLog)
      ensures out.Entry? ==>
                && old(sentLength[slot]) < logSize
                && (sentLength[slot] > old(sentLength[slot]) ==> smrLog[..sentLength[slot]] <= peer.smrLog)
                && CU.Distance(smrLog, sentLength[slot], peer.smrLog) < CU.Distance(smrLog, old(sentLength[slot]),
                    old(peer.smrLog))
      ensures out.SteppedDown? ==> Demoted(old(currentTerm))
    {
      if link.RequestLost? {
        K.AlwaysServes(repairs, State(), slot, peer.AsFollower());
        CleanNodeState(slot);
        out := K.Failed;
      } else {
        out := ExchangeSent(slot, peer, link);
      }
    }

    // ---- ReplicateLog ----

    /** The neighbours are different servers with the same repairs. */
    ghost predicate Apart(peers: seq<ServerMetadata>)
      reads peers
    {
      && this !in peers
      && (forall j, k :: 0 <= j < k < |peers| ==> peers[j] != peers[k])
      && (forall j :: 0 <= j < |peers| ==> peers[j].Valid() && peers[j].repairs == repairs)
    }

    /** This server and its neighbours are where course `c` is. */
    ghost predicate Shows(peers: seq<ServerMetadata>, c: K.Course)
      reads this, sentLength, ackLength, peers
    {
      && Valid() && Apart(peers) && State() == c.l && |peers| == |c.fs| == |c.taken|
      && forall j :: 0 <= j < |peers| ==> peers[j].AsFollower() == c.fs[j]
    }

    /** One exchange with the neighbour in a slot, seen among all neighbours. */
    method Visit(slot: nat, peers: seq<ServerMetadata>, link: CU.Link, ghost c: K.Course)
      returns (out: K.Outcome, ghost c': K.Course)
      requires Shows(peers, c) && K.Ready(repairs, c) && slot < |peers| && slot !in c.broken
      modifies this`currentTerm, this`status, this`votedFor, this`voteReceived
      modifies this`commitLength, this`customerRecord, sentLength, ackLength
      modifies peers
      ensures K.CanServe(repairs, c.l, slot, c.fs[slot]) && c' == K.Exchanged(repairs, c, slot, link)
      ensures Shows(peers, c') && out == K.OutcomeOf(repairs, c, slot, link)
    {
      out := Exchange(slot, peers[slot], link);
      c' := K.Exchanged(repairs, c, slot, link);
      Shown(peers, c, c', slot);
    }

    lemma Shown(peers: seq<ServerMetadata>, c: K.Course, c': K.Course, slot: nat)
      requires Valid() && Apart(peers) && State() == c'.l && slot < |peers| == |c.fs| == |c'.taken|
      requires c'.fs == c.fs[slot := peers[slot].AsFollower()]
      requires forall j :: 0 <= j < |peers| && j != slot ==> peers[j].AsFollower() == c.fs[j]
      ensures Shows(peers, c')
    {}

    /** The next slot is served. */
    method Serve(slot: nat, peers: seq<ServerMetadata>, link: CU.Link, broken: set<nat>,
                 ghost faults: seq<seq<CU.Link>>, ghost c: K.Course)
      returns (out: K.Outcome, ghost c': K.Course)
      requires Shows(peers, c) && K.Ready(repairs, c) && slot < |peers|
      requires c.at < |c.sockets| && c.sockets[c.at] == slot && c.broken == broken
      requires link == CU.LinkAt(faults, slot, c.taken[slot])
      modifies this`currentTerm, this`status, this`votedFor, this`voteReceived
      modifies this`commitLength, this`customerRecord, sentLength, ackLength
      modifies peers
      ensures K.Serves(repairs, faults, c, c') && Shows(peers, c')
      ensures out == K.Ended(c, c')
    {
      if slot in broken {
        CleanNodeState(slot);
        return K.Failed, c.(l := H.CleanNodeState(c.l, slot), at := c.at + 1);
      }
      K.EndedAs(repairs, c, slot, link);
      out, c' := Visit(slot, peers, link, c);
    }

    /** The turn of the next slot in a round. A broken link's closed socket refuses the request;
        otherwise `faults` says what the link does to this exchange, the slot's next. */
    method Turn(k: nat, nodeSocket: seq<nat>, peers: seq<ServerMetadata>, faults: seq<seq<CU.Link>>, taken0: seq<nat>,
                broken: set<nat>, ghost kept: set<nat>, ghost changes: nat, ghost start: K.Course,
                ghost trace0: seq<K.Course>)
      returns (out: K.Outcome, taken: seq<nat>, ghost trace: seq<K.Course>)
      requires K.Underway(repairs, faults, trace0, start) && Shows(peers, K.Latest(trace0)) && k < |nodeSocket|
      requires K.Reads(K.Latest(trace0), nodeSocket, k, taken0, broken, kept, changes)
      modifies this`currentTerm, this`status, this`votedFor, this`voteReceived
      modifies this`commitLength, this`customerRecord, sentLength, ackLength
      modifies peers
      ensures K.Underway(repairs, faults, trace, start) && Shows(peers, K.Latest(trace))
      ensures out.SteppedDown? ==> var c := K.Latest(trace); c.down && c.taken == taken && c.broken == broken
      ensures !out.SteppedDown? ==>
                && K.NotAbove(start.sockets, K.Latest(trace), K.Latest(trace0))
                && K.Reads(K.Latest(trace), nodeSocket, k + 1, taken,
                           if out.Failed? then broken + {nodeSocket[k]} else broken,
                           if out.Failed? then kept else kept + {nodeSocket[k]},
                           if out.Entry? then changes + 1 else changes)
    {
      ghost var c := K.Latest(trace0);
      K.NextTurn(repairs, faults, trace0, start);
      var slot := nodeSocket[k];
      ghost var c';
      out, c' := Serve(slot, peers, CU.LinkAt(faults, slot, taken0[slot]), broken, faults, c);
      taken := if slot in broken then taken0 else taken0[slot := taken0[slot] + 1];
      K.TurnReads(repairs, faults, c, c', nodeSocket, k, taken0, broken, kept, changes);
      K.TurnTaken(repairs, faults, trace0, start, c');
      trace := trace0 + [c'];
    }

    /** Exchanges with every slot in `nodeSocket` whose link is not broken. `taken` counts the
        exchanges of each slot. */
    method Round(nodeSocket: seq<nat>, peers: seq<ServerMetadata>, faults: seq<seq<CU.Link>>, taken0: seq<nat>,
                 kept0: set<nat>, broken0: set<nat>, ghost start: K.Course, ghost trace0: seq<K.Course>)
      returns (down: bool, changes: nat, taken: seq<nat>, kept: set<nat>, broken: set<nat>, ghost trace: seq<K.Course>)
      requires K.Underway(repairs, faults, trace0, start) && Shows(peers, K.Latest(trace0))
      requires K.Reads(K.Latest(trace0), nodeSocket, 0, taken0, broken0, kept0, 0)
      modifies this`currentTerm, this`status, this`votedFor, this`voteReceived
      modifies this`commitLength, this`customerRecord, sentLength, ackLength
      modifies peers
      ensures K.Underway(repairs, faults, trace, start) && Shows(peers, K.Latest(trace))
      ensures var c := K.Latest(trace); c.down == down && c.taken == taken && c.broken == broken
      ensures !down ==> K.Reads(K.Latest(trace), nodeSocket, |nodeSocket|, taken, broken, kept, changes)
      ensures !down ==> K.NotAbove(start.sockets, K.Latest(trace), K.Latest(trace0))
    {
      down, changes, taken, kept, broken, trace := false, 0, taken0, kept0, broken0, trace0;
      for k := 0 to |nodeSocket|
        invariant K.Underway(repairs, faults, trace, start) && Shows(peers, K.Latest(trace))
        invariant K.Reads(K.Latest(trace), nodeSocket, k, taken, broken, kept, changes)
        invariant K.NotAbove(start.sockets, K.Latest(trace), K.Latest(trace0))
      {
        var slot, out := nodeSocket[k], K.Beat;
        out, taken, trace := Turn(k, nodeSocket, peers, faults, taken, broken, kept, changes, start, trace);
        if out.SteppedDown? {
          down := true;
          return;
        }
        if out.Failed? { broken := broken + {slot}; } else { kept := kept + {slot}; }
        if out.Entry? { changes := changes + 1; }
      }
    }

    /** Rounds, until one carries no entry. */
    method Rounds(connected: seq<nat>, peers: seq<ServerMetadata>, faults: seq<seq<CU.Link>>, ghost start: K.Course)
      returns (down: bool, broken: set<nat>, taken: seq<nat>, ghost trace: seq<K.Course>)
      requires K.Underway(repairs, faults, [start], start) && Shows(peers, start) && start.sockets == connected
      modifies this`currentTerm, this`status, this`votedFor, this`voteReceived
      modifies this`commitLength, this`customerRecord, sentLength, ackLength
      modifies peers
      ensures K.Underway(repairs, faults, trace, start) && Shows(peers, K.Latest(trace))
      ensures var c := K.Latest(trace);
              taken == c.taken && broken == c.broken && down == c.down && (!down ==> K.Done(c))
    {
      var changes, kept: set<nat>, nodeSocket, updated := 0, {}, connected, true;
      down, broken, taken, trace := false, {}, seq(|peers|, _ => 0), [start];
      while updated
        invariant K.Underway(repairs, faults, trace, start) && Shows(peers, K.Latest(trace))
        invariant K.Reads(K.Latest(trace), nodeSocket, if updated then 0 else |nodeSocket|, taken, broken, kept, 0)
        decreases |CU.Slots(connected) - broken|, K.Left(connected, K.Latest(trace)), updated
      {
        down, changes, taken, kept, broken, trace :=
          Round(nodeSocket, peers, faults, taken, kept, broken, start, trace);
        if down { return; }
        updated := changes > 0;
        if updated {
          K.RoundTaken(repairs, faults, trace, start, nodeSocket, taken, broken, kept, changes);
          trace := trace + [K.NewRound(K.Latest(trace))];
          nodeSocket := K.Answering(nodeSocket, kept);
        }
      }
    }

    /** `connected` are the slots of the connected neighbours in the order they are served;
        `faults` is, for each slot, what its link does exchange by exchange, and `Up` from then
        on. The course of the call is returned from its start to its end, and what it starts
        from leaves nothing of it open (Courses.OneCourse). A return of 0 means that the server
        stepped down. Otherwise a slot is broken if and only if its own link failed in one of the
        exchanges it took, and starts again from 0; every other slot has been sent the whole log;
        and the neighbour in every such slot that was behind at the start stores it: the leader's
        log is a prefix of its own. A neighbour that joins the term follows this leader in it and
        has no vote; if its log was the leader's, it has committed more, for a slot that was up to
        date one entry for each exchange, until it has what the leader had committed. */
    method ReplicateLog(connected: seq<nat>, peers: seq<ServerMetadata>, faults: seq<seq<CU.Link>>)
      returns (r: int, broken: set<nat>, taken: seq<nat>, ghost trace: seq<K.Course>)
      requires Leading() && |peers| == |members| - 1 && Apart(peers)
      requires forall j :: 0 <= j < |peers| ==> peers[j].Servable(repairs, smrLog, currentTerm)
      requires forall s :: s in connected ==> s < |peers|
      requires forall j, k :: 0 <= j < k < |connected| ==> connected[j] != connected[k]
      modifies this`currentTerm, this`status, this`votedFor, this`voteReceived
      modifies this`commitLength, this`customerRecord, sentLength, ackLength
      modifies peers
      ensures Valid()
      ensures K.Played(repairs, faults, trace) && trace[0] == K.Start(old(State()), old(FollowersOf(peers)), connected)
      ensures var c := K.Latest(trace);
              && State() == c.l && FollowersOf(peers) == c.fs && taken == c.taken && broken == c.broken
              && if r == 0 then c.down else K.Done(c)
      ensures |taken| == |peers| && forall s: nat :: s in broken <==> s < |peers| && CU.LinkFailed(faults, s, taken[s])
      ensures r == 0 ==> Demoted(old(currentTerm))
      ensures r != 0 ==> r == 1 && Leading() && currentTerm == old(currentTerm) && smrLog == old(smrLog)
      ensures r != 0 ==> forall s :: s in broken ==> s < sentLength.Length && sentLength[s] == 0
      ensures r != 0 ==> forall s :: s in connected && s !in broken ==> sentLength[s] == logSize
      ensures r != 0 ==>
                forall s :: s in connected && s !in broken && old(sentLength[s]) < logSize ==> smrLog <= peers[s].smrLog
      ensures r != 0 ==>
                forall s :: s in connected && s !in broken ==>
                  s < |trace[0].fs| <= |trace[0].l.sent| && Heard(trace[0], K.Latest(trace), s, peers[s])
    {
      ghost var start := K.Start(State(), FollowersOf(peers), connected);
      Begins(peers, faults, start);
      var down;
      down, broken, taken, trace := Rounds(connected, peers, faults, start);
      Ends(peers, faults, start, trace);
      AllHeard(peers, faults, start, trace);
      r := if down then 0 else 1;
    }

    lemma Begins(peers: seq<ServerMetadata>, faults: seq<seq<CU.Link>>, start: K.Course)
      requires Leading() && |peers| == |members| - 1 && Apart(peers)
      requires forall j :: 0 <= j < |peers| ==> peers[j].Servable(repairs, smrLog, currentTerm)
      requires start == K.Start(State(), FollowersOf(peers), start.sockets)
      requires forall s :: s in start.sockets ==> s < |peers|
      requires forall j, k :: 0 <= j < k < |start.sockets| ==> start.sockets[j] != start.sockets[k]
      ensures K.Underway(repairs, faults, [start], start) && Shows(peers, start)
    {}

    /** What the end of a course says about the objects. */
    lemma Ends(peers: seq<ServerMetadata>, faults: seq<seq<CU.Link>>, start: K.Course, trace: seq<K.Course>)
      requires K.Underway(repairs, faults, trace, start) && Shows(peers, K.Latest(trace))
      ensures var c := K.Latest(trace);
              && FollowersOf(peers) == c.fs && |c.taken| == |peers|
              && (forall s: nat :: s in c.broken <==> s < |peers| && CU.LinkFailed(faults, s, c.taken[s]))
              && if c.down then K.Demoted(trace[0].l, c.l) else K.Going(repairs, trace[0], c)
      ensures K.Done(K.Latest(trace)) ==> forall s :: s in trace[0].sockets && s !in K.Latest(trace).broken ==>
                s < |peers| && sentLength.Length > s && sentLength[s] == logSize
                && (s < |trace[0].l.sent| && trace[0].l.sent[s] < logSize ==> smrLog <= peers[s].smrLog)
    {
      forall s: nat ensures s in K.Latest(trace).broken <==>
                            s < |peers| && CU.LinkFailed(faults, s, K.Latest(trace).taken[s]) {
        K.BrokenExactly(repairs, faults, trace, s);
      }
      K.AlwaysGoing(repairs, faults, trace);
      if K.Done(K.Latest(trace)) {
        forall s | s in trace[0].sockets { K.Converges(repairs, trace[0], K.Latest(trace), s); }
      }
    }

    /** What the neighbours have heard at the end of a course. */
    lemma AllHeard(peers: seq<ServerMetadata>, faults: seq<seq<CU.Link>>, start: K.Course, trace: seq<K.Course>)
      requires K.Underway(repairs, faults, trace, start) && Shows(peers, K.Latest(trace))
      ensures K.Done(K.Latest(trace)) ==>
                forall s :: s in start.sockets && s !in K.Latest(trace).broken ==>
                  s < |peers| == |start.fs| <= |start.l.sent| && Heard(start, K.Latest(trace), s, peers[s])
    {
      var c := K.Latest(trace);
      if K.Done(c) {
        K.AlwaysGoing(repairs, faults, trace);
        K.AlwaysHeeding(repairs, faults, trace);
        forall s | s in start.sockets && s !in c.broken
          ensures s < |peers| == |start.fs| <= |start.l.sent| && Heard(start, c, s, peers[s])
        {
          K.AllHeed(repairs, start, c, s);
        }
      }
    }

    /** What the neighbour in slot `s` has heard in a course from `start` to `c`: if it joins the
        term of the leader, it follows that leader in it. If its log was the leader's, it still is,
        and it has committed more, as far as the leader had. */
    ghost predicate Heard(start: K.Course, c: K.Course, s: nat, peer: ServerMetadata)
      requires s < |start.fs| <= |start.l.sent|
      reads this, peer
    {
      var f := start.fs[s];
      (f.term <= start.l.term || (f.status.Follower? && !repairs.termOrder)) ==>
        && peer.currentTerm == start.l.term && peer.leaderId == start.l.me && peer.status.Follower?
        && peer.votedFor == -1
        && (f.log == start.l.log ==>
              && peer.smrLog == start.l.log
              && (f.commitLength < start.l.commitLength ==> f.commitLength < peer.commitLength)
              && (start.l.sent[s] == |start.l.log| ==>
                    || (s < |c.taken| && peer.commitLength >= f.commitLength + c.taken[s])
                    || peer.commitLength >= start.l.commitLength))
    }

    ghost function FollowersOf(peers: seq<ServerMetadata>): (fs: seq<NodeState>)
      reads peers
      ensures |fs| == |peers| && forall j :: 0 <= j < |peers| ==> fs[j] == peers[j].AsFollower()
    {
      if peers == [] then [] else [peers[0].AsFollower()] + FollowersOf(peers[1..])
    }
  }
}
