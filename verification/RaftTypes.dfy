/** The values a server stores and sends: log entries, the four protocol
    messages, and the state of one server as a value. */
module RaftTypes {

  datatype Option<+T> = None | Some(value: T)

  /** One log entry: the term it was logged in, the customer, the order number. */
  datatype MapOp = MapOp(term: int, customer: int, order: int)

  type Log = seq<MapOp>

  datatype Status = Follower | Leader | Candidate

  datatype VoteRequest = VoteRequest(id: int, term: int, logSize: int, lastTerm: int)

  datatype VoteResponse = VoteResponse(id: int, term: int, voted: bool)

  /** `opTerm == -1` marks a heartbeat; otherwise the request carries one entry. */
  datatype LogRequest = LogRequest(
    leaderId: int, term: int, prefixLength: int, prefixTerm: int,
    commitLength: int, opTerm: int, opCustomer: int, opOrder: int)

  datatype LogResponse = LogResponse(followerId: int, term: int, ack: int, success: bool)

  /** The places where the code departs from the protocol it documents. A `false`
      field is the code as written; a `true` field is the documented protocol. */
  datatype Repairs = Repairs(
    quorum: bool,       // A: winning takes a strict majority of all servers
    freshVotes: bool,   // B: a new election starts with the candidate's own vote only
    termOrder: bool,    // C: a follower ignores a request from a lower term
    cutConflict: bool,  // D: a conflicting entry is cut off before the new one is logged
    ownTerm: bool)      // E: only an entry of the leader's own term is counted for commit

  const AsWritten := Repairs(false, false, false, false, false)
  const Repaired := Repairs(true, true, true, true, true)

  /** The fields of one server. `members` lists the neighbours in the order of their
      array slots and ends with the server itself, whose slot is the last one. */
  datatype NodeState = NodeState(
    me: int, members: seq<int>,
    term: int, status: Status, leaderId: int, votedFor: int, votes: set<int>,
    log: Log, commitLength: nat, record: map<int, int>,
    sent: seq<int>, ack: seq<int>)

  /** The term at an index, -1 for a negative index. */
  function TermAt(log: Log, idx: int): int
    requires idx < |log|
  {
    if idx < 0 then -1 else log[idx].term
  }

  function LastTerm(log: Log): int {
    if log == [] then 0 else log[|log| - 1].term
  }

  function PrefixTerm(log: Log, prefix: int): int
    requires prefix <= |log|
  {
    if prefix > 0 then TermAt(log, prefix - 1) else 0
  }

  /** The key-value table that executing a log from the empty table gives. */
  function Replay(log: Log): map<int, int> {
    if log == [] then map[]
    else
      var op := log[|log| - 1];
      Replay(log[..|log| - 1])[op.customer := op.order]
  }
}
