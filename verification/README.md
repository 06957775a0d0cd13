# A replicated key-value store on Raft

This project models a small C++ Raft cluster: a replicated log of customer orders, the
election of a leader, the catch-up of followers, the byte stream between servers and the
queue between client threads and the log. It proves what every run of a cluster of any size
keeps, and says exactly where the code as written needs a repair to do so.

`dafny verify dfyconfig.toml` checks everything.

## How it is built

- **One server.** `ServerMetadata.dfy` is the server object, its fields updated in place by
  the same loops and branches as the code. Every method is proved to take the object to the
  state that a function in `Handlers.dfy` gives (`Canvassing.dfy` for the election loop).
- **The cluster.** `Cluster.dfy` takes its steps with the same functions. A handler runs
  under the receiver's lock and is one step; a sender keeps its own lock from send to reply,
  so its state is frozen while others move. No request is ever taken out of the network: it
  may be lost, handled late, or handled again. A new request is a new exchange, after which
  replies to an earlier one are not read. There is any number of servers and a run is any
  finite interleaving.
- **The invariants**, one layer on the other: `Elections.dfy`, `Logs.dfy`, `Hollows.dfy`,
  `Commits.dfy`; and `Replaying.dfy`, which needs none of the others for the code as written.
  `SmallCluster.dfy`, `TwoServers.dfy` and `Duel.dfy` are about clusters that are too small
  for some of the faults. `Safety.dfy` states the guarantees over whole runs. The cluster
  carries a record of votes, leaders, leaders' logs and acknowledgements (`History`) that no
  guard reads; it is there for the proofs and is not part of the code.
- **The faults.** `Campaigns.dfy` puts runs together from elections, updates and exchanges;
  `SplitVotes.dfy`, `Regress.dfy`, `Rivals.dfy`, `Seesaw.dfy`, `Conflicts.dfy` and
  `EarlierTerms.dfy` use it for runs, in clusters of every size from the smallest that fails,
  in which the code as written goes wrong. `Exact.dfy` puts both sides together.
- **The catch-up.** `CatchUp.dfy` is one exchange between a leader and a follower, and
  `Courses.dfy` the rounds of exchanges with all of them, step by step, with links that fail
  before or after the follower handled a request. `ServerMetadata.ReplicateLog` is proved to
  take exactly these steps. `Replication.dfy` shows that such a call is a run of the cluster,
  and `Reachability.dfy` that reachable states are the ones it starts from.
- **Requests and replies.** `Canvassing.dfy` has all that an election can come to, and
  `Names.dfy` what the numbers and terms in requests and replies tell.
- **Around it.** `Messages.dfy`, `Sockets.dfy` and `Rpc.dfy` are the byte stream,
  `LeaderInfo.dfy` the address format, `Queue.dfy` and `LaptopFactory.dfy` the hand-off of
  client updates to the log.

## Code and protocol

The code departs from the protocol it documents in five places. Each has a flag in
`RaftTypes.Repairs`: `false` is the code as written, `true` the documented protocol.
Functions and methods take the flags, so each result says which ones it rests on.

| flag | as written | repaired |
|---|---|---|
| A `quorum` | a candidate wins with `2 * votes >= neighbours` (ServerMetadata.cpp:217-219) | a strict majority of all servers (README.md:124) |
| B `freshVotes` | a new election keeps the votes of the last one (ServerMetadata.cpp:255-258) | it starts with the candidate's own vote |
| C `termOrder` | a follower takes over the term of any log request, even a lower one (ServerMetadata.cpp:551-552) | only a term that is not lower (README.md:135) |
| D `cutConflict` | a conflicting entry is acknowledged but stays; the truncation at ServerMetadata.cpp:571 is never reached | the log is cut where a real entry has another term, as in section 5.3 of the Raft paper |
| E `ownTerm` | the leader commits what a majority has, of any term (ServerMetadata.cpp:629-639) | only up to an entry of its own term, as in section 5.4.2 of the Raft paper |

README.md:135 of the repository would cut the log whenever it is longer than the prefix. A
leader that lost a link sends its log again from the first entry, and such a cut would then
delete committed entries; repair D cuts only at a conflict. README.md:124 says that a
candidate without votes steps down; the code has that part commented out
(ServerMetadata.cpp:301-308), and the model follows the code.

Two guards hold throughout. Only a leader logs client updates and replicates
(`Cluster.LeaderOnly`): the code checks this before it takes the lock, not after. And a
server that stops does not come back with an empty log.

What the flags are needed for. The three results of `Exact.dfy` are about every cluster size
and every choice of flags, the code as written among them. Elections are *fair* if C is
repaired and, from four servers on, so are A and B.

- At most one leader per term, over whole runs: **if and only if** the cluster has one server
  or elections are fair (`Exact.ElectionSafetyExactly`). In a cluster of three the code as
  written takes the very steps it takes with A and B repaired (`SmallCluster.SmallRuns`). Two
  servers as written never lead at the same moment, but they lead one term in turn
  (`Seesaw.LeadInTurn`): a candidate that a late request has made a follower again still starts
  its election, as nothing checks the status again under the lock (ServerThread.cpp:250-273).
- An acknowledgement stands for stored entries: **if and only if** the cluster has one server,
  or elections are fair and D is repaired or there are two servers
  (`Exact.AcknowledgementsExactly`). A run of two servers with C and without D is a run with D
  (`TwoServers.UncutRuns`).
- All servers agree on what they have committed: **if and only if** the cluster has one server,
  or elections are fair and the cluster has two servers, or E is repaired as well and so is D
  or the cluster has exactly four servers (`Exact.CommitSafetyExactly`). With four servers an
  election takes three votes, so at most one acknowledgement of an entry of the leader's own
  term is hollow, and two real copies are enough to meet every later majority. In clusters of
  three, five and more, hollow acknowledgements can replace a committed order
  (`Conflicts.ConflictCommits`). Without fair elections two leaders of one term commit different
  orders whatever D and E are (`Rivals.RivalsCommit`, `Seesaw.TurnsCommit`).
- With fair elections logs match at every index of equal terms, with neither D nor E
  (`Safety.LogMatching`).

And of the code as written:

- Every table is the replay of its server's committed entries, and no handler reads past the
  end of a log (`Safety.ReplayRefinement`).
- For each flag, `Gaps.dfy` has the exact condition under which a single call of the code as
  written does what the repaired one does.

## Model

| member | source | states |
|---|---|---|
| Safety.ElectionSafety | ServerMetadata.cpp:221-341 | over a whole run, at two moments however far apart, two leaders of the same term are the same server; C, with A and B or at most three servers |
| Safety.LogMatching | ServerMetadata.cpp:560-590 | two logs at any two moments of a run that hold the same term at an index are identical up to and including it; C, with A and B or at most three servers |
| Safety.TermsRise | ServerMetadata.cpp:551-558 | with C alone, a server's term never goes down along a run |
| Safety.TermOrder | ServerMetadata.cpp:560-608 | along a log terms never go down, are at least 1 and at most the owner's term |
| Safety.AckSoundness | ServerMetadata.cpp:396-419 | an acknowledgement of k entries in a leader's slot means that server stores the leader's first k entries, now and at every later moment at which it is in that term; no acknowledgement exceeds the leader's log; D or at most two servers |
| Safety.LeaderCompleteness | ServerMetadata.cpp:329-337 | what any server has ever committed is in the log of every leader of a later term, even one elected before the commit, and of its own term's leader from then on |
| Safety.StateMachineSafety | ServerMetadata.cpp:533-653 | two servers at any two moments of a run agree on every entry both have committed, and with equally many committed entries their tables are equal |
| Safety.NothingCommittedIsRemoved | ServerMetadata.cpp:560-590 | a commit length never goes down, committed entries stay in the log, and no request ever sent would cut below the commit length |
| Safety.CommitLengthGrows | ServerMetadata.cpp:609-653 | the code as written never lowers a commit length along a run |
| Safety.ReplayRefinement | ServerMetadata.cpp:533-622 | in every reachable state a table is the replay of the committed entries, a read answers the last committed order or -1, and no request ever sent and no slot of a leader reads past a log; as written, and with D given the others |
| Exact.ElectionSafetyExactly | ServerMetadata.cpp:217-341 | for any flags: no two servers lead one term at any two moments of any run if and only if the cluster has one server, or terms only go up and A and B are repaired or there are at most three servers |
| Exact.LeadersAtOnceExactly | ServerMetadata.cpp:217-341 | for any flags: no reachable state has two leaders of one term if and only if there are at most two servers or elections are fair |
| Exact.AcknowledgementsExactly | ServerMetadata.cpp:551-591 | for any flags: no acknowledgement in a leader's slot is hollow in any reachable state if and only if the cluster has one server, or elections are fair and D is repaired or there are at most two servers |
| Exact.CommitSafetyExactly | ServerMetadata.cpp:533-653 | for any flags: all servers agree on committed entries in all reachable states if and only if the cluster has one server, or elections are fair and there are two servers or E is repaired and D is or there are four servers |
| EarlierTerms.TwoCommits | ServerMetadata.cpp:629-652 | without E, and with A and B or three servers, whatever C and D are, in every cluster of three servers or more: a reachable state in which two servers committed different orders in the same place |
| SplitVotes.SplitQuorums | ServerMetadata.cpp:217-219 | without A, in every cluster of four servers or more: a reachable state with two new leaders of one term and everybody else at rest |
| SplitVotes.StaleVotes | ServerMetadata.cpp:255-258 | with A and without B, in every cluster of four servers or more: the same, by votes kept from an earlier election |
| Regress.TermRegressSplits | ServerMetadata.cpp:551-552 | without C, and with A and B or three servers, in every cluster of three servers or more: the same, by heartbeats of an earlier leader |
| Conflicts.ConflictAcknowledged | ServerMetadata.cpp:569-587 | without D, and with A and B or three servers, in every cluster of three servers or more: a reachable state in which a slot acknowledges an entry its server does not hold |
| Conflicts.ConflictCommits | ServerMetadata.cpp:569-639 | without D, with E, and with A and B or three servers, in every cluster of three, five or more servers: a reachable state in which two servers committed different orders in the same place |
| Rivals.RivalsAcknowledged | ServerMetadata.cpp:569-587 | from two new leaders of one term, in three servers or more, under any D and E: a slot of one of them acknowledges an entry its server does not hold |
| Rivals.RivalsCommit | ServerMetadata.cpp:569-652 | from two new leaders of one term, in three servers or more, under any D and E: both commit, and not the same order |
| Seesaw.LeadInTurn | ServerMetadata.cpp:551-558 | without C, with two servers and any other flags: one leads a term in which the other has already sent a request as its leader |
| Seesaw.Acknowledged | ServerMetadata.cpp:551-587 | and then a slot acknowledges an entry its server does not hold |
| Seesaw.TurnsCommit | ServerMetadata.cpp:551-587 | and then the two servers commit different orders in the same place |
| Gaps.CutExactly | ServerMetadata.cpp:560-587 | with logs that match, the request's entry is in its place afterwards if and only if no entry of another term was there; the repaired cut puts it there after the same prefix |
| Gaps.OwnTermExactly | ServerMetadata.cpp:624-653 | the two commit rules reach the same point if and only if the point reached as written is no change or ends in an entry of the leader's term |
| SmallCluster.Holds | ServerMetadata.cpp:249-311 | with at most three servers, at every moment of a run as written, an election is entered with the candidate's own vote at most |
| SmallCluster.SmallRuns | ServerMetadata.cpp:217-289 | every run of such a cluster as written is a run with A and B repaired |
| TwoServers.UncutRuns | ServerMetadata.cpp:569-573 | every run of at most two servers without D is a run with D |
| TwoServers.NoConflict | ServerMetadata.cpp:560-573 | in such a run no server accepts a request in whose place it has an entry of another term |
| Duel.NeverBothLead | ServerMetadata.cpp:249-341 | as written, two servers never lead at the same time |
| Names.SentByLeader | ServerMetadata.cpp:393-429 | in every run as written, whoever has sent a log request led its term at some earlier moment, and knew itself as the leader |
| Names.LeaderLed | ServerMetadata.cpp:551-558 | in every run as written, the server that another takes for its leader led at some earlier moment |
| Names.NeverCleans | ServerMetadata.cpp:408-458 | in every run as written, a log response that arrives names the server of its slot, so it never resets the slot; one to a heartbeat changes nothing, and one of a later term makes the leader a follower of that term |
| Names.Rebuffed | ServerMetadata.cpp:291-338 | a candidate that asks a server of a later term ends its election as a follower of exactly that term, without vote or votes, and the other server stays as it was |
| Elections.OneWinner | ServerMetadata.cpp:282-289 | two servers elected in the same term by majorities are the same server |
| Handlers.VoteAnswered | ServerMetadata.cpp:313-341 | for every voter and request: the reply names the voter and carries the later of the two terms, which is then the voter's; a later term is taken over with its candidate; a vote goes to that candidate if its log is not worse |
| Handlers.LogAnswered | ServerMetadata.cpp:533-595 | for every follower and request: the reply names the follower and carries its term; the fields that change when it joins the term; exactly when it accepts, what it logs, and when it executes one entry |
| Elections.StepKeeps | ServerMetadata.cpp:249-341 | every step keeps that each server's vote in a term is its first, although a log request resets it inside the term |
| Logs.StepKeeps | ServerMetadata.cpp:533-595 | every step keeps that each log lies entry by entry on its terms' leaders' logs and that acknowledged entries stay until a later leader lacks them |
| Logs.AcceptRetains | ServerMetadata.cpp:568-587 | a follower that accepts an entry, cutting or not, keeps what it acknowledged to earlier leaders unless a later leader was elected without it |
| Hollows.ConflictIsNoVote | ServerMetadata.cpp:329-337 | a follower that has another entry where the leader has one of its own term did not vote for it |
| Hollows.StepKeeps | ServerMetadata.cpp:568-591 | every step keeps that a hollow acknowledgement lacks only its last entry, and that its giver did not vote for the leader if that entry is of the leader's term |
| Commits.LeaderCompleteness | ServerMetadata.cpp:329-337 | what half of the servers store, up to an entry of the leader's own term, or all of them, is in the log every later leader is elected with |
| Commits.CutsNothingCommitted | ServerMetadata.cpp:569-573 | a request that conflicts with a follower's log conflicts at or above its commit length |
| Commits.OneMoreCommitted | ServerMetadata.cpp:580-586 | the one entry a follower executes was committed by the leader |
| Commits.ReachesCommitted | ServerMetadata.cpp:629-652 | what a leader executes is stored by enough servers for good: under E and D by a majority, under E alone in a cluster of four by two |
| Commits.StepKeeps | ServerMetadata.cpp:533-653 | every step keeps that each server's executed entries were committed by some leader up to its term |
| Replaying.CommitLogExact | ServerMetadata.cpp:624-653 | CommitLog reaches the largest length that a strict majority of slots acknowledged, or changes nothing; the table is then the replay of exactly those entries in order; as written and with E |
| Replaying.CountsSlots | ServerMetadata.cpp:629-635 | the counting loop counts the slots that acknowledged a length |
| Replaying.ReplayLookup | ServerMetadata.cpp:83-91 | a replayed table has a customer if and only if some entry does, with the order of the last one |
| Replaying.ReadsCommitted | ServerMetadata.cpp:83-91 | a read answers the last committed order of a customer or -1 |
| Replaying.DeliveryInBounds | ServerMetadata.cpp:580-585 | no request ever sent makes a follower execute an entry it does not have |
| Canvassing.WinsExactly | ServerMetadata.cpp:249-311 | an election makes its caller leader if and only if some vote completes a winning set before any reply shows a later term |
| Canvassing.ElectionOutcome | ServerMetadata.cpp:249-311 | a whole election ends in one of three ways: as leader by the first winning vote; as follower, with no vote and no votes, of the first later term that a reply shows before a win; or as the candidate of the next term with its own vote and all votes it got; nothing else changes |
| Reachability.LeaderCanServe | ServerMetadata.cpp:388-452 | in every reachable state a leader can build each slot's request, and each server that joins its term has a matching log and nothing committed beyond the leader's log; D or at most two servers |
| CatchUp.AcceptsUpToCommon | ServerMetadata.cpp:560-568 | a follower accepts a request exactly up to the longest common prefix of its log and the leader's |
| CatchUp.EntryRefused | ServerMetadata.cpp:470-473 | a refusal happens only beyond the common prefix; the leader backs off by one and the follower's log is unchanged |
| CatchUp.EntryAccepted | ServerMetadata.cpp:461-468 | an accepted entry leaves the follower's own log if it already held it, and the leader's log up to the entry otherwise; the slot moves on by one |
| CatchUp.EntryOutdated | ServerMetadata.cpp:475-481 | a follower of a later term is unchanged and the leader steps down |
| CatchUp.EntryProgress | ServerMetadata.cpp:421-483 | every exchange that carries an entry brings the slot strictly closer: down to the common prefix, then up to the end of the log |
| Courses.OneCourse | ServerMetadata.cpp:367-496 | the start and what the links do determine every step of a replication: two courses that have ended are the same |
| Courses.BrokenExactly | ServerMetadata.cpp:396-453 | along any course a slot is broken if and only if its own link failed in an exchange that this slot has taken |
| Courses.AlwaysGoing | ServerMetadata.cpp:367-496 | at every step the leader still leads its term with the same log and can serve every follower, and every connected slot is broken or still served, or the leader has stepped down |
| Courses.Converges | ServerMetadata.cpp:485-495 | a round that carried no entry leaves every slot with a working link at the end of the log, and its follower with that log if it was behind |
| Courses.AllHeed | ServerMetadata.cpp:396-419 | at the end every follower that joins the term and has a working link is in the leader's term, follows it and has no vote; one that had the leader's log has committed more, for a slot that was up to date one entry for each exchange, as far as the leader had |
| Courses.FailsExactly | ServerMetadata.cpp:408-419 | a reply that arrives over a working link never makes the leader give the follower up |
| Courses.AnsweringSplits | ServerMetadata.cpp:482-493 | the sockets that are kept for the next round stay in their order and number |
| Replication.TurnIsSteps | ServerMetadata.cpp:388-484 | a turn of a course is a request sent, handled or lost, and answered or lost, in the cluster |
| Replication.CallIsRun | ServerMetadata.cpp:367-496 | a call of ReplicateLog that starts in a reachable state ends in one, so all that holds of those holds after it |
| CatchUp.HeartbeatExchange | ServerMetadata.cpp:396-419 | a heartbeat changes no log and keeps the follower one that can be served |
| CatchUp.HeartbeatsCatchUp | ServerMetadata.cpp:580-586 | with equal logs each heartbeat commits exactly one more entry, and after enough of them the follower's table is the leader's; as written |
| CatchUp.Beats | ServerMetadata.cpp:580-586 | k heartbeats bring the commit length to the smaller of its start plus k and the leader's |
| CatchUp.ResendIdempotent | ServerMetadata.cpp:498-502 | after a lost response, to an entry taken or refused, the whole log is sent again, and the follower ends with the log it would have had: nothing is logged twice |
| Server.ServerMetadata.constructor | ServerMetadata.cpp:19-29 | the state of a server before its first election |
| Server.ServerMetadata.GetValue | ServerMetadata.cpp:83-91 | the customer's order in the table, or -1 |
| Server.ServerMetadata.InitLeader | ServerMetadata.cpp:221-233 | fresh slots with the log's length sent and nothing acknowledged, itself as leader, and the rest unchanged |
| Server.ServerMetadata.RequestVote | ServerMetadata.cpp:249-311 | the loop over the replies ends in one of the three outcomes of ElectionOutcome, field by field |
| Server.ServerMetadata.NextVoteRequest | ServerMetadata.cpp:343-352 | the request carries the candidate's number, its term, its log's length and the term of its last entry, 0 for an empty log |
| Server.ServerMetadata.GetVoteResponse | ServerMetadata.cpp:313-341 | every field of the voter and of the reply: its number, the later of the two terms, and exactly when it grants the vote |
| Server.ServerMetadata.AppendLog | ServerMetadata.cpp:597-607 | one entry more, and nothing else |
| Server.ServerMetadata.ExecuteLog | ServerMetadata.cpp:609-622 | one entry of the log put in the table |
| Server.ServerMetadata.CountAcks | ServerMetadata.cpp:629-635 | the number of slots that acknowledged a length |
| Server.ServerMetadata.CommitLog | ServerMetadata.cpp:624-653 | the nested loops, in which two statements write the commit length, end in the state that CommitLogExact is about |
| Server.ServerMetadata.DropUncommittedLog | ServerMetadata.cpp:674-678 | with D, the log up to the prefix is what remains |
| Server.ServerMetadata.GetLogResponse | ServerMetadata.cpp:533-595 | every field of the follower and of the reply: its number and term, exactly when it accepts, what it logs, and the one entry it executes |
| Server.ServerMetadata.SetAckLength | ServerMetadata.cpp:235-243 | one slot is set, the server's own for -1 |
| Server.ServerMetadata.LogUpdate | ServerThread.cpp:301-311 | a client's order is logged under the leader's term and acknowledged by the leader itself |
| Server.ServerMetadata.CleanNodeState | ServerMetadata.cpp:498-502 | one slot starts again from nothing |
| Server.ServerMetadata.NextRequest | ServerMetadata.cpp:393-429 | every field of the request for a slot: the leader, its term and commit length, what precedes, and one entry or, at the end of the log, -1 for a heartbeat |
| Server.ServerMetadata.TakeLogResponse | ServerMetadata.cpp:454-481 | the leader's new state and whether it stepped down, and then to which term; what a success and a refusal do to the slot |
| Server.ServerMetadata.Exchange | ServerMetadata.cpp:390-484 | leader and follower end as the exchange over this link says; a response without a sender resets the slot, which happens exactly when the link fails; otherwise it is a heartbeat that changes no log, or gets strictly closer, or ends the leader's term |
| Server.ServerMetadata.ReplicateLog | ServerMetadata.cpp:367-496 | terminates under any link failures and takes exactly the steps of one course, from the old state of all servers to the new one; a slot is broken if and only if its own link failed in an exchange of this course; unless the server steps down, every other slot has been sent the whole log, and the neighbour of every such slot that was behind has the leader's log as a prefix of its own; every neighbour with a working link that joins the term follows this leader in it, and one that had the leader's log has committed more as far as the leader had |
| Messages.IntRoundTrip | Messages.cpp:240-249 | a signed 32-bit field, negative ones too, is read back from its four bytes |
| Messages.BytesRoundTrip | Messages.cpp:240-249 | any four bytes are the encoding of the field they are read as |
| Messages.PackRoundTrip | Messages.cpp:484-520 | a row of fields is read back from its bytes |
| Messages.PackHolds | Messages.cpp:655-681 | each packed field is at its offset as four bytes, the highest first, a negative one in two's complement |
| Messages.LogRoundTrip | Messages.cpp:655-718 | a log request is read back from its bytes |
| Messages.LogBytesRoundTrip | Messages.cpp:655-718 | any 32 bytes are the encoding of the log request they are read as |
| Messages.VoteRoundTrip | Messages.cpp:484-520 | a vote request is read back from its bytes |
| Messages.VoteBytesRoundTrip | Messages.cpp:484-520 | any 16 bytes are the encoding of the vote request they are read as |
| Messages.VoteReplyRoundTrip | Messages.cpp:558-586 | a vote response is read back from its bytes |
| Messages.LogReplyRoundTrip | Messages.cpp:767-802 | a log response is read back from its bytes |
| Messages.RequestVoteMessage.Marshal | Messages.cpp:484-498 | the four fields are in the first 16 bytes in this order, each highest byte first, by arithmetic, and the rest of the buffer is unchanged |
| Messages.RequestVoteMessage.Unmarshal | Messages.cpp:500-520 | the object's fields become the numbers that the first 16 bytes hold, highest byte first |
| Messages.LogRequestMessage.Marshal | Messages.cpp:655-681 | the eight fields are in the first 32 bytes in this order, each highest byte first, by arithmetic, and the rest of the buffer is unchanged |
| Messages.LogRequestMessage.Unmarshal | Messages.cpp:683-718 | the object becomes the request that the first 32 bytes hold |
| Messages.RequestVoteResponse.Marshal | Messages.cpp:558-570 | the three fields in the first 12 bytes, the vote as 1 or 0 |
| Messages.LogResponseMessage.Marshal | Messages.cpp:767-783 | the four fields in the first 16 bytes, the success as 1 or 0 |
| Sockets.Socket.Recv | Socket.cpp:50-74 | for any sizes the system delivers, exactly the next bytes of the stream; a failure closes the socket |
| Sockets.Socket.Send | Socket.cpp:27-48 | for any sizes the system takes, exactly these bytes, or a closed socket after some of them |
| Rpc.StreamsAgree | ServerThread.cpp:99-125 | a stream determines the calls it encodes, and one that breaks off between two calls determines the calls up to there |
| Rpc.SendCall | ServerMetadata.cpp:434-443 | a call adds its identifier, the bytes 0 0 0 0 for a vote request and 0 0 0 1 for a log request, and its message to the stream, or some of these bytes over a link that fails |
| Rpc.RecvLogResponse | ServerMetadata.cpp:662-672 | the next 16 bytes as a log response, or one from follower -1 after a failure |
| Rpc.CallAnswered | ServerThread.cpp:127-157 | a vote request is always answered, a log request unless it is from leader -1, and then the server stays as it was |
| Rpc.ServerStub.IdentifyRPC | ServerStub.cpp:81-91 | the next four bytes as the call's identifier |
| Rpc.ServerStub.RecvRequestVote | ServerStub.cpp:64-72 | the next 16 bytes as a vote request; after a failure, what the memory held |
| Rpc.ServerStub.RecvLogRequest | ServerStub.cpp:93-102 | the next 32 bytes as a log request; after a failure, one from leader -1 |
| Rpc.CandidateVoteHandler | ServerThread.cpp:127-139 | one vote request is consumed, handled and answered; after a link that fails inside it, whatever the memory held is handled in its place, as in the code |
| Rpc.AppendLogHandler | ServerThread.cpp:141-157 | one log request is consumed, handled and answered, or none: a link that fails inside it leaves the server as it was, and one from leader -1 is dropped without an answer |
| Rpc.ServerHandler | ServerThread.cpp:99-125 | for any list of calls in any chunks, and whatever other threads do to the server between them: exactly these calls are handled, once each and in order, each in the state it finds, and their replies are written in order |
| LeaderInfos.DecimalRoundTrip | Messages.cpp:377-379 | a printed number is parsed back if and only if it is not negative |
| LeaderInfos.ThreeDigits | Messages.cpp:443 | the value of a number of up to three digits by hundreds, tens and ones |
| LeaderInfos.FourParts | Messages.cpp:437-446 | four strings with dots between them are the four parts in this order |
| LeaderInfos.AddressRoundTrip | Messages.cpp:377-449 | four 32-bit numbers are restored by printing and parsing, with no overflow on the way, if and only if none is negative |
| LeaderInfos.CanonicalRoundTrip | Messages.cpp:377-449 | an address in the usual form is printed back as it was |
| LeaderInfos.CanonicalFits | Messages.cpp:433-444 | parsing such an address never overflows and never writes a fifth number |
| LeaderInfos.LeaderInfo.ParseIp | Messages.cpp:430-449 | the loop puts the value of each part between dots in its field, with every product and sum in range and every index below four |
| LeaderInfos.LeaderInfo.SetLeaderInfo | Messages.cpp:368-371 | a canonical address is stored so that it prints back as given |
| Queue.Conservation | ServerThread.cpp:213-241 | under every interleaving each pushed request is in exactly one of the queue, a thread's hands and the log, and nothing else is; the log grew by exactly the logged requests; what is logged was answered, once |
| Queue.NothingLost | ServerThread.cpp:213-241 | with an empty queue and idle threads the log has every push exactly once |
| Queue.OrderExactly | ServerThread.cpp:234-239 | the log keeps the order of the pushes on every run if and only if there is at most one leader thread |
| Queue.Overtaken | ServerThread.cpp:234-239 | with two threads, a run in which two updates of one client change places |
| Queue.StepKeeps | ServerThread.cpp:37-59 | every step keeps the places of the requests, the order of the queue, and that a client has at most one open request |
| Factory.LaptopFactory.CreateLaptop | ServerThread.cpp:37-59 | a client's push is the Push step |
| Factory.LaptopFactory.TakeRequest | ServerThread.cpp:220-226 | a pop under the queue's lock is the Pop step |
| Factory.LaptopFactory.AnswerClient | ServerThread.cpp:228-235 | setting the promise is the Answer step |
| Factory.LaptopFactory.LeaderMaintainLog | ServerThread.cpp:237-239 | logging under the server's lock is the Append step |

## Left out

- Server.ServerMetadata.ReplicateLog: the neighbours move only by this leader's exchanges; in the code their other threads act between them. `Safety.dfy` is about all interleavings, and `CatchUp.EntryProgress` about one exchange from any reachable state.
- Server.ServerMetadata.DropUncommittedLog: the loop as written removes nothing from a log that is longer than the prefix and is never reached (ServerMetadata.cpp:571); this is the repaired loop.
- Rpc.ServerHandler: a stream that ends: the code then reads its identifier from an unset buffer for ever.
- Factory.LaptopFactory.LeaderMaintainLog: the replication that follows under the same lock is `ReplicateLog`, and leaves the log alone.
- LeaderInfos.LeaderInfo.ParseIp: numbers for which an address has no part keep what the memory held, as in the code; an address that overflows or has more than three dots is excluded, because its outcome is undefined there.
- Socket calls, connection set-up, `TryReconnect` and `InitNeighbors`: a slot whose link failed is served again or not; only its reset is modelled.
- Timeouts, random intervals, condition variables and the heartbeat flag: a timeout is a step that may happen at any time. `TimeoutThread` is the steps `Timeout`, `BeginElection` and `BeginReplicate`.
- Liveness of elections: two candidates that each hold their lock while they wait for the other can block.
- Crash and restart with lost memory, and membership change: the code has neither persistence nor reconfiguration (README.md:206-207).
- When a client is answered: the promise is set before the entry is replicated (ServerThread.cpp:235), so an answered update need not be committed.
- Unlocked reads of the server's state in `CustomerHandler` and `TimeoutThread`, and what a client is told about the leader.
- 32-bit wrap-around of terms, lengths and order numbers: they are unbounded integers, except on the wire and in the address parser.
- `htonl` and `memcpy` are one operation: a field is written to the buffer as big-endian two's complement.
- A failed receive of a vote leaves the code with whatever the buffer held (ServerMetadata.cpp:358); the cluster and `RequestVote` take it as no vote.
- `rand_num` is always 1 (ServerMetadata.cpp:386), so every round sends heartbeats; the choice is not modelled.
- A cluster of one server wins no election, because the test is made only after a reply; no result is stated about it beyond the general ones.
- Which neighbours `ReplicateLog` serves in what order is a parameter, and so are the sizes in which sockets move bytes and the failures of links.
- Customer messages, laptops, records, and the `LeaderInfo` bytes: marshalled like the protocol messages.
- `ReplicationRequest`, functions that are declared but not defined, `GetVotedFor`, client programs, printing and graphs.
