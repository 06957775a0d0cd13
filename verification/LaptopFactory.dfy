/** The shared objects of the client and leader threads. Each method is what one thread does
    while it holds one lock, and is proved to be one step of the hand-off. */
module Factory {
  import opened RaftTypes
  import Q = Queue
  import Server

  class LaptopFactory {
    const metadata: Server.ServerMetadata
    var erq: seq<Q.Request>
    var hands: seq<Q.Hand>
    var waiting: set<int>
    ghost var base: Log
    ghost var pushed: seq<Q.Request>
    ghost var answered: seq<Q.Request>
    ghost var logged: seq<Q.Request>
    var pushes: nat

    ghost predicate Valid()
      reads this, metadata, metadata.ackLength
    {
      metadata.Valid() && metadata.ackLength.Length == |metadata.members| > 0 && pushes == |pushed|
    }

    ghost function Value(): Q.State
      requires Valid()
      reads this, metadata, metadata.sentLength, metadata.ackLength
    {
      Q.State(metadata.State(), base, erq, hands, waiting, pushed, answered, logged)
    }

    constructor (metadata: Server.ServerMetadata, threads: nat)
      requires metadata.Valid() && metadata.status.Leader? && metadata.ackLength.Length == |metadata.members| > 0
      ensures Valid() && Q.Init(Value()) && Value().node == metadata.State() && |hands| == threads
      ensures this.metadata == metadata
    {
      this.metadata := metadata;
      erq, hands, waiting, pushes := [], seq(threads, _ => Q.Idle), {}, 0;
      base, pushed, answered, logged := metadata.smrLog, [], [], [];
    }

    /** CreateLaptop up to the wait for the answer. */
    method CreateLaptop(client: int, customer: int, order: int)
      requires Valid() && Q.Enabled(Value(), Q.Push(client, customer, order))
      modifies this
      ensures Valid() && Value() == Q.After(old(Value()), Q.Push(client, customer, order))
      ensures erq == old(erq) + [Q.Request(old(pushes), client, customer, order)]
      ensures waiting == old(waiting) + {client} && pushes == old(pushes) + 1 && hands == old(hands)
    {
      var req := Q.Request(pushes, client, customer, order);
      erq, waiting, pushes := erq + [req], waiting + {client}, pushes + 1;
      pushed := pushed + [req];
    }

    /** LeaderThread under the queue's lock. It waits while the queue is empty. */
    method TakeRequest(t: nat)
      requires Valid() && Q.Enabled(Value(), Q.Pop(t))
      modifies this`erq, this`hands
      ensures Valid() && Value() == Q.After(old(Value()), Q.Pop(t))
      ensures [hands[t].req] + erq == old(erq) && hands == old(hands)[t := Q.Popped(old(erq)[0])]
    {
      var req := erq[0];
      erq, hands := erq[1..], hands[t := Q.Popped(req)];
    }

    /** LeaderThread sets the promise, under no lock at all. */
    method AnswerClient(t: nat)
      requires Valid() && Q.Enabled(Value(), Q.Answer(t))
      modifies this`hands, this`waiting, this`answered
      ensures Valid() && Value() == Q.After(old(Value()), Q.Answer(t))
      ensures hands == old(hands)[t := Q.Answered(old(hands)[t].req)]
      ensures waiting == old(waiting) - {old(hands)[t].req.client}
    {
      var req := hands[t].req;
      hands, waiting := hands[t := Q.Answered(req)], waiting - {req.client};
      answered := answered + [req];
    }

    /** LeaderThread under the server's lock: LeaderMaintainLog, up to the replication. */
    method LeaderMaintainLog(t: nat)
      requires Valid() && Q.Enabled(Value(), Q.Append(t))
      modifies this`hands, this`logged, metadata`smrLog, metadata`logSize, metadata.ackLength
      ensures Valid() && Value() == Q.After(old(Value()), Q.Append(t))
      ensures hands == old(hands)[t := Q.Idle]
      ensures var req := old(hands)[t].req;
              metadata.smrLog == old(metadata.smrLog) + [MapOp(metadata.currentTerm, req.customer, req.order)]
    {
      var req := hands[t].req;
      metadata.LogUpdate(req.customer, req.order);
      hands := hands[t := Q.Idle];
      logged := logged + [req];
    }
  }
}
