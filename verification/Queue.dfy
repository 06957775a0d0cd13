/** The hand-off of client updates on a server that stays leader: client threads push them on
    a queue, leader threads pop them, answer the client, and then append them to the log. */
module Queue {
  import opened RaftTypes
  import H = Handlers

  /** An update a client asked for; `ticket` counts the pushes before it. */
  datatype Request = Request(ticket: nat, client: int, customer: int, order: int)

  /** What a leader thread holds. It answers the client before it takes the server's lock. */
  datatype Hand = Idle | Popped(req: Request) | Answered(req: Request)

  /** `base` is the log at the start; `pushed`, `answered` and `logged` list the requests in
      the order in which that happened to them, and `waiting` are the clients that await an
      answer. */
  datatype State = State(
    node: NodeState, base: Log, queue: seq<Request>, hands: seq<Hand>, waiting: set<int>,
    pushed: seq<Request>, answered: seq<Request>, logged: seq<Request>)

  predicate Leads(n: NodeState) { n.status.Leader? && 0 < |n.ack| }

  predicate Init(s: State) {
    && Leads(s.node) && s.base == s.node.log
    && s.queue == s.pushed == s.answered == s.logged == [] && s.waiting == {}
    && forall t :: 0 <= t < |s.hands| ==> s.hands[t] == Idle
  }

  // ---- Steps ----

  datatype Step =
    | Push(client: int, customer: int, order: int)
    | Pop(thread: nat)
    | Answer(thread: nat)
    | Append(thread: nat)
    | Other(node: NodeState)

  function NewRequest(s: State, st: Step): Request
    requires st.Push?
  {
    Request(|s.pushed|, st.client, st.customer, st.order)
  }

  /** A client waits for each answer. Whatever else the server does as leader of its term
      leaves its log alone. */
  predicate Enabled(s: State, st: Step) {
    match st
    case Push(client, _, _) => client !in s.waiting
    case Pop(t) => t < |s.hands| && s.hands[t].Idle? && s.queue != []
    case Answer(t) => t < |s.hands| && s.hands[t].Popped?
    case Append(t) => t < |s.hands| && s.hands[t].Answered? && Leads(s.node)
    case Other(n) => Leads(n) && n.term == s.node.term && n.log == s.node.log
  }

  function After(s: State, st: Step): State
    requires Enabled(s, st)
  {
    match st
    case Push(client, _, _) =>
      var r := NewRequest(s, st);
      s.(queue := s.queue + [r], pushed := s.pushed + [r], waiting := s.waiting + {client})
    case Pop(t) =>
      s.(queue := s.queue[1..], hands := s.hands[t := Popped(s.queue[0])])
    case Answer(t) =>
      var r := s.hands[t].req;
      s.(hands := s.hands[t := Answered(r)], answered := s.answered + [r], waiting := s.waiting - {r.client})
    case Append(t) =>
      var r := s.hands[t].req;
      s.(hands := s.hands[t := Idle], logged := s.logged + [r], node := H.ClientUpdate(s.node, r.customer, r.order))
    case Other(n) =>
      s.(node := n)
  }

  ghost predicate Next(s: State, s': State) {
    exists st: Step :: Enabled(s, st) && s' == After(s, st)
  }

  ghost predicate NextAt(run: seq<State>, i: nat)
    requires i + 1 < |run|
  {
    Next(run[i], run[i + 1])
  }

  ghost predicate Run(run: seq<State>) {
    0 < |run| && Init(run[0]) && forall i :: 0 <= i < |run| - 1 ==> NextAt(run, i)
  }

  ghost predicate Reach(s: State) {
    exists run :: Run(run) && run[|run| - 1] == s
  }

  // ---- Where the requests are ----

  function Times(rs: seq<Request>, r: Request): nat { multiset(rs)[r] }

  /** How many threads hold a request, and how many of them have yet to answer it. */
  function Holding(hands: seq<Hand>, r: Request): nat {
    if hands == [] then 0
    else Holding(hands[..|hands| - 1], r) + In(hands[|hands| - 1], r)
  }

  function Answering(hands: seq<Hand>, r: Request): nat {
    if hands == [] then 0
    else Answering(hands[..|hands| - 1], r) + if hands[|hands| - 1] == Popped(r) then 1 else 0
  }

  function In(h: Hand, r: Request): nat { if !h.Idle? && h.req == r then 1 else 0 }

  lemma {:induction false} HandChanges(hands: seq<Hand>, t: nat, h: Hand, r: Request)
    requires t < |hands|
    ensures Holding(hands[t := h], r) == Holding(hands, r) - In(hands[t], r) + In(h, r)
    ensures Answering(hands[t := h], r) ==
            Answering(hands, r) - (if hands[t] == Popped(r) then 1 else 0) + if h == Popped(r) then 1 else 0
  {
    var n := |hands| - 1;
    if t < n {
      HandChanges(hands[..n], t, h, r);
      assert hands[t := h][..n] == hands[..n][t := h];
    } else {
      assert hands[t := h][..n] == hands[..n];
    }
  }

  /** The log entries the requests become. */
  function Entries(term: int, rs: seq<Request>): Log {
    seq(|rs|, k requires 0 <= k < |rs| => MapOp(term, rs[k].customer, rs[k].order))
  }

  // ---- The invariant ----

  /** A request is exactly where it should be: pushed requests in one of the queue, a
      thread's hands and the log; and either waiting for the answer or answered. */
  predicate Placed(s: State, r: Request) {
    && Times(s.queue, r) + Holding(s.hands, r) + Times(s.logged, r) == Times(s.pushed, r)
    && Times(s.queue, r) + Answering(s.hands, r) + Times(s.answered, r) == Times(s.pushed, r)
  }

  predicate Open(s: State, r: Request) { Times(s.queue, r) + Answering(s.hands, r) > 0 }

  ghost predicate Conserves(s: State) { forall r :: Placed(s, r) }

  /** Only a waiting client has an open request, and only one. */
  ghost predicate Waits(s: State) {
    && (forall r :: Open(s, r) ==> r.client in s.waiting)
    && (forall r, r' :: Open(s, r) && Open(s, r') && r.client == r'.client ==> r == r')
  }

  /** Tickets number the pushes, and the queue is what was pushed last. */
  ghost predicate Numbered(s: State) {
    && (forall k :: 0 <= k < |s.pushed| ==> s.pushed[k].ticket == k)
    && |s.queue| <= |s.pushed| && s.queue == s.pushed[|s.pushed| - |s.queue|..]
  }

  predicate Logs(s: State) {
    Leads(s.node) && s.node.log == s.base + Entries(s.node.term, s.logged)
  }

  ghost predicate Inv(s: State) { Conserves(s) && Waits(s) && Numbered(s) && Logs(s) }

  lemma {:induction false} AllIdle(hands: seq<Hand>, r: Request)
    requires forall t :: 0 <= t < |hands| ==> hands[t] == Idle
    ensures Holding(hands, r) == Answering(hands, r) == 0
  {
    if hands != [] { AllIdle(hands[..|hands| - 1], r); }
  }

  lemma InitOk(s: State)
    requires Init(s)
    ensures Inv(s)
  {
    forall r ensures Placed(s, r) && !Open(s, r) { AllIdle(s.hands, r); }
  }

  /** A numbered list holds no request twice. */
  lemma {:induction false} NumberedOnce(rs: seq<Request>, r: Request)
    requires forall k :: 0 <= k < |rs| ==> rs[k].ticket == k
    ensures Times(rs, r) == if r in rs then 1 else 0
  {
    if rs != [] {
      var front := rs[..|rs| - 1];
      NumberedOnce(front, r);
      assert rs == front + [rs[|rs| - 1]];
    }
  }

  /** How each step moves one request. */
  lemma PushMoves(s: State, st: Step, r: Request)
    requires Enabled(s, st) && st.Push? && Placed(s, r)
    ensures Placed(After(s, st), r) && (Open(After(s, st), r) <==> Open(s, r) || r == NewRequest(s, st))
  {}

  lemma PopMoves(s: State, t: nat, r: Request)
    requires Enabled(s, Pop(t)) && Placed(s, r)
    ensures Placed(After(s, Pop(t)), r) && (Open(After(s, Pop(t)), r) <==> Open(s, r))
  {
    HandChanges(s.hands, t, Popped(s.queue[0]), r);
    assert s.queue == [s.queue[0]] + s.queue[1..];
  }

  lemma AnswerMoves(s: State, t: nat, r: Request)
    requires Enabled(s, Answer(t)) && Placed(s, r)
    ensures var s' := After(s, Answer(t));
            && Placed(s', r)
            && Times(s'.queue, r) + Answering(s'.hands, r) ==
               Times(s.queue, r) + Answering(s.hands, r) - if r == s.hands[t].req then 1 else 0
  {
    HandChanges(s.hands, t, Answered(s.hands[t].req), r);
  }

  lemma AppendMoves(s: State, t: nat, r: Request)
    requires Enabled(s, Append(t)) && Placed(s, r)
    ensures Placed(After(s, Append(t)), r) && (Open(After(s, Append(t)), r) <==> Open(s, r))
  {
    HandChanges(s.hands, t, Idle, r);
  }

  /** A request stays placed; it becomes open by being pushed, and only an answer to it
      closes it. */
  lemma Moves(s: State, st: Step, r: Request)
    requires Enabled(s, st) && Placed(s, r)
    ensures Placed(After(s, st), r)
    ensures st.Push? ==> (Open(After(s, st), r) <==> Open(s, r) || r == NewRequest(s, st))
    ensures !st.Push? && (st.Answer? ==> r != s.hands[st.thread].req) ==> (Open(After(s, st), r) <==> Open(s, r))
    ensures !st.Push? ==> (Open(After(s, st), r) ==> Open(s, r))
  {
    match st
    case Push(_, _, _) => PushMoves(s, st, r);
    case Pop(t) => PopMoves(s, t, r);
    case Answer(t) => AnswerMoves(s, t, r);
    case Append(t) => AppendMoves(s, t, r);
    case Other(n) =>
  }

  lemma LogsKept(s: State, st: Step)
    requires Logs(s) && Enabled(s, st)
    ensures Logs(After(s, st))
  {}

  lemma NumberedKept(s: State, st: Step)
    requires Numbered(s) && Enabled(s, st)
    ensures Numbered(After(s, st))
  {}

  lemma OpenOnce(s: State, r: Request)
    requires Conserves(s) && Numbered(s)
    ensures Times(s.queue, r) + Answering(s.hands, r) <= 1
  {
    assert Placed(s, r);
    NumberedOnce(s.pushed, r);
  }

  lemma StepKeeps(s: State, st: Step)
    requires Inv(s) && Enabled(s, st)
    ensures Inv(After(s, st))
  {
    LogsKept(s, st);
    NumberedKept(s, st);
    var s' := After(s, st);
    forall r ensures Placed(s', r) {
      assert Placed(s, r);
      Moves(s, st, r);
    }
    WaitsKept(s, st);
  }

  lemma WaitsKept(s: State, st: Step)
    requires Inv(s) && Enabled(s, st)
    ensures Waits(After(s, st))
  {
    var s' := After(s, st);
    forall r | Open(s', r)
      ensures r.client in s'.waiting
      ensures forall r' :: Open(s', r') && r.client == r'.client ==> r == r'
    {
      assert Placed(s, r);
      Moves(s, st, r);
      forall r' | Open(s', r') && r.client == r'.client ensures r == r' {
        assert Placed(s, r');
        Moves(s, st, r');
      }
      if st.Answer? { StillOpen(s, st.thread, r); }
    }
  }

  /** After an answer no open request is the answered client's. */
  lemma StillOpen(s: State, t: nat, r: Request)
    requires Inv(s) && Enabled(s, Answer(t)) && Open(After(s, Answer(t)), r)
    ensures r.client in After(s, Answer(t)).waiting
  {
    var mine := s.hands[t].req;
    assert Placed(s, r) && Placed(s, mine);
    AnswerMoves(s, t, r);
    OpenOnce(s, r);
    HandOpen(s.hands, t);
    assert Open(s, mine) && Open(s, r);
  }

  lemma {:induction false} HandOpen(hands: seq<Hand>, t: nat)
    requires t < |hands| && hands[t].Popped?
    ensures Answering(hands, hands[t].req) > 0
  {
    var n := |hands| - 1;
    if t < n { HandOpen(hands[..n], t); }
  }

  // ---- Runs ----

  lemma {:induction false} RunHolds(run: seq<State>, i: nat)
    requires Run(run) && i < |run|
    ensures Inv(run[i]) && |run[i].hands| == |run[0].hands|
  {
    if i == 0 {
      InitOk(run[0]);
    } else {
      RunHolds(run, i - 1);
      assert NextAt(run, i - 1);
      var st :| Enabled(run[i - 1], st) && run[i] == After(run[i - 1], st);
      StepKeeps(run[i - 1], st);
    }
  }

  /** Under every interleaving each pushed request is in exactly one of the queue, a thread's
      hands and the log, and nothing else is in any of them. The log is the one the server
      started with and the logged requests; a logged request has been answered. */
  lemma Conservation(s: State, r: Request)
    requires Reach(s)
    ensures Times(s.queue, r) + Holding(s.hands, r) + Times(s.logged, r) == if r in s.pushed then 1 else 0
    ensures s.node.log == s.base + Entries(s.node.term, s.logged)
    ensures r in s.logged ==> r in s.answered && r !in s.queue
    ensures r in s.answered ==> Times(s.answered, r) == 1 && r in s.pushed
  {
    var run :| Run(run) && run[|run| - 1] == s;
    RunHolds(run, |run| - 1);
    assert Placed(s, r);
    NumberedOnce(s.pushed, r);
    HoldingCovers(s.hands, r);
  }

  lemma {:induction false} HoldingCovers(hands: seq<Hand>, r: Request)
    ensures Answering(hands, r) <= Holding(hands, r)
  {
    if hands != [] { HoldingCovers(hands[..|hands| - 1], r); }
  }

  /** When the queue is empty and every thread is idle, the log has every push exactly once. */
  lemma NothingLost(s: State)
    requires Reach(s) && s.queue == [] && forall t :: 0 <= t < |s.hands| ==> s.hands[t] == Idle
    ensures multiset(s.logged) == multiset(s.pushed) == multiset(s.answered)
  {
    var run :| Run(run) && run[|run| - 1] == s;
    RunHolds(run, |run| - 1);
    forall r ensures Times(s.logged, r) == Times(s.pushed, r) == Times(s.answered, r) {
      assert Placed(s, r);
      AllIdle(s.hands, r);
    }
    SameTimes(s.logged, s.pushed);
    SameTimes(s.answered, s.pushed);
  }

  lemma SameTimes(a: seq<Request>, b: seq<Request>)
    requires forall r :: Times(a, r) == Times(b, r)
    ensures multiset(a) == multiset(b)
  {
    forall r ensures multiset(a)[r] == multiset(b)[r] { assert Times(a, r) == Times(b, r); }
  }

  // ---- Order ----

  /** The log has the requests in the order of their pushes. */
  predicate InOrder(s: State) {
    forall i, j :: 0 <= i < j < |s.logged| ==> s.logged[i].ticket < s.logged[j].ticket
  }

  /** With one thread, what was logged, held and queued follow each other. */
  predicate InLine(s: State) {
    if s.hands == [] then s.logged == []
    else |s.hands| == 1 && s.logged + (if s.hands[0].Idle? then [] else [s.hands[0].req]) + s.queue == s.pushed
  }

  lemma InLineKept(s: State, st: Step)
    requires InLine(s) && Enabled(s, st)
    ensures InLine(After(s, st))
  {}

  lemma {:induction false} OneThreadInLine(run: seq<State>, i: nat)
    requires Run(run) && i < |run| && |run[0].hands| <= 1
    ensures InLine(run[i])
  {
    if i > 0 {
      OneThreadInLine(run, i - 1);
      assert NextAt(run, i - 1);
      var st :| Enabled(run[i - 1], st) && run[i] == After(run[i - 1], st);
      InLineKept(run[i - 1], st);
    }
  }

  lemma OneThreadInOrder(s: State)
    requires Reach(s) && |s.hands| <= 1
    ensures InOrder(s)
  {
    var run :| Run(run) && run[|run| - 1] == s;
    RunHolds(run, |run| - 1);
    OneThreadInLine(run, |run| - 1);
    LineInOrder(s);
  }

  lemma LineInOrder(s: State)
    requires InLine(s) && Numbered(s)
    ensures InOrder(s)
  {
    forall i, j | 0 <= i < j < |s.logged| ensures s.logged[i].ticket < s.logged[j].ticket {
      assert s.logged[i] == s.pushed[i] && s.logged[j] == s.pushed[j];
    }
  }

  lemma ReachStep(s: State, st: Step) returns (s': State)
    requires Reach(s) && Enabled(s, st)
    ensures s' == After(s, st) && Reach(s')
  {
    s' := After(s, st);
    var run :| Run(run) && run[|run| - 1] == s;
    var run' := run + [s'];
    forall i | 0 <= i < |run'| - 1 ensures NextAt(run', i) {
      if i < |run| - 1 { assert NextAt(run, i); }
    }
    assert Run(run') && run'[|run'| - 1] == s';
  }

  /** Client 0 pushes an update, and an idle thread pops and answers it. */
  lemma TakenUp(s: State, t: nat, order: int) returns (s': State)
    requires Reach(s) && s.queue == [] && s.waiting == {} && t < |s.hands| && s.hands[t].Idle?
    ensures var r := Request(|s.pushed|, 0, 7, order);
            s' == s.(hands := s.hands[t := Answered(r)], pushed := s.pushed + [r], answered := s.answered + [r])
    ensures Reach(s')
  {
    var r := Request(|s.pushed|, 0, 7, order);
    var s1 := ReachStep(s, Push(0, 7, order));
    assert s1.queue == [r];
    var s2 := ReachStep(s1, Pop(t));
    assert s2.queue == [] && s2.hands == s.hands[t := Popped(r)];
    s' := ReachStep(s2, Answer(t));
    assert s'.waiting == {} && s'.hands == s.hands[t := Answered(r)];
  }

  /** One client pushes twice; the thread that popped second takes the server's lock first. */
  lemma Overtaken(n: NodeState, threads: nat) returns (s: State)
    requires Leads(n) && threads >= 2
    ensures Reach(s) && |s.hands| == threads && !InOrder(s)
    ensures |s.logged| == 2 && s.logged[0].client == s.logged[1].client
  {
    s := State(n, n.log, [], seq(threads, _ => Idle), {}, [], [], []);
    assert Run([s]) && [s][|[s]| - 1] == s;
    s := TakenUp(s, 0, 1);
    s := TakenUp(s, 1, 2);
    s := ReachStep(s, Append(1));
    s := ReachStep(s, Append(0));
    assert s.logged[0].ticket == 1 && s.logged[1].ticket == 0;
  }

  /** The log keeps the order of the pushes, on every run, exactly when there is at most one
      leader thread; with more, even one client's two updates can change places. */
  lemma OrderExactly(n: NodeState, threads: nat)
    requires Leads(n)
    ensures (forall s :: Reach(s) && |s.hands| == threads ==> InOrder(s)) <==> threads <= 1
  {
    if threads <= 1 {
      forall s | Reach(s) && |s.hands| == threads ensures InOrder(s) { OneThreadInOrder(s); }
    } else {
      var s := Overtaken(n, threads);
    }
  }
}
