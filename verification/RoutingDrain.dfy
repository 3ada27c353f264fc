/** Progress of the routing protocol once clients stop sending: every service step lowers
    a measure, and a service step is possible unless everything has been served or the
    distributor and a server block each other, which takes more records in flight to one
    server than both its streams can hold. */
module RoutingDrain {
  import opened Common
  import opened Wire
  import opened Routing
  import opened RoutingSafety
  import opened RoutingStartup

  ghost function ConnWeight(c: Conn): nat {
    2 * |c.inbox| + if c.eof then 1 else 0
  }

  ghost function ConnsWeight(conns: seq<Conn>): nat {
    if conns == [] then 0 else ConnsWeight(conns[..|conns| - 1]) + ConnWeight(conns[|conns| - 1])
  }

  ghost function HandWeight(h: Hand): nat {
    match h
    case Free => 0
    case Halted => 0
    case Holding(_, _) => 6
    case Routed(_, _, _) => 5
    case Refusing(_) => 1
    case Replying(_, _) => 1
  }

  ghost function ChanWeight(c: Channel): nat {
    4 * |c.req| + (if c.work.Some? then 3 else 0) + 2 * |c.rep|
  }

  ghost function ChansWeight(chan: seq<Channel>): nat
    requires |chan| == SERVERS_NUM
  {
    ChanWeight(chan[0]) + ChanWeight(chan[1]) + ChanWeight(chan[2]) + ChanWeight(chan[3])
  }

  ghost predicate ConnReady(f: Front, fd: int) {
    f.Find(fd).Some? && var c := f.conns[f.Find(fd).value]; c.inbox != [] || c.eof
  }

  /** Looking at the event moves neither a request nor a reply. */
  ghost predicate Idle(cfg: Config, f: Front, ev: Event) {
    ev.fd == cfg.listenFd || !ev.readable || (ev.fd !in cfg.serverFd && !ConnReady(f, ev.fd))
  }

  ghost function IdleCount(cfg: Config, f: Front, evs: seq<Event>): nat {
    if evs == [] then 0 else (if Idle(cfg, f, evs[0]) then 1 else 0) + IdleCount(cfg, f, evs[1..])
  }

  ghost function Load(s: State): nat
    requires |s.chan| == SERVERS_NUM
  {
    ConnsWeight(s.front.conns) + HandWeight(s.hand) + ChansWeight(s.chan)
  }

  ghost function Measure(cfg: Config, s: State): nat
    requires |s.chan| == SERVERS_NUM
  {
    2 * (Load(s) + 2 * IdleCount(cfg, s.front, s.front.batch))
    + if s.hand.Free? && s.front.batch == [] then 1 else 0
  }

  /** Steps taken without new input and without failures of the kernel. */
  ghost predicate Service(cfg: Config, s: State, l: Label) {
    match l
    case Poll(evs) => forall i :: 0 <= i < |evs| ==> !Idle(cfg, s.front, evs[i])
    case ReadClient(reset) => !reset
    case Forward(ok) => ok
    case ClientSend(_, _) => false
    case ClientFinish(_) => false
    case Accept(_) => false
    case Exit => false
    case _ => true
  }

  lemma {:induction false} ConnsWeightUpdate(conns: seq<Conn>, i: nat, c: Conn)
    requires i < |conns|
    ensures ConnsWeight(conns[i := c]) + ConnWeight(conns[i]) == ConnsWeight(conns) + ConnWeight(c)
  {
    var n := |conns| - 1;
    if i == n {
      assert conns[i := c][..n] == conns[..n];
    } else {
      ConnsWeightUpdate(conns[..n], i, c);
      assert conns[i := c][..n] == conns[..n][i := c];
    }
  }

  lemma {:induction false} IdleCountSame(cfg: Config, f: Front, g: Front, evs: seq<Event>)
    requires forall i :: 0 <= i < |evs| ==> Idle(cfg, f, evs[i]) == Idle(cfg, g, evs[i])
    ensures IdleCount(cfg, f, evs) == IdleCount(cfg, g, evs)
  {
    if evs != [] {
      IdleCountSame(cfg, f, g, evs[1..]);
    }
  }

  lemma {:induction false} IdleCountZero(cfg: Config, f: Front, evs: seq<Event>)
    requires forall i :: 0 <= i < |evs| ==> !Idle(cfg, f, evs[i])
    ensures IdleCount(cfg, f, evs) == 0
  {
    if evs != [] {
      IdleCountZero(cfg, f, evs[1..]);
    }
  }

  /** Reading, closing or answering one client leaves the other events as they were. */
  lemma IdleElsewhere(cfg: Config, s: State, l: Label, ev: Event)
    requires |s.chan| == SERVERS_NUM && Enabled(cfg, s, l) && Service(cfg, s, l) && OpenOk(cfg, s.front)
    requires l.ReadClient? ==> ev.fd != s.front.batch[0].fd
    ensures Idle(cfg, Apply(cfg, s, l).front, ev) == Idle(cfg, s.front, ev)
  {
  }

  lemma ReadLoad(cfg: Config, s: State)
    requires Inv(cfg, s) && Enabled(cfg, s, ReadClient(false))
    ensures Load(Apply(cfg, s, ReadClient(false)))
         <= Load(s) + if Idle(cfg, s.front, s.front.batch[0]) then 1 else -1
  {
    var t := Apply(cfg, s, ReadClient(false));
    assert s.front.batch[0].fd in s.front.interest;
    var c := s.front.Find(s.front.batch[0].fd).value;
    ConnsWeightUpdate(s.front.conns, c, t.front.conns[c]);
    assert t.front.conns == s.front.conns[c := t.front.conns[c]];
  }

  lemma WriteLoad(f: Front, fd: int, r: Reply)
    ensures ConnsWeight(f.Write(fd, r).conns) == ConnsWeight(f.conns)
  {
    if f.Find(fd).Some? {
      var c := f.Find(fd).value;
      ConnsWeightUpdate(f.conns, c, f.Write(fd, r).conns[c]);
    }
  }

  ghost predicate Pops(l: Label) {
    l.SkipEvent? || l.AcceptDone? || l.ReadClient? || l.ReadServer?
  }

  lemma PopStep(cfg: Config, s: State, l: Label)
    requires Inv(cfg, s) && Enabled(cfg, s, l) && Service(cfg, s, l) && !l.Poll?
    ensures Pops(l) ==> s.front.batch != []
    ensures Apply(cfg, s, l).front.batch == if Pops(l) then s.front.batch[1..] else s.front.batch
    ensures l.SkipEvent? || l.AcceptDone? ==> Idle(cfg, s.front, s.front.batch[0])
    ensures l.ReadServer? ==> !Idle(cfg, s.front, s.front.batch[0])
  {
    assert l.ReadClient? ==> s.front.batch[0].fd in s.front.interest;
  }

  /** A step other than `epoll_wait` removes at most the event at hand from the idle ones. */
  lemma IdleStep(cfg: Config, s: State, l: Label)
    requires Inv(cfg, s) && Enabled(cfg, s, l) && Service(cfg, s, l) && !l.Poll?
    ensures Pops(l) ==> s.front.batch != []
    ensures var t := Apply(cfg, s, l);
      IdleCount(cfg, t.front, t.front.batch) + (if Pops(l) && Idle(cfg, s.front, s.front.batch[0]) then 1 else 0)
      == IdleCount(cfg, s.front, s.front.batch)
  {
    var t := Apply(cfg, s, l);
    PopStep(cfg, s, l);
    forall i | 0 <= i < |t.front.batch|
      ensures Idle(cfg, s.front, t.front.batch[i]) == Idle(cfg, t.front, t.front.batch[i])
    {
      IdleElsewhere(cfg, s, l, t.front.batch[i]);
    }
    IdleCountSame(cfg, s.front, t.front, t.front.batch);
  }

  lemma ChansWeightUpdate(chan: seq<Channel>, k: nat, c: Channel)
    requires |chan| == SERVERS_NUM && k < SERVERS_NUM
    ensures ChansWeight(chan[k := c]) + ChanWeight(chan[k]) == ChansWeight(chan) + ChanWeight(c)
  {
  }

  lemma ChanLoad(cfg: Config, s: State, l: Label)
    requires |s.chan| == SERVERS_NUM && Enabled(cfg, s, l) && HandOk(s)
    requires l == Forward(true) || l.ReadServer? || l.Take? || l.Echo?
    ensures Load(Apply(cfg, s, l)) < Load(s)
  {
    var t := Apply(cfg, s, l);
    var k := if l.Forward? then s.hand.server else if l.ReadServer? then t.hand.server else l.server;
    ChansWeightUpdate(s.chan, k, t.chan[k]);
  }

  /** Every service step that moves a record or a reply lightens the load. */
  lemma LoadStep(cfg: Config, s: State, l: Label)
    requires |s.chan| == SERVERS_NUM && Enabled(cfg, s, l) && Service(cfg, s, l) && HandOk(s)
    requires !l.Poll? && !l.ReadClient? && !l.SkipEvent? && !l.AcceptDone?
    ensures Load(Apply(cfg, s, l)) < Load(s)
  {
    if l.WriteError? || l.WriteSuccess? {
      var fd: int := if l.WriteError? then s.hand.fd else s.hand.rec.msg.fd;
      WriteLoad(s.front, fd, if l.WriteError? then Failure else Success);
    } else if l.Pick? {
    } else {
      ChanLoad(cfg, s, l);
    }
  }

  lemma QuietLoad(cfg: Config, s: State, l: Label)
    requires |s.chan| == SERVERS_NUM && Enabled(cfg, s, l)
    requires l.Poll? || l.SkipEvent? || l.AcceptDone?
    ensures Load(Apply(cfg, s, l)) == Load(s) && s.hand.Free? && Apply(cfg, s, l).hand.Free?
  {
  }

  /** Every service step lowers the measure. */
  lemma MeasureStep(cfg: Config, s: State, l: Label)
    requires Inv(cfg, s) && Enabled(cfg, s, l) && Service(cfg, s, l)
    ensures Measure(cfg, Apply(cfg, s, l)) < Measure(cfg, s)
  {
    if l.Poll? {
      QuietLoad(cfg, s, l);
      var front := Apply(cfg, s, l).front;
      forall i | 0 <= i < |l.events| ensures !Idle(cfg, front, l.events[i]) {
        assert !Idle(cfg, s.front, l.events[i]);
      }
      IdleCountZero(cfg, front, l.events);
    } else {
      IdleStep(cfg, s, l);
      PopStep(cfg, s, l);
      if l.ReadClient? {
        ReadLoad(cfg, s);
      } else if l.SkipEvent? || l.AcceptDone? {
        QuietLoad(cfg, s, l);
      } else {
        LoadStep(cfg, s, l);
      }
    }
  }

  // ----- progress -----

  /** Nothing is left to do: no unread request, no record under way, no event pending. */
  ghost predicate Quiet(s: State) {
    && s.hand.Free? && s.front.batch == []
    && (forall k :: 0 <= k < |s.chan| ==> s.chan[k] == Channel([], None, []))
    && (forall fd :: fd in s.front.open ==> !ConnReady(s.front, fd))
  }

  /** Server k waits for a request it has not got, or for room for its reply. */
  ghost predicate ServerBlocked(cfg: Config, c: Channel) {
    if c.work.None? then c.req == [] else |c.rep| >= cfg.capacity
  }

  /** The distributor is inside a `write` to a server whose request stream is full, and
      no server can make a step that would let either of them go on. */
  ghost predicate Deadlocked(cfg: Config, s: State)
    requires |s.chan| == SERVERS_NUM
  {
    && s.hand.Routed? && s.hand.server < SERVERS_NUM
    && |s.chan[s.hand.server].req| >= cfg.capacity
    && forall k :: 0 <= k < SERVERS_NUM ==> ServerBlocked(cfg, s.chan[k])
  }

  ghost predicate CanServe(cfg: Config, s: State)
    requires |s.chan| == SERVERS_NUM
  {
    exists l :: Enabled(cfg, s, l) && Service(cfg, s, l)
  }

  lemma Serves(cfg: Config, s: State, l: Label)
    requires |s.chan| == SERVERS_NUM && Enabled(cfg, s, l) && Service(cfg, s, l)
    ensures CanServe(cfg, s)
  {
  }

  lemma AtEventServes(cfg: Config, s: State)
    requires Inv(cfg, s) && AtEvent(s)
    ensures CanServe(cfg, s)
  {
    var ev := s.front.batch[0];
    if ev.fd == cfg.listenFd {
      Serves(cfg, s, AcceptDone);
    } else if !ev.readable {
      Serves(cfg, s, SkipEvent);
    } else if ev.fd in cfg.serverFd {
      Serves(cfg, s, ReadServer);
    } else {
      Serves(cfg, s, ReadClient(false));
    }
  }

  lemma WaitingServes(cfg: Config, s: State)
    requires Inv(cfg, s) && cfg.registered && s.hand.Free? && s.front.batch == []
    ensures CanServe(cfg, s) || Quiet(s)
  {
    if k :| 0 <= k < SERVERS_NUM && s.chan[k].rep != [] {
      assert ServerOf(cfg, cfg.serverFd[k]) == k;
      Serves(cfg, s, Poll([Event(cfg.serverFd[k], true)]));
    } else if k :| 0 <= k < SERVERS_NUM && s.chan[k].work.Some? {
      assert s.chan[k].rep == [];
      Serves(cfg, s, Echo(k));
    } else if k :| 0 <= k < SERVERS_NUM && s.chan[k].req != [] {
      Serves(cfg, s, Take(k));
    } else if fd :| fd in s.front.open && ConnReady(s.front, fd) {
      Serves(cfg, s, Poll([Event(fd, true)]));
    }
  }

  lemma RoutedServes(cfg: Config, s: State)
    requires Inv(cfg, s) && s.hand.Routed?
    ensures CanServe(cfg, s) || Deadlocked(cfg, s)
  {
    if |s.chan[s.hand.server].req| < cfg.capacity {
      Serves(cfg, s, Forward(true));
    } else if k :| 0 <= k < SERVERS_NUM && !ServerBlocked(cfg, s.chan[k]) {
      Serves(cfg, s, if s.chan[k].work.None? then Take(k) else Echo(k));
    }
  }

  lemma QuietBlocks(cfg: Config, s: State, l: Label)
    requires Inv(cfg, s) && Quiet(s)
    ensures Enabled(cfg, s, l) ==> !Service(cfg, s, l)
  {
    if l.Poll? && l.events != [] {
      var ev := l.events[0];
      assert ev.fd in cfg.serverFd ==> !HasReply(s.chan)[ServerOf(cfg, ev.fd)];
    }
  }

  /** While the distributor runs, a service step is possible exactly when there is
      something left to do and the deadlock has not been reached. */
  lemma ProgressExact(cfg: Config, s: State)
    requires Inv(cfg, s) && cfg.registered && !s.hand.Halted?
    ensures CanServe(cfg, s) <==> !Quiet(s) && !Deadlocked(cfg, s)
  {
    match s.hand
    case Free =>
      if s.front.batch != [] {
        AtEventServes(cfg, s);
      } else {
        WaitingServes(cfg, s);
      }
      if Quiet(s) {
        forall l ensures Enabled(cfg, s, l) ==> !Service(cfg, s, l) {
          QuietBlocks(cfg, s, l);
        }
      }
    case Holding(_, _) => Serves(cfg, s, Pick(0));
    case Routed(_, _, _) => RoutedServes(cfg, s);
    case Refusing(_) => Serves(cfg, s, WriteError);
    case Replying(_, _) => Serves(cfg, s, WriteSuccess);
  }

  /** A deadlock needs one server with both its streams full and a record in its hands;
      two stream capacities in flight per server are safe. */
  lemma DeadlockIsFull(cfg: Config, s: State)
    requires Inv(cfg, s) && Deadlocked(cfg, s)
    ensures |InFlight(s, s.hand.server)| == 2 * cfg.capacity + 1
  {
    assert ServerBlocked(cfg, s.chan[s.hand.server]);
  }

  ghost predicate ServiceRun(cfg: Config, s: State, ls: seq<Label>)
    requires |s.chan| == SERVERS_NUM
    decreases |ls|
  {
    ls == [] || (Enabled(cfg, s, ls[0]) && Service(cfg, s, ls[0]) && ServiceRun(cfg, Apply(cfg, s, ls[0]), ls[1..]))
  }

  lemma {:induction false} ServiceRunCanRun(cfg: Config, s: State, ls: seq<Label>)
    requires |s.chan| == SERVERS_NUM && ServiceRun(cfg, s, ls)
    ensures CanRun(cfg, s, ls)
    decreases |ls|
  {
    if ls != [] {
      ServiceRunCanRun(cfg, Apply(cfg, s, ls[0]), ls[1..]);
    }
  }

  /** A service step does not stop the distributor. */
  lemma StaysUp(cfg: Config, s: State, l: Label)
    requires Inv(cfg, s) && Enabled(cfg, s, l) && Service(cfg, s, l) && !s.hand.Halted?
    ensures !Apply(cfg, s, l).hand.Halted?
  {
    if l.WriteSuccess? {
      HandRecordOk(cfg, s);
    } else if l.ReadClient? {
      assert s.front.batch[0].fd in s.front.interest;
    }
  }

  lemma {:induction false} ServiceRunBound(cfg: Config, s: State, ls: seq<Label>)
    requires Inv(cfg, s) && ServiceRun(cfg, s, ls) && CanRun(cfg, s, ls) && !s.hand.Halted?
    ensures |ls| + Measure(cfg, Run(cfg, s, ls)) <= Measure(cfg, s)
    ensures Inv(cfg, Run(cfg, s, ls)) && !Run(cfg, s, ls).hand.Halted?
    decreases |ls|
  {
    if ls != [] {
      MeasureStep(cfg, s, ls[0]);
      InvStep(cfg, s, ls[0]);
      StaysUp(cfg, s, ls[0]);
      ServiceRunBound(cfg, Apply(cfg, s, ls[0]), ls[1..]);
    }
  }

  /** Once clients stop sending, from any reachable state: no service run is longer than
      the measure, and one that cannot be prolonged has answered every request, unless it
      ended with 2 * capacity + 1 records in flight to the server being written to. */
  lemma DrainsOrDeadlocks(cfg: Config, s: State, ls: seq<Label>)
    requires Inv(cfg, s) && cfg.registered && !s.hand.Halted? && ServiceRun(cfg, s, ls)
    ensures CanRun(cfg, s, ls) && |ls| <= Measure(cfg, s)
    ensures var t := Run(cfg, s, ls);
      !CanServe(cfg, t) ==>
        || (Quiet(t) && forall p :: CountSent(t.sent, p) == CountAnswered(t.answered, p))
        || (t.hand.Routed? && t.hand.server < SERVERS_NUM && |InFlight(t, t.hand.server)| == 2 * cfg.capacity + 1)
  {
    ServiceRunCanRun(cfg, s, ls);
    ServiceRunBound(cfg, s, ls);
    var t := Run(cfg, s, ls);
    ProgressExact(cfg, t);
    if Deadlocked(cfg, t) {
      DeadlockIsFull(cfg, t);
    } else if !CanServe(cfg, t) {
      forall p ensures CountSent(t.sent, p) == CountAnswered(t.answered, p) {
        CountsBalance(cfg, t, p);
        assert InFlight(t, 0) == [] && InFlight(t, 1) == [] && InFlight(t, 2) == [] && InFlight(t, 3) == [];
      }
    }
  }

  /** Such a run always exists. */
  lemma {:induction false} ServeToTheEnd(cfg: Config, s: State) returns (ls: seq<Label>)
    requires Inv(cfg, s)
    ensures ServiceRun(cfg, s, ls) && CanRun(cfg, s, ls) && !CanServe(cfg, Run(cfg, s, ls))
    decreases Measure(cfg, s)
  {
    if CanServe(cfg, s) {
      var l :| Enabled(cfg, s, l) && Service(cfg, s, l);
      MeasureStep(cfg, s, l);
      InvStep(cfg, s, l);
      var rest := ServeToTheEnd(cfg, Apply(cfg, s, l));
      ls := [l] + rest;
      assert ls[1..] == rest;
    } else {
      ls := [];
    }
  }

  // ----- few enough requests -----

  /** Whole requests in the sockets. */
  ghost function Unread(conns: seq<Conn>): nat {
    if conns == [] then 0 else Unread(conns[..|conns| - 1]) + |conns[|conns| - 1].inbox| / NORMAL_LEN
  }

  /** A request that was read and is neither forwarded nor refused. */
  ghost function HeldCount(h: Hand): nat {
    if h.Holding? || h.Routed? then 1 else 0
  }

  ghost function UnderWay(s: State): nat
    requires |s.chan| == SERVERS_NUM
  {
    |InFlight(s, 0)| + |InFlight(s, 1)| + |InFlight(s, 2)| + |InFlight(s, 3)|
  }

  /** Requests not answered yet: unread, in the distributor's hands, or under way. */
  ghost function Requests(s: State): nat
    requires |s.chan| == SERVERS_NUM
  {
    Unread(s.front.conns) + HeldCount(s.hand) + UnderWay(s)
  }

  lemma {:induction false} UnreadUpdate(conns: seq<Conn>, i: nat, c: Conn)
    requires i < |conns|
    ensures Unread(conns[i := c]) + |conns[i].inbox| / NORMAL_LEN == Unread(conns) + |c.inbox| / NORMAL_LEN
  {
    var n := |conns| - 1;
    if i == n {
      assert conns[i := c][..n] == conns[..n];
    } else {
      UnreadUpdate(conns[..n], i, c);
      assert conns[i := c][..n] == conns[..n][i := c];
    }
  }

  lemma UnreadWrite(f: Front, fd: int, r: Reply)
    ensures Unread(f.Write(fd, r).conns) == Unread(f.conns)
  {
    if f.Find(fd).Some? {
      var c := f.Find(fd).value;
      UnreadUpdate(f.conns, c, f.Write(fd, r).conns[c]);
    }
  }

  /** A read takes one whole request out of its socket, or there was none in it. */
  lemma ReadUnread(cfg: Config, s: State)
    requires Inv(cfg, s) && Enabled(cfg, s, ReadClient(false))
    ensures var t := Apply(cfg, s, ReadClient(false));
      Unread(t.front.conns) + HeldCount(t.hand) == Unread(s.front.conns) + HeldCount(s.hand)
  {
    var t := Apply(cfg, s, ReadClient(false));
    assert s.front.batch[0].fd in s.front.interest;
    var c := s.front.Find(s.front.batch[0].fd).value;
    UnreadUpdate(s.front.conns, c, t.front.conns[c]);
    assert t.front.conns == s.front.conns[c := t.front.conns[c]];
  }

  lemma ForwardLength(cfg: Config, s: State, k: nat)
    requires |s.chan| == SERVERS_NUM && Enabled(cfg, s, Forward(true)) && k < SERVERS_NUM
    ensures |InFlight(Apply(cfg, s, Forward(true)), k)| == |InFlight(s, k)| + if s.hand.server == k then 1 else 0
  {
  }

  lemma ForwardUnderWay(cfg: Config, s: State)
    requires |s.chan| == SERVERS_NUM && Enabled(cfg, s, Forward(true))
    ensures UnderWay(Apply(cfg, s, Forward(true))) == UnderWay(s) + 1
  {
    ForwardLength(cfg, s, 0);
    ForwardLength(cfg, s, 1);
    ForwardLength(cfg, s, 2);
    ForwardLength(cfg, s, 3);
  }

  lemma AnswerLength(cfg: Config, s: State, k: nat)
    requires |s.chan| == SERVERS_NUM && s.hand.Replying? && s.hand.rec.msg.fd > 0 && k < SERVERS_NUM
    ensures |InFlight(Apply(cfg, s, WriteSuccess), k)| + (if s.hand.server == k then 1 else 0) == |InFlight(s, k)|
  {
  }

  lemma AnswerUnderWay(cfg: Config, s: State)
    requires |s.chan| == SERVERS_NUM && HandOk(s) && s.hand.Replying? && s.hand.rec.msg.fd > 0
    ensures UnderWay(Apply(cfg, s, WriteSuccess)) + 1 == UnderWay(s)
  {
    AnswerLength(cfg, s, 0);
    AnswerLength(cfg, s, 1);
    AnswerLength(cfg, s, 2);
    AnswerLength(cfg, s, 3);
  }

  lemma SameUnderWay(cfg: Config, s: State, l: Label)
    requires |s.chan| == SERVERS_NUM && Enabled(cfg, s, l) && l != Forward(true) && !l.WriteSuccess?
    ensures UnderWay(Apply(cfg, s, l)) == UnderWay(s)
  {
    InFlightStep(cfg, s, l, 0);
    InFlightStep(cfg, s, l, 1);
    InFlightStep(cfg, s, l, 2);
    InFlightStep(cfg, s, l, 3);
  }

  lemma OtherUnread(cfg: Config, s: State, l: Label)
    requires |s.chan| == SERVERS_NUM && Enabled(cfg, s, l) && Service(cfg, s, l)
    requires !l.ReadClient? && !l.WriteError? && !l.WriteSuccess?
    ensures var t := Apply(cfg, s, l);
      && t.front.conns == s.front.conns
      && HeldCount(t.hand) + (if l == Forward(true) then 1 else 0) == HeldCount(s.hand)
  {
  }

  /** No service step makes the unanswered requests more. */
  lemma RequestsStep(cfg: Config, s: State, l: Label)
    requires Inv(cfg, s) && Enabled(cfg, s, l) && Service(cfg, s, l)
    ensures Requests(Apply(cfg, s, l)) <= Requests(s)
  {
    if l.ReadClient? {
      ReadUnread(cfg, s);
      SameUnderWay(cfg, s, l);
    } else if l.WriteError? {
      UnreadWrite(s.front, s.hand.fd, Failure);
      SameUnderWay(cfg, s, l);
    } else if l.WriteSuccess? {
      HandRecordOk(cfg, s);
      UnreadWrite(s.front, s.hand.rec.msg.fd, Success);
      AnswerUnderWay(cfg, s);
    } else {
      OtherUnread(cfg, s, l);
      if l.Forward? {
        ForwardUnderWay(cfg, s);
      } else {
        SameUnderWay(cfg, s, l);
      }
    }
  }

  lemma {:induction false} RequestsRun(cfg: Config, s: State, ls: seq<Label>)
    requires Inv(cfg, s) && ServiceRun(cfg, s, ls) && CanRun(cfg, s, ls)
    ensures Requests(Run(cfg, s, ls)) <= Requests(s)
    decreases |ls|
  {
    if ls != [] {
      RequestsStep(cfg, s, ls[0]);
      InvStep(cfg, s, ls[0]);
      RequestsRun(cfg, Apply(cfg, s, ls[0]), ls[1..]);
    }
  }

  /** From any reachable state with at most 2 * capacity + 1 requests unread, in hand and under
      way together: with no new input every service run that cannot go on has answered
      every request. */
  lemma FewAllAnswered(cfg: Config, s: State, ls: seq<Label>)
    requires Inv(cfg, s) && cfg.registered && !s.hand.Halted? && ServiceRun(cfg, s, ls)
    requires Requests(s) <= 2 * cfg.capacity + 1
    ensures CanRun(cfg, s, ls) && |ls| <= Measure(cfg, s)
    ensures var t := Run(cfg, s, ls);
      !CanServe(cfg, t) ==> Quiet(t) && forall p :: CountSent(t.sent, p) == CountAnswered(t.answered, p)
  {
    DrainsOrDeadlocks(cfg, s, ls);
    RequestsRun(cfg, s, ls);
    var t := Run(cfg, s, ls);
    assert t.hand.Routed? && t.hand.server < SERVERS_NUM ==> Requests(t) >= 1 + |InFlight(t, t.hand.server)|;
  }

  // ----- the deadlock is for good -----

  /** Whatever clients, kernel and servers do: unless the write the distributor stands in
      fails, nothing moves any more. */
  lemma DeadlockStays(cfg: Config, s: State, l: Label)
    requires |s.chan| == SERVERS_NUM && Deadlocked(cfg, s) && Enabled(cfg, s, l) && l != Forward(false)
    ensures var t := Apply(cfg, s, l);
      && Deadlocked(cfg, t) && t.hand == s.hand && t.chan == s.chan
      && t.sent == s.sent && t.answered == s.answered
  {
  }

  lemma {:induction false} DeadlockForGood(cfg: Config, s: State, ls: seq<Label>)
    requires |s.chan| == SERVERS_NUM && Deadlocked(cfg, s) && CanRun(cfg, s, ls)
    requires forall i :: 0 <= i < |ls| ==> ls[i] != Forward(false)
    ensures var t := Run(cfg, s, ls);
      && Deadlocked(cfg, t) && t.hand == s.hand && t.chan == s.chan
      && t.sent == s.sent && t.answered == s.answered
    decreases |ls|
  {
    if ls != [] {
      DeadlockStays(cfg, s, ls[0]);
      DeadlockForGood(cfg, Apply(cfg, s, ls[0]), ls[1..]);
    }
  }

  // ----- the bound is tight -----

  /** A run that ends between two batches, with the client on fd having n requests unread
      and every server but server 0 out of work. */
  ghost predicate Waiting(cfg: Config, ls: seq<Label>, s: State, fd: int32, n: nat) {
    && CanRun(cfg, Init(cfg), ls) && Run(cfg, Init(cfg), ls) == s && Inv(cfg, s)
    && s.hand.Free? && s.front.batch == [] && fd in s.front.open
    && |s.front.conns[s.front.open[fd]].inbox| == NORMAL_LEN * n
    && (forall k :: 1 <= k < SERVERS_NUM ==> s.chan[k] == Channel([], None, []))
  }

  lemma FillOne(cfg: Config, ls: seq<Label>, s: State, fd: int32, n: nat) returns (ls': seq<Label>, t: State)
    requires Waiting(cfg, ls, s, fd, n + 1) && |s.chan[0].req| < cfg.capacity
    ensures Waiting(cfg, ls', t, fd, n)
    ensures t.chan[0].work == s.chan[0].work && t.chan[0].rep == s.chan[0].rep
    ensures |t.chan[0].req| == |s.chan[0].req| + 1
  {
    ls', t := ForwardOne(cfg, ls, s, fd, 0);
    InvFromStart(cfg, ls');
  }

  lemma {:induction false} FillRequests(cfg: Config, ls: seq<Label>, s: State, fd: int32, m: nat, n: nat)
    returns (ls': seq<Label>, t: State)
    requires Waiting(cfg, ls, s, fd, m + n) && |s.chan[0].req| + m <= cfg.capacity
    ensures Waiting(cfg, ls', t, fd, n)
    ensures t.chan[0].work == s.chan[0].work && t.chan[0].rep == s.chan[0].rep
    ensures |t.chan[0].req| == |s.chan[0].req| + m
    decreases m
  {
    ls', t := ls, s;
    if m > 0 {
      ls', t := FillOne(cfg, ls, s, fd, m - 1 + n);
      ls', t := FillRequests(cfg, ls', t, fd, m - 1, n);
    }
  }

  lemma TakeOne(cfg: Config, ls: seq<Label>, s: State, fd: int32, n: nat) returns (ls': seq<Label>, t: State)
    requires Waiting(cfg, ls, s, fd, n) && s.chan[0].req != [] && s.chan[0].work.None?
    ensures Waiting(cfg, ls', t, fd, n)
    ensures t.chan[0].work.Some? && t.chan[0].rep == s.chan[0].rep && t.chan[0].req == s.chan[0].req[1..]
  {
    ls', t := Extend(cfg, ls, s, Take(0));
    InvStep(cfg, s, Take(0));
  }

  lemma ReturnOne(cfg: Config, ls: seq<Label>, s: State, fd: int32, n: nat) returns (ls': seq<Label>, t: State)
    requires Waiting(cfg, ls, s, fd, n) && s.chan[0].work.Some? && |s.chan[0].rep| < cfg.capacity
    ensures Waiting(cfg, ls', t, fd, n)
    ensures t.chan[0].work.None? && |t.chan[0].rep| == |s.chan[0].rep| + 1 && t.chan[0].req == s.chan[0].req
  {
    ls', t := Extend(cfg, ls, s, Echo(0));
    InvStep(cfg, s, Echo(0));
  }

  lemma {:induction false} FillReplies(cfg: Config, ls: seq<Label>, s: State, fd: int32, m: nat, n: nat)
    returns (ls': seq<Label>, t: State)
    requires Waiting(cfg, ls, s, fd, m + n) && |s.chan[0].rep| + m <= cfg.capacity
    requires s.chan[0].req == [] && s.chan[0].work.None?
    ensures Waiting(cfg, ls', t, fd, n)
    ensures |t.chan[0].rep| == |s.chan[0].rep| + m && t.chan[0].req == [] && t.chan[0].work.None?
    decreases m
  {
    ls', t := ls, s;
    if m > 0 {
      ls', t := FillOne(cfg, ls, s, fd, m - 1 + n);
      ls', t := TakeOne(cfg, ls', t, fd, m - 1 + n);
      ls', t := ReturnOne(cfg, ls', t, fd, m - 1 + n);
      ls', t := FillReplies(cfg, ls', t, fd, m - 1, n);
    }
  }

  lemma Prolific(cfg: Config, fd: int32, n: nat) returns (ls: seq<Label>, s: State)
    requires FreeFd(cfg, fd)
    ensures Waiting(cfg, ls, s, fd, n) && s.chan[0] == Channel([], None, [])
  {
    InitInv(cfg);
    ls, s := RequestOne(cfg, [], Init(cfg), fd, seq(NORMAL_LEN * n, i => 0));
  }

  lemma FillServer(cfg: Config, fd: int32) returns (ls: seq<Label>, s: State)
    requires FreeFd(cfg, fd)
    ensures Waiting(cfg, ls, s, fd, 1)
    ensures |s.chan[0].req| == |s.chan[0].rep| == cfg.capacity && s.chan[0].work.Some?
  {
    var n := cfg.capacity;
    ls, s := Prolific(cfg, fd, n + (1 + (n + 1)));
    ls, s := FillReplies(cfg, ls, s, fd, n, 1 + (n + 1));
    ls, s := FillOne(cfg, ls, s, fd, n + 1);
    ls, s := TakeOne(cfg, ls, s, fd, n + 1);
    ls, s := FillRequests(cfg, ls, s, fd, n, 1);
  }

  lemma RouteOne(cfg: Config, ls: seq<Label>, s: State, fd: int32, n: nat) returns (ls': seq<Label>, t: State)
    requires Waiting(cfg, ls, s, fd, n + 1)
    ensures CanRun(cfg, Init(cfg), ls') && Run(cfg, Init(cfg), ls') == t
    ensures t.chan == s.chan && t.hand.Routed? && t.hand.server == 0
  {
    ls', t := Extend(cfg, ls, s, Poll([Event(fd, true)]));
    ls', t := Extend(cfg, ls', t, ReadClient(false));
    ls', t := Extend(cfg, ls', t, Pick(0));
  }

  /** For every stream capacity the deadlock is reached by one client with two capacities
      and two requests, so no larger number of records in flight per server is safe. */
  lemma DeadlockReachable(cfg: Config, fd: int32) returns (ls: seq<Label>)
    requires FreeFd(cfg, fd)
    ensures CanRun(cfg, Init(cfg), ls) && Deadlocked(cfg, Run(cfg, Init(cfg), ls))
  {
    var s: State;
    ls, s := FillServer(cfg, fd);
    ls, s := RouteOne(cfg, ls, s, fd, 0);
  }
}
