/** Three facts that need a concrete run or a concrete start: a reply can reach a stranger,
    a reply can be read at all exactly when the servers are in the epoll set, and with the
    start-up as written every server stalls for good after a bounded number of forwards. */
module RoutingStartup {
  import opened Common
  import opened Wire
  import opened Routing
  import opened RoutingSafety
  import opened RoutingDelivery

  /** A run, and the same run with one more step. */
  lemma Extend(cfg: Config, ls: seq<Label>, s: State, l: Label) returns (ls': seq<Label>, t: State)
    requires CanRun(cfg, Init(cfg), ls) && Run(cfg, Init(cfg), ls) == s && Enabled(cfg, s, l)
    ensures CanRun(cfg, Init(cfg), ls') && Run(cfg, Init(cfg), ls') == t
    ensures t == Apply(cfg, s, l) && ls' == ls + [l]
  {
    ls', t := ls + [l], Apply(cfg, s, l);
    RunAppend(cfg, Init(cfg), ls, l);
  }

  /** One request of client fd, read from its inbox, is forwarded to server k. */
  lemma ForwardOne(cfg: Config, ls: seq<Label>, s: State, fd: int32, k: nat) returns (ls': seq<Label>, t: State)
    requires CanRun(cfg, Init(cfg), ls) && Run(cfg, Init(cfg), ls) == s && Inv(cfg, s)
    requires s.hand.Free? && s.front.batch == [] && fd in s.front.open
    requires |s.front.conns[s.front.open[fd]].inbox| >= NORMAL_LEN
    requires k < SERVERS_NUM && |s.chan[k].req| < cfg.capacity
    ensures CanRun(cfg, Init(cfg), ls') && Run(cfg, Init(cfg), ls') == t
    ensures var c := s.front.open[fd]; var conn := s.front.conns[c];
      var rec := Record(Message(fd, conn.inbox[..NORMAL_LEN]), c, |s.sent|);
      t == s.(front := s.front.(conns := s.front.conns[c := conn.(inbox := conn.inbox[NORMAL_LEN..])]),
              chan := s.chan[k := s.chan[k].(req := s.chan[k].req + [rec])],
              sent := s.sent + [Forwarded(k, rec)])
    ensures ls' == ls + [Poll([Event(fd, true)]), ReadClient(false), Pick(k), Forward(true)]
  {
    ls', t := ls, s;
    ls', t := Extend(cfg, ls', t, Poll([Event(fd, true)]));
    ls', t := Extend(cfg, ls', t, ReadClient(false));
    ls', t := Extend(cfg, ls', t, Pick(k));
    ls', t := Extend(cfg, ls', t, Forward(true));
  }

  /** A server echoes the only request it has. */
  lemma EchoOne(cfg: Config, ls: seq<Label>, s: State, k: nat) returns (ls': seq<Label>, t: State)
    requires CanRun(cfg, Init(cfg), ls) && Run(cfg, Init(cfg), ls) == s && |s.chan| == SERVERS_NUM
    requires k < SERVERS_NUM && |s.chan[k].req| == 1 && s.chan[k].work.None? && s.chan[k].rep == []
    ensures CanRun(cfg, Init(cfg), ls') && Run(cfg, Init(cfg), ls') == t
    ensures t == s.(chan := s.chan[k := Channel([], None, s.chan[k].req)])
    ensures ls' == ls + [Take(k), Echo(k)]
  {
    assert s.chan[k].req == [s.chan[k].req[0]] && s.chan[k].req[1..] == [];
    ls', t := Extend(cfg, ls, s, Take(k));
    assert t.chan[k] == Channel([], Some(s.chan[k].req[0]), []);
    ls', t := Extend(cfg, ls', t, Echo(k));
    assert t.chan[k] == Channel([], None, s.chan[k].req);
    assert t.chan == s.chan[k := Channel([], None, s.chan[k].req)];
  }

  /** The oldest reply of server k is read and answered. */
  lemma AnswerOne(cfg: Config, ls: seq<Label>, s: State, k: nat) returns (ls': seq<Label>, t: State)
    requires CanRun(cfg, Init(cfg), ls) && Run(cfg, Init(cfg), ls) == s && Inv(cfg, s) && cfg.registered
    requires s.hand.Free? && s.front.batch == [] && k < SERVERS_NUM && s.chan[k].rep != []
    requires s.chan[k].rep[0].msg.fd > 0
    ensures CanRun(cfg, Init(cfg), ls') && Run(cfg, Init(cfg), ls') == t
    ensures var rec := s.chan[k].rep[0];
      t.answered == s.answered + [Answer(k, rec, s.front.Find(rec.msg.fd))]
      && t.hand.Free? && t.front == s.front.Write(rec.msg.fd, Success) && t.sent == s.sent
    ensures ls' == ls + [Poll([Event(cfg.serverFd[k], true)]), ReadServer, WriteSuccess]
  {
    ls', t := ls, s;
    ls', t := Extend(cfg, ls', t, Poll([Event(cfg.serverFd[k], true)]));
    assert AtServer(cfg, t) && ServerOf(cfg, cfg.serverFd[k]) == k;
    ls', t := Extend(cfg, ls', t, ReadServer);
    ls', t := Extend(cfg, ls', t, WriteSuccess);
  }

  ghost predicate FreeFd(cfg: Config, fd: int32) {
    fd >= 0 && fd !in cfg.reserved
  }

  /** A client is accepted on a descriptor that is free. */
  lemma AcceptOne(cfg: Config, ls: seq<Label>, s: State, fd: int32) returns (ls': seq<Label>, t: State)
    requires CanRun(cfg, Init(cfg), ls) && Run(cfg, Init(cfg), ls) == s && Inv(cfg, s)
    requires s.hand.Free? && s.front.batch == [] && FreeFd(cfg, fd) && fd !in s.front.open
    ensures CanRun(cfg, Init(cfg), ls') && Run(cfg, Init(cfg), ls') == t
    ensures t == s.(front := s.front.Accept(fd)) && Inv(cfg, t)
    ensures ls' == ls + [Poll([Event(cfg.listenFd, true)]), Accept(fd), AcceptDone]
  {
    ls', t := ls, s;
    ls', t := Extend(cfg, ls', t, Poll([Event(cfg.listenFd, true)]));
    ls', t := Extend(cfg, ls', t, Accept(fd));
    ls', t := Extend(cfg, ls', t, AcceptDone);
    InvFromStart(cfg, ls');
  }

  /** Nobody but the first client ever sends anything. */
  ghost predicate OnlyFirstSends(ls: seq<Label>) {
    forall i :: 0 <= i < |ls| && ls[i].ClientSend? ==> ls[i].conn == 0
  }

  ghost function FirstRecord(fd: int32, data: Payload): Record {
    Record(Message(fd, data), 0, 0)
  }

  /** A client is accepted on a free descriptor and sends its bytes. */
  lemma RequestOne(cfg: Config, ls: seq<Label>, s: State, fd: int32, data: seq<byte>)
    returns (ls': seq<Label>, t: State)
    requires CanRun(cfg, Init(cfg), ls) && Run(cfg, Init(cfg), ls) == s && Inv(cfg, s)
    requires s.hand.Free? && s.front.batch == [] && FreeFd(cfg, fd) && fd !in s.front.open
    ensures CanRun(cfg, Init(cfg), ls') && Run(cfg, Init(cfg), ls') == t && Inv(cfg, t)
    ensures var f := s.front;
      t == s.(front := Front(f.conns + [Conn(fd, data, false, [])], f.open[fd as int := |f.conns|],
                             f.interest + {fd as int}, []))
    ensures ls' == ls + [Poll([Event(cfg.listenFd, true)]), Accept(fd), AcceptDone, ClientSend(|s.front.conns|, data)]
  {
    ls', t := AcceptOne(cfg, ls, s, fd);
    var u := t;
    ls', t := Extend(cfg, ls', t, ClientSend(|s.front.conns|, data));
    assert [] + data == data;
    InvStep(cfg, u, ClientSend(|s.front.conns|, data));
  }

  /** One client, accepted on fd; its only request is in the distributor's hands. */
  lemma OneHeld(cfg: Config, fd: int32, data: Payload) returns (ls: seq<Label>, s: State)
    requires FreeFd(cfg, fd)
    ensures CanRun(cfg, Init(cfg), ls) && Run(cfg, Init(cfg), ls) == s
    ensures forall i :: 0 <= i < |ls| ==> !ls[i].Pick? && !ls[i].Forward?
    ensures s.hand == Holding(Message(fd, data), 0) && s.sent == [] && s.chan == Init(cfg).chan
  {
    InitInv(cfg);
    ls, s := RequestOne(cfg, [], Init(cfg), fd, data);
    assert data[..NORMAL_LEN] == data;
    ls, s := Extend(cfg, ls, s, Poll([Event(fd, true)]));
    ls, s := Extend(cfg, ls, s, ReadClient(false));
  }

  /** One client, accepted on fd; its only request went through server 0 and waits there
      to be read by the distributor. */
  lemma OneEchoed(cfg: Config, fd: int32, data: Payload) returns (ls: seq<Label>, s: State)
    requires FreeFd(cfg, fd)
    ensures CanRun(cfg, Init(cfg), ls) && Run(cfg, Init(cfg), ls) == s && Inv(cfg, s)
    ensures s.hand.Free? && s.front.batch == [] && s.answered == []
    ensures s.front.conns == [Conn(fd, [], false, [])] && s.front.open == map[fd as int := 0]
    ensures s.chan[0] == Channel([], None, [FirstRecord(fd, data)])
    ensures OnlyFirstSends(ls)
  {
    InitInv(cfg);
    ls, s := RequestOne(cfg, [], Init(cfg), fd, data);
    assert data[..NORMAL_LEN] == data && data[NORMAL_LEN..] == [];
    ls, s := ForwardOne(cfg, ls, s, fd, 0);
    assert s.chan[0] == Channel([FirstRecord(fd, data)], None, []);
    ls, s := EchoOne(cfg, ls, s, 0);
    InvFromStart(cfg, ls);
  }

  /** The client has gone while its request is pending. */
  lemma OneGone(cfg: Config, fd: int32, data: Payload) returns (ls: seq<Label>, s: State)
    requires FreeFd(cfg, fd)
    ensures CanRun(cfg, Init(cfg), ls) && Run(cfg, Init(cfg), ls) == s && Inv(cfg, s) && OnlyFirstSends(ls)
    ensures s.hand.Free? && s.front.batch == [] && s.answered == [] && |s.front.conns| == 1 && fd !in s.front.open
    ensures s.chan[0] == Channel([], None, [FirstRecord(fd, data)])
  {
    ls, s := OneEchoed(cfg, fd, data);
    ls, s := Extend(cfg, ls, s, ClientFinish(0));
    ls, s := Extend(cfg, ls, s, Poll([Event(fd, true)]));
    ls, s := Extend(cfg, ls, s, ReadClient(false));
    InvFromStart(cfg, ls);
  }

  /** And another one has its descriptor. */
  lemma OneReplaced(cfg: Config, fd: int32, data: Payload) returns (ls: seq<Label>, s: State)
    requires FreeFd(cfg, fd)
    ensures CanRun(cfg, Init(cfg), ls) && Run(cfg, Init(cfg), ls) == s && Inv(cfg, s) && OnlyFirstSends(ls)
    ensures s.hand.Free? && s.front.batch == [] && s.answered == [] && s.front.Find(fd) == Some(1)
    ensures s.chan[0] == Channel([], None, [FirstRecord(fd, data)])
  {
    ls, s := OneGone(cfg, fd, data);
    ls, s := AcceptOne(cfg, ls, s, fd);
  }

  /** As written, a connection may close while its request is pending and its descriptor
      may be handed out again: the reply then goes to a client that asked for nothing. */
  lemma ReplyToStranger(cfg: Config, fd: int32, data: Payload) returns (ls: seq<Label>)
    requires FreeFd(cfg, fd) && cfg.registered
    ensures CanRun(cfg, Init(cfg), ls) && OnlyFirstSends(ls)
    ensures Run(cfg, Init(cfg), ls).answered == [Answer(0, FirstRecord(fd, data), Some(1))]
  {
    var s: State;
    ls, s := OneReplaced(cfg, fd, data);
    ls, s := AnswerOne(cfg, ls, s, 0);
  }

  // ----- the start-up as written -----

  /** Without the servers in the epoll set no reply is ever read, whatever happens. */
  lemma {:induction false} NeverAnswers(cfg: Config, s: State, ls: seq<Label>)
    requires Inv(cfg, s) && CanRun(cfg, s, ls) && !cfg.registered
    requires s.answered == [] && !s.hand.Replying?
    ensures Run(cfg, s, ls).answered == [] && !Run(cfg, s, ls).hand.Replying?
    decreases |ls|
  {
    if ls != [] {
      InvStep(cfg, s, ls[0]);
      assert AtEvent(s) ==> s.front.batch[0].fd in s.front.interest;
      NeverAnswers(cfg, Apply(cfg, s, ls[0]), ls[1..]);
    }
  }

  /** As the program stands (the servers' descriptors are never added to the epoll set),
      no client ever gets a success, and each server can be sent at most two stream
      capacities and one record before the next write to it blocks for ever. */
  lemma AsWritten(cfg: Config, ls: seq<Label>, k: nat)
    requires !cfg.registered && CanRun(cfg, Init(cfg), ls) && k < SERVERS_NUM
    ensures var s := Run(cfg, Init(cfg), ls);
      && s.answered == []
      && SentTo(s.sent, k) == InFlight(s, k)
      && |SentTo(s.sent, k)| <= 2 * cfg.capacity + 1
      && forall c :: Received(s, c, Success) == 0
  {
    var s := Run(cfg, Init(cfg), ls);
    InitInv(cfg);
    InvRun(cfg, Init(cfg), ls);
    NeverAnswers(cfg, Init(cfg), ls);
    assert Conserved(s, k);
    forall c ensures Received(s, c, Success) == 0 {
      RepliesFromStart(cfg, ls, c);
    }
  }

  /** Both streams of server k are full and it has a record in its hands. */
  ghost predicate Full(cfg: Config, c: Channel) {
    |c.req| >= cfg.capacity && c.work.Some? && |c.rep| >= cfg.capacity
  }

  lemma FullStays(cfg: Config, s: State, l: Label, k: nat)
    requires |s.chan| == SERVERS_NUM && BatchOk(cfg, s) && InterestOk(cfg, s.front) && OpenOk(cfg, s.front)
    requires !cfg.registered && Enabled(cfg, s, l) && k < SERVERS_NUM && Full(cfg, s.chan[k])
    ensures Apply(cfg, s, l).chan[k] == s.chan[k]
  {
    assert AtEvent(s) ==> s.front.batch[0].fd in s.front.interest;
  }

  /** As the program stands, a server that is full stays full whatever anybody does: no
      further write to it ever succeeds. */
  lemma {:induction false} FullForGood(cfg: Config, s: State, ls: seq<Label>, k: nat)
    requires Inv(cfg, s) && CanRun(cfg, s, ls) && !cfg.registered && k < SERVERS_NUM && Full(cfg, s.chan[k])
    ensures Run(cfg, s, ls).chan[k] == s.chan[k]
    ensures var t := Run(cfg, s, ls);
      t.hand.Routed? && t.hand.server == k ==> !Enabled(cfg, t, Forward(true))
    decreases |ls|
  {
    if ls != [] {
      FullStays(cfg, s, ls[0], k);
      InvStep(cfg, s, ls[0]);
      FullForGood(cfg, Apply(cfg, s, ls[0]), ls[1..], k);
    }
  }

  /** Some run reaches a success reply exactly when the servers are in the epoll set. */
  lemma SuccessNeedsRegistration(cfg: Config, fd: int32, data: Payload)
    requires FreeFd(cfg, fd)
    ensures cfg.registered <==> exists ls :: CanRun(cfg, Init(cfg), ls) && Run(cfg, Init(cfg), ls).answered != []
  {
    if cfg.registered {
      var ls := ReplyToStranger(cfg, fd, data);
      assert Run(cfg, Init(cfg), ls).answered != [];
    } else {
      forall ls | CanRun(cfg, Init(cfg), ls) ensures Run(cfg, Init(cfg), ls).answered == [] {
        AsWritten(cfg, ls, 0);
      }
    }
  }
}
