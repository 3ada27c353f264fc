/** One request through the objects: a client is admitted, sends, is served by one of the four
    servers and gets its reply. Clients and servers move by steps of the environment, the
    distributor by its own methods, so every branch of its loop is reached. */
module OneRequest {
  import opened Common
  import opened Wire
  import opened Routing
  import opened RoutingSafety
  import opened RoutingStartup
  import opened ByteRouting
  import opened DistributorThread

  /** No help from the environment, no failure, server k. */
  function Plainly(accepted: seq<int32>, k: nat): Choice {
    Choice([], accepted, false, k, [], true)
  }

  lemma ListenerScript(cfg: Config, b: ByteState, fd: int32, k: nat)
    requires |b.chan| == SERVERS_NUM && AtByteEvent(b) && b.front.batch[0].fd == cfg.listenFd && k < SERVERS_NUM
    requires Grantable(cfg, b.front, fd)
    ensures EventScript(cfg, b, Plainly([fd], k)) == [Accept(fd), AcceptDone]
  {
    assert [fd][1..] == [] && Granted(cfg, b.front.Accept(fd), []) == 0;
    assert [fd][..1] == [fd];
    assert Accepts([fd]) == [Accept(fd)];
  }

  lemma RequestScript(cfg: Config, b: ByteState, k: nat)
    requires |b.chan| == SERVERS_NUM && AtByteClient(cfg, b) && k < SERVERS_NUM
    requires ReadRequest(b.front, false).1.Full? && Room(cfg, b.chan[k].req)
    ensures EventScript(cfg, b, Plainly([], k)) == [ReadClient(false), Pick(k), Forward(true)]
    ensures !ClientBlocks(cfg, b, Plainly([], k))
  {
    var w := AtWrite(cfg, b, Plainly([], k));
    assert AfterEnv(cfg, w, []) == w && EnvScript(cfg, w, []) == [] && w.chan == b.chan;
    assert ForwardScript(cfg, w, true, []) == [Forward(true)];
  }

  lemma HasRoom(cfg: Config, b: ByteState, s: State, k: nat)
    requires Refines(b, s) && k < SERVERS_NUM
    ensures Room(cfg, b.chan[k].req) <==> |s.chan[k].req| < cfg.capacity
    ensures b.chan[k].rep != [] <==> s.chan[k].rep != []
  {
    assert ChannelRefines(b.chan[k], s.chan[k]);
    HoldsLength(b.chan[k].req, s.chan[k].req);
    HoldsLength(b.chan[k].rep, s.chan[k].rep);
  }

  /** Between two batches, in this record state. */
  ghost predicate Rests(d: Distributor, s: State)
    reads d, d.mess, d.buf
  {
    && d.Valid() && d.pc == AtLoop && d.front.batch == []
    && d.Records() == s && Refines(d.Now(), s) && Inv(d.cfg, s)
    && CanRun(d.cfg, Init(d.cfg), d.log) && Run(d.cfg, Init(d.cfg), d.log) == s
  }

  lemma Arrived(d: Distributor, ls: seq<Label>, t: State)
    requires d.Valid() && d.log == ls && t.hand.Free? && t.front.batch == []
    requires CanRun(d.cfg, Init(d.cfg), ls) && Run(d.cfg, Init(d.cfg), ls) == t
    ensures Rests(d, t)
  {
    d.Known();
  }

  /** The state in which the one event of a batch is looked at. */
  ghost function Facing(d: Distributor, ev: Event): (b: ByteState)
    requires d.Valid()
    reads d, d.mess, d.buf
    ensures |b.chan| == SERVERS_NUM
  {
    d.Now().(front := d.front.(batch := [ev]))
  }

  /** A batch of one event that does not block. */
  method OneEvent(d: Distributor, ev: Event, choice: Choice)
    requires d.Valid() && d.pc == AtLoop && d.front.batch == []
    requires CanReport(d.cfg, d.front, HasBytes(d.chan), [ev]) && choice.server < SERVERS_NUM
    requires !EventBlocks(d.cfg, Facing(d, ev), choice)
    modifies d, d.mess, d.buf
    ensures d.Valid() && d.log == old(d.log) + [Poll([ev])] + EventScript(d.cfg, old(Facing(d, ev)), choice)
  {
    d.Wait([ev]);
    d.HandleEvent(choice);
  }

  /** The listener's event admits a client. */
  method Admit(d: Distributor, fd: int32, ghost s: State) returns (ghost t: State)
    requires Rests(d, s) && FreeFd(d.cfg, fd) && fd !in s.front.open
    modifies d, d.mess, d.buf
    ensures Rests(d, t) && t == s.(front := s.front.Accept(fd))
  {
    ghost var ls;
    ls, t := AcceptOne(d.cfg, d.log, s, fd);
    var ev := Event(d.cfg.listenFd, true);
    ListenerScript(d.cfg, Facing(d, ev), fd, 0);
    OneEvent(d, ev, Plainly([fd], 0));
    Arrived(d, ls, t);
  }

  /** A client or a server makes a step. */
  method Step(d: Distributor, l: Label, ghost s: State) returns (ghost t: State)
    requires Rests(d, s) && IsEnvironment(l) && Enabled(d.cfg, s, l)
    modifies d
    ensures Rests(d, t) && t == Apply(d.cfg, s, l)
  {
    ghost var ls;
    ls, t := Extend(d.cfg, d.log, s, l);
    SameEnabled(d.cfg, d.Now(), s, l);
    var _ := d.Attempt(l);
    Arrived(d, ls, t);
  }

  /** A client's request is read and forwarded to server k. */
  method ForwardRequest(d: Distributor, fd: int32, k: nat, ghost s: State) returns (ghost t: State)
    requires Rests(d, s) && fd in s.front.open && |s.front.conns[s.front.open[fd]].inbox| >= NORMAL_LEN
    requires k < SERVERS_NUM && |s.chan[k].req| < d.cfg.capacity
    modifies d, d.mess, d.buf
    ensures Rests(d, t)
    ensures var c := s.front.open[fd]; var conn := s.front.conns[c];
      var rec := Record(Message(fd, conn.inbox[..NORMAL_LEN]), c, |s.sent|);
      t == s.(front := s.front.(conns := s.front.conns[c := conn.(inbox := conn.inbox[NORMAL_LEN..])]),
              chan := s.chan[k := s.chan[k].(req := s.chan[k].req + [rec])],
              sent := s.sent + [Forwarded(k, rec)])
  {
    ghost var ls;
    HasRoom(d.cfg, d.Now(), s, k);
    ls, t := ForwardOne(d.cfg, d.log, s, fd, k);
    var ev := Event(fd, true);
    RequestScript(d.cfg, Facing(d, ev), k);
    OneEvent(d, ev, Plainly([], k));
    Arrived(d, ls, t);
  }

  /** A server takes the only request it has and echoes it. */
  method EchoRequest(d: Distributor, k: nat, ghost s: State) returns (ghost t: State)
    requires Rests(d, s) && k < SERVERS_NUM
    requires |s.chan[k].req| == 1 && s.chan[k].work.None? && s.chan[k].rep == []
    modifies d
    ensures Rests(d, t) && t == s.(chan := s.chan[k := Channel([], None, s.chan[k].req)])
  {
    TakeThenEcho(d.cfg, s, k);
    t := Step(d, Take(k), s);
    t := Step(d, Echo(k), t);
  }

  lemma TakeThenEcho(cfg: Config, s: State, k: nat)
    requires |s.chan| == SERVERS_NUM && k < SERVERS_NUM
    requires |s.chan[k].req| == 1 && s.chan[k].work.None? && s.chan[k].rep == []
    ensures Enabled(cfg, s, Take(k)) && Enabled(cfg, Apply(cfg, s, Take(k)), Echo(k))
    ensures Apply(cfg, Apply(cfg, s, Take(k)), Echo(k)) == s.(chan := s.chan[k := Channel([], None, s.chan[k].req)])
  {
    assert s.chan[k].req == [s.chan[k].req[0]] && s.chan[k].req[1..] == [];
    var t := Apply(cfg, s, Take(k));
    assert t.chan[k] == Channel([], Some(s.chan[k].req[0]), []);
    assert Apply(cfg, t, Echo(k)).chan[k] == Channel([], None, s.chan[k].req);
    assert Apply(cfg, t, Echo(k)).chan == s.chan[k := Channel([], None, s.chan[k].req)];
  }

  /** The reply of server k is read and written to its client. */
  method Answers(d: Distributor, k: nat, ghost s: State) returns (ghost t: State)
    requires Rests(d, s) && d.cfg.registered && k < SERVERS_NUM && s.chan[k].rep != [] && s.chan[k].rep[0].msg.fd > 0
    modifies d, d.mess, d.buf
    ensures Rests(d, t) && t.sent == s.sent
    ensures var rec := s.chan[k].rep[0];
      && t.front == s.front.Write(rec.msg.fd, Success)
      && t.answered == s.answered + [Answer(k, rec, s.front.Find(rec.msg.fd))]
  {
    ghost var ls;
    HasRoom(d.cfg, d.Now(), s, k);
    ls, t := AnswerOne(d.cfg, d.log, s, k);
    var ev := Event(d.cfg.serverFd[k], true);
    assert ServerOf(d.cfg, d.cfg.serverFd[k]) == k;
    OneEvent(d, ev, Plainly([], k));
    Arrived(d, ls, t);
  }

  /** A new distributor, with one client's request unread. */
  method Arrive(cfg: Config, fd: int32, data: Payload) returns (d: Distributor, ghost s: State)
    requires FreeFd(cfg, fd)
    ensures fresh(d) && fresh(d.mess) && fresh(d.buf) && d.cfg == cfg && Rests(d, s)
    ensures s.front.conns == [Conn(fd, data, false, [])] && s.front.open == map[fd as int := 0]
    ensures s.chan == Init(cfg).chan && s.sent == [] && s.answered == []
  {
    d := new Distributor(cfg);
    Arrived(d, [], Init(cfg));
    s := Admit(d, fd, Init(cfg));
    s := Step(d, ClientSend(0, data), s);
    assert [] + data == data;
  }

  /** It is forwarded to server k and echoed. */
  method Process(d: Distributor, fd: int32, data: Payload, k: nat, ghost s: State) returns (ghost t: State)
    requires Rests(d, s) && k < SERVERS_NUM
    requires s.front.conns == [Conn(fd, data, false, [])] && s.front.open == map[fd as int := 0]
    requires s.chan == Init(d.cfg).chan && s.sent == [] && s.answered == []
    modifies d, d.mess, d.buf
    ensures Rests(d, t) && t.chan[k].rep == [Record(Message(fd, data), 0, 0)]
    ensures t.sent == [Forwarded(k, Record(Message(fd, data), 0, 0))] && t.answered == []
    ensures t.front.conns == [Conn(fd, [], false, [])] && t.front.open == s.front.open
  {
    assert data[..NORMAL_LEN] == data && data[NORMAL_LEN..] == [];
    t := ForwardRequest(d, fd, k, s);
    assert t.chan[k] == Channel([Record(Message(fd, data), 0, 0)], None, []);
    t := EchoRequest(d, k, t);
  }

  lemma WriteOnly(f: Front, fd: int32)
    requires f.conns == [Conn(fd, [], false, [])] && f.open == map[fd as int := 0]
    ensures f.Write(fd, Success).conns == [Conn(fd, [], false, [Success])] && f.Find(fd) == Some(0)
  {
    assert f.Find(fd) == Some(0) && [] + [Success] == [Success];
  }

  lemma Shown(d: Distributor, s: State)
    requires Rests(d, s)
    ensures d.front == s.front && d.Valid() && d.pc == AtLoop && d.Records() == s
    ensures forall fd :: fd in s.front.open ==> fd > 0
  {
  }

  /** This request alone was forwarded, to server k, and answered once, to its sender. */
  ghost predicate Completed(s: State, fd: int32, data: Payload, k: nat) {
    var rec := Record(Message(fd, data), 0, 0);
    s.sent == [Forwarded(k, rec)] && s.answered == [Answer(k, rec, Some(0))]
  }

  /** The rest of the way. */
  method Finish(d: Distributor, fd: int32, data: Payload, k: nat, ghost s: State)
    requires Rests(d, s) && d.cfg.registered && k < SERVERS_NUM
    requires s.front.conns == [Conn(fd, data, false, [])] && s.front.open == map[fd as int := 0]
    requires s.chan == Init(d.cfg).chan && s.sent == [] && s.answered == []
    modifies d, d.mess, d.buf
    ensures d.Valid() && d.pc == AtLoop && d.front.conns == [Conn(fd, [], false, [Success])]
    ensures Completed(d.Records(), fd, data, k)
  {
    Shown(d, s);
    ghost var t := Process(d, fd, data, k, s);
    WriteOnly(t.front, fd);
    t := Answers(d, k, t);
    Shown(d, t);
  }

  /** From the start to the reply: with the servers in the epoll set, any request reaches any
      of the four servers unaltered, its answer is addressed to the client that sent it, and
      that client gets one success, which is all anybody gets. */
  method RoundTrip(cfg: Config, fd: int32, data: Payload, k: nat) returns (d: Distributor)
    requires cfg.registered && FreeFd(cfg, fd) && k < SERVERS_NUM
    ensures d.Valid() && d.pc == AtLoop && d.front.conns == [Conn(fd, [], false, [Success])]
    ensures Completed(d.Records(), fd, data, k)
  {
    ghost var s: State;
    d, s := Arrive(cfg, fd, data);
    Finish(d, fd, data, k, s);
  }
}
