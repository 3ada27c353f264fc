/** The request-routing protocol as a transition system, one step per system call.

    A record carries, besides the bytes on the wire, two pieces of bookkeeping that no
    program sees: the connection that sent the request and the rank of the forward.
    A connection is named by its position in `conns`, so a descriptor that is closed
    and handed out again names a new connection. */
module Routing {
  import opened Common
  import opened Wire

  /** What the distributor's start-up leaves behind. `reserved` holds every descriptor
      that is open for the whole life of the process. `registered` says whether the
      servers' descriptors were added to the epoll set. `capacity` is the number of
      whole records that fit in one direction of a server's connection. */
  datatype RawConfig = Config(
    listenFd: int, serverFd: seq<int>, reserved: set<int>, registered: bool, capacity: nat)
  {
    ghost predicate Valid() {
      && |serverFd| == SERVERS_NUM
      && (forall i, j :: 0 <= i < j < SERVERS_NUM ==> serverFd[i] != serverFd[j])
      && (forall i :: 0 <= i < SERVERS_NUM ==> serverFd[i] in reserved)
      && listenFd in reserved && listenFd !in serverFd
      && 0 in reserved
      && capacity >= 1
    }
  }

  type Config = c: RawConfig | c.Valid() witness Config(3, [4, 5, 6, 7], {0, 3, 4, 5, 6, 7}, true, 1)

  datatype Reply = Success | Failure
  datatype Conn = Conn(fd: int32, inbox: seq<byte>, eof: bool, outbox: seq<Reply>)
  datatype Event = Event(fd: int, readable: bool)

  /** The client side: all connections ever accepted, the open descriptors, the epoll
      interest set, and the events of the current batch not yet looked at. */
  datatype Front = Front(conns: seq<Conn>, open: map<int, nat>, interest: set<int>, batch: seq<Event>)
  {
    function Find(fd: int): Option<nat> {
      if fd in open && open[fd] < |conns| then Some(open[fd]) else None
    }

    predicate IsOpen(c: nat) {
      c < |conns| && conns[c].fd in open && open[conns[c].fd] == c
    }

    function Pop(): Front
      requires batch != []
    {
      this.(batch := batch[1..])
    }

    /** `write` of a 16-byte reply; a descriptor that is not open makes it fail silently. */
    function Write(fd: int, reply: Reply): Front {
      match Find(fd)
      case None => this
      case Some(c) => this.(conns := conns[c := conns[c].(outbox := conns[c].outbox + [reply])])
    }

    /** `CloseConnect`: leave the interest set, close, and lose what was not read. */
    function Close(fd: int): Front {
      match Find(fd)
      case None => this
      case Some(c) => this.(
        open := map f | f in open && f != fd :: open[f],
        interest := interest - {fd},
        conns := conns[c := conns[c].(inbox := [], eof := false)])
    }

    function Accept(fd: int32): Front {
      this.(conns := conns + [Conn(fd, [], false, [])],
            open := open[fd as int := |conns|],
            interest := interest + {fd})
    }
  }

  datatype Record = Record(msg: Message, origin: nat, id: nat)

  /** One server: its request stream, the record it is working on, its reply stream. */
  datatype Channel = Channel(req: seq<Record>, work: Option<Record>, rep: seq<Record>)

  /** What the distributor's worker thread holds between two system calls. */
  datatype Hand =
    | Free
    | Holding(msg: Message, origin: nat)
    | Routed(msg: Message, origin: nat, server: nat)
    | Refusing(fd: int32)
    | Replying(rec: Record, server: nat)
    | Halted

  datatype Forwarded = Forwarded(server: nat, rec: Record)
  datatype Answer = Answer(server: nat, rec: Record, to: Option<nat>)

  /** `sent` and `answered` are histories: forwards that succeeded, success replies written. */
  datatype State = State(
    front: Front, hand: Hand, chan: seq<Channel>, sent: seq<Forwarded>, answered: seq<Answer>)

  function Init(cfg: Config): State {
    State(
      Front([], map[], {cfg.listenFd} + (if cfg.registered then set fd | fd in cfg.serverFd else {}), []),
      Free, seq(SERVERS_NUM, i => Channel([], None, [])), [], [])
  }

  function ServerOf(cfg: Config, fd: int): (k: nat)
    requires fd in cfg.serverFd
    ensures k < SERVERS_NUM && cfg.serverFd[k] == fd
  {
    if fd == cfg.serverFd[0] then 0
    else if fd == cfg.serverFd[1] then 1
    else if fd == cfg.serverFd[2] then 2
    else 3
  }

  datatype Label =
    // clients
    | ClientSend(conn: nat, data: seq<byte>)
    | ClientFinish(conn: nat)
    // the distributor's worker thread
    | Poll(events: seq<Event>)
    | SkipEvent
    | Accept(newFd: int32)
    | AcceptDone
    | ReadClient(reset: bool)
    | Pick(server: nat)
    | Forward(ok: bool)
    | WriteError
    | ReadServer
    | WriteSuccess
    | Exit
    // the servers
    | Take(server: nat)
    | Echo(server: nat)

  predicate AtEvent(s: State) {
    s.hand.Free? && s.front.batch != []
  }

  /** The event at hand is readable and belongs to a descriptor outside `serverFd_set`. */
  predicate AtClient(cfg: Config, s: State) {
    AtEvent(s) && var ev := s.front.batch[0];
    ev.fd != cfg.listenFd && ev.readable && ev.fd !in cfg.serverFd
  }

  predicate AtServer(cfg: Config, s: State) {
    AtEvent(s) && var ev := s.front.batch[0];
    ev.fd != cfg.listenFd && ev.readable && ev.fd in cfg.serverFd
  }

  predicate Distinct(evs: seq<Event>) {
    forall i, j :: 0 <= i < j < |evs| ==> evs[i].fd != evs[j].fd
  }

  /** A batch names each descriptor at most once, only registered ones, and reports a
      server as readable only when its reply stream is not empty. */
  predicate CanReport(cfg: Config, f: Front, hasReply: seq<bool>, evs: seq<Event>)
    requires |hasReply| == SERVERS_NUM
  {
    && evs != []
    && Distinct(evs)
    && (forall i :: 0 <= i < |evs| ==> evs[i].fd in f.interest)
    && (forall i :: 0 <= i < |evs| && evs[i].readable && evs[i].fd in cfg.serverFd ==>
          hasReply[ServerOf(cfg, evs[i].fd)])
  }

  function HasReply(chan: seq<Channel>): (r: seq<bool>)
    ensures |r| == |chan|
  {
    seq(|chan|, k requires 0 <= k < |chan| => chan[k].rep != [])
  }

  predicate Enabled(cfg: Config, s: State, l: Label)
    requires |s.chan| == SERVERS_NUM
  {
    match l
    case ClientSend(c, data) => s.front.IsOpen(c) && !s.front.conns[c].eof
    case ClientFinish(c) => s.front.IsOpen(c) && !s.front.conns[c].eof
    case Poll(evs) => s.hand.Free? && s.front.batch == [] && CanReport(cfg, s.front, HasReply(s.chan), evs)
    case SkipEvent => AtEvent(s) && s.front.batch[0].fd != cfg.listenFd && !s.front.batch[0].readable
    case Accept(fd) =>
      && AtEvent(s) && s.front.batch[0].fd == cfg.listenFd
      && fd >= 0 && fd !in cfg.reserved && fd !in s.front.open
    case AcceptDone => AtEvent(s) && s.front.batch[0].fd == cfg.listenFd
    case ReadClient(reset) => AtClient(cfg, s)
    case Pick(k) => s.hand.Holding? && k < SERVERS_NUM
    case Forward(ok) =>
      && s.hand.Routed? && s.hand.server < SERVERS_NUM
      && (ok ==> |s.chan[s.hand.server].req| < cfg.capacity)
    case WriteError => s.hand.Refusing?
    case ReadServer => AtServer(cfg, s) && s.chan[ServerOf(cfg, s.front.batch[0].fd)].rep != []
    case WriteSuccess => s.hand.Replying?
    case Exit => AtServer(cfg, s) || (AtEvent(s) && s.front.batch[0].fd == cfg.listenFd)
    case Take(k) => k < SERVERS_NUM && s.chan[k].work.None? && s.chan[k].req != []
    case Echo(k) => k < SERVERS_NUM && s.chan[k].work.Some? && |s.chan[k].rep| < cfg.capacity
  }

  datatype ReadOutcome = Shut | Full(fd: int32, data: Payload, conn: nat) | Short(fd: int32) | Fatal

  /** `read(fd, buf, 16)` on a client: end of stream or a reset closes the connection, a
      full request is taken over, anything shorter (or EAGAIN) is refused. */
  function ReadRequest(f: Front, reset: bool): (r: (Front, ReadOutcome))
    requires f.batch != []
  {
    var fd := f.batch[0].fd;
    match f.Find(fd)
    case None => (f, Fatal)
    case Some(c) =>
      var conn := f.conns[c];
      if reset || (conn.inbox == [] && conn.eof) then
        (f.Close(fd).Pop(), Shut)
      else if |conn.inbox| >= NORMAL_LEN then
        (f.(conns := f.conns[c := conn.(inbox := conn.inbox[NORMAL_LEN..])]).Pop(),
         Full(conn.fd, conn.inbox[..NORMAL_LEN], c))
      else
        (f.(conns := f.conns[c := conn.(inbox := [])]).Pop(), Short(conn.fd))
  }

  function Apply(cfg: Config, s: State, l: Label): State
    requires |s.chan| == SERVERS_NUM && Enabled(cfg, s, l)
  {
    match l
    case ClientSend(c, data) =>
      var conn := s.front.conns[c];
      s.(front := s.front.(conns := s.front.conns[c := conn.(inbox := conn.inbox + data)]))
    case ClientFinish(c) =>
      s.(front := s.front.(conns := s.front.conns[c := s.front.conns[c].(eof := true)]))
    case Poll(evs) => s.(front := s.front.(batch := evs))
    case SkipEvent => s.(front := s.front.Pop())
    case Accept(fd) => s.(front := s.front.Accept(fd))
    case AcceptDone => s.(front := s.front.Pop())
    case ReadClient(reset) =>
      var (front, outcome) := ReadRequest(s.front, reset);
      var hand := match outcome
        case Shut => Free
        case Full(fd, data, c) => Holding(Message(fd, data), c)
        case Short(fd) => Refusing(fd)
        case Fatal => Halted;
      s.(front := front, hand := hand)
    case Pick(k) => s.(hand := Routed(s.hand.msg, s.hand.origin, k))
    case Forward(ok) =>
      if ok then
        var k, rec := s.hand.server, Record(s.hand.msg, s.hand.origin, |s.sent|);
        s.(hand := Free, sent := s.sent + [Forwarded(k, rec)],
           chan := s.chan[k := s.chan[k].(req := s.chan[k].req + [rec])])
      else
        s.(hand := Refusing(s.hand.msg.fd))
    case WriteError => s.(hand := Free, front := s.front.Write(s.hand.fd, Failure))
    case ReadServer =>
      var k := ServerOf(cfg, s.front.batch[0].fd);
      s.(hand := Replying(s.chan[k].rep[0], k), front := s.front.Pop(),
         chan := s.chan[k := s.chan[k].(rep := s.chan[k].rep[1..])])
    case WriteSuccess =>
      var fd := s.hand.rec.msg.fd;
      if fd <= 0 then s.(hand := Halted)
      else s.(hand := Free, front := s.front.Write(fd, Success),
              answered := s.answered + [Answer(s.hand.server, s.hand.rec, s.front.Find(fd))])
    case Exit => s.(hand := Halted)
    case Take(k) =>
      s.(chan := s.chan[k := s.chan[k].(req := s.chan[k].req[1..], work := Some(s.chan[k].req[0]))])
    case Echo(k) =>
      s.(chan := s.chan[k := s.chan[k].(work := None, rep := s.chan[k].rep + [s.chan[k].work.value])])
  }

  /** A run is a list of labels, each enabled where it is taken. */
  ghost predicate CanRun(cfg: Config, s: State, ls: seq<Label>)
    requires |s.chan| == SERVERS_NUM
    decreases |ls|
  {
    ls == [] || (Enabled(cfg, s, ls[0]) && CanRun(cfg, Apply(cfg, s, ls[0]), ls[1..]))
  }

  ghost function Run(cfg: Config, s: State, ls: seq<Label>): (t: State)
    requires |s.chan| == SERVERS_NUM && CanRun(cfg, s, ls)
    ensures |t.chan| == SERVERS_NUM
    decreases |ls|
  {
    if ls == [] then s else Run(cfg, Apply(cfg, s, ls[0]), ls[1..])
  }

  lemma {:induction false} RunAppend(cfg: Config, s: State, ls: seq<Label>, l: Label)
    requires |s.chan| == SERVERS_NUM && CanRun(cfg, s, ls) && Enabled(cfg, Run(cfg, s, ls), l)
    ensures CanRun(cfg, s, ls + [l])
    ensures Run(cfg, s, ls + [l]) == Apply(cfg, Run(cfg, s, ls), l)
    decreases |ls|
  {
    if ls == [] {
      assert [l][1..] == [];
    } else {
      RunAppend(cfg, Apply(cfg, s, ls[0]), ls[1..], l);
      assert (ls + [l])[1..] == ls[1..] + [l];
    }
  }
}
