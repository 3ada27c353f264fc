/** The same protocol on byte streams: the distributor's and the servers' 20-byte buffers
    are overwritten by every read, a read takes what is there up to 20 bytes, and the
    branches for short reads are kept. A `write` of 20 bytes is all or nothing. The lemmas
    show that the byte system and the record system make the same runs. */
module ByteRouting {
  import opened Common
  import opened Wire
  import opened Routing
  import opened RoutingSafety
  import opened RoutingDelivery

  type Buffer = b: seq<byte> | |b| == MESS_LEN witness seq(MESS_LEN, i => 0)

  /** Where the worker thread stands, with the local variables that are live there. */
  datatype Pc =
    | AtLoop
    | AtPick(fd: int32)
    | AtForward(fd: int32, server: nat)
    | AtRefuse(fd: int32)
    | AtReply(server: nat, readn: nat)
    | AtExit

  /** `busy`: the server has read a whole record and has not written it back yet. */
  datatype ByteChannel = ByteChannel(req: seq<byte>, mess: Buffer, busy: bool, rep: seq<byte>)

  /** The server's `read`: a short one fills part of the buffer and is otherwise ignored. */
  function Taken(c: ByteChannel): ByteChannel {
    var (mess, rest, n) := ReadInto(c.req, c.mess);
    c.(req := rest, mess := mess, busy := n == MESS_LEN)
  }

  /** The server's `write` of what it read. */
  function Echoed(c: ByteChannel): ByteChannel {
    c.(busy := false, rep := c.rep + c.mess)
  }

  datatype ByteState = ByteState(front: Front, pc: Pc, mess: Buffer, chan: seq<ByteChannel>)

  function ByteInit(cfg: Config): ByteState {
    ByteState(Init(cfg).front, AtLoop, seq(MESS_LEN, i => 0),
              seq(SERVERS_NUM, i => ByteChannel([], seq(MESS_LEN, i => 0), false, [])))
  }

  function Min(a: nat, b: nat): nat {
    if a < b then a else b
  }

  /** `read(fd, &mess, 20)`: the first bytes of the buffer are overwritten, the rest stay. */
  function ReadInto(stream: seq<byte>, mess: Buffer): (r: (Buffer, seq<byte>, nat))
    ensures r.2 == Min(MESS_LEN, |stream|)
  {
    var n := Min(MESS_LEN, |stream|);
    (stream[..n] + mess[n..], stream[n..], n)
  }

  /** Room for one more record in a stream. */
  predicate Room(cfg: Config, stream: seq<byte>) {
    |stream| + MESS_LEN <= MESS_LEN * cfg.capacity
  }

  predicate AtByteEvent(b: ByteState) {
    b.pc.AtLoop? && b.front.batch != []
  }

  predicate AtByteClient(cfg: Config, b: ByteState) {
    AtByteEvent(b) && var ev := b.front.batch[0];
    ev.fd != cfg.listenFd && ev.readable && ev.fd !in cfg.serverFd
  }

  predicate AtByteServer(cfg: Config, b: ByteState) {
    AtByteEvent(b) && var ev := b.front.batch[0];
    ev.fd != cfg.listenFd && ev.readable && ev.fd in cfg.serverFd
  }

  function HasBytes(chan: seq<ByteChannel>): (r: seq<bool>)
    ensures |r| == |chan|
  {
    seq(|chan|, k requires 0 <= k < |chan| => chan[k].rep != [])
  }

  predicate ByteEnabled(cfg: Config, b: ByteState, l: Label)
    requires |b.chan| == SERVERS_NUM
  {
    match l
    case ClientSend(c, data) => b.front.IsOpen(c) && !b.front.conns[c].eof
    case ClientFinish(c) => b.front.IsOpen(c) && !b.front.conns[c].eof
    case Poll(evs) => b.pc.AtLoop? && b.front.batch == [] && CanReport(cfg, b.front, HasBytes(b.chan), evs)
    case SkipEvent => AtByteEvent(b) && b.front.batch[0].fd != cfg.listenFd && !b.front.batch[0].readable
    case Accept(fd) =>
      && AtByteEvent(b) && b.front.batch[0].fd == cfg.listenFd
      && fd >= 0 && fd !in cfg.reserved && fd !in b.front.open
    case AcceptDone => AtByteEvent(b) && b.front.batch[0].fd == cfg.listenFd
    case ReadClient(reset) => AtByteClient(cfg, b)
    case Pick(k) => b.pc.AtPick? && k < SERVERS_NUM
    case Forward(ok) =>
      && b.pc.AtForward? && b.pc.server < SERVERS_NUM
      && (ok ==> Room(cfg, b.chan[b.pc.server].req))
    case WriteError => b.pc.AtRefuse?
    case ReadServer => AtByteServer(cfg, b) && b.chan[ServerOf(cfg, b.front.batch[0].fd)].rep != []
    case WriteSuccess => b.pc.AtReply?
    case Exit => AtByteServer(cfg, b) || (AtByteEvent(b) && b.front.batch[0].fd == cfg.listenFd)
    case Take(k) => k < SERVERS_NUM && !b.chan[k].busy && b.chan[k].req != []
    case Echo(k) => k < SERVERS_NUM && b.chan[k].busy && Room(cfg, b.chan[k].rep)
  }

  function ByteApply(cfg: Config, b: ByteState, l: Label): ByteState
    requires |b.chan| == SERVERS_NUM && ByteEnabled(cfg, b, l)
  {
    match l
    case ClientSend(c, data) =>
      var conn := b.front.conns[c];
      b.(front := b.front.(conns := b.front.conns[c := conn.(inbox := conn.inbox + data)]))
    case ClientFinish(c) =>
      b.(front := b.front.(conns := b.front.conns[c := b.front.conns[c].(eof := true)]))
    case Poll(evs) => b.(front := b.front.(batch := evs))
    case SkipEvent => b.(front := b.front.Pop())
    case Accept(fd) => b.(front := b.front.Accept(fd))
    case AcceptDone => b.(front := b.front.Pop())
    case ReadClient(reset) =>
      var (front, outcome) := ReadRequest(b.front, reset);
      (match outcome
       case Shut => b.(front := front)
       case Full(fd, data, _) => b.(front := front, pc := AtPick(fd), mess := EncodeFd(fd) + data)
       case Short(fd) => b.(front := front, pc := AtRefuse(fd))
       case Fatal => b.(front := front, pc := AtExit))
    case Pick(k) => b.(pc := AtForward(b.pc.fd, k))
    case Forward(ok) =>
      if ok then
        var k := b.pc.server;
        b.(pc := AtLoop, chan := b.chan[k := b.chan[k].(req := b.chan[k].req + b.mess)])
      else
        b.(pc := AtRefuse(b.pc.fd))
    case WriteError => b.(pc := AtLoop, front := b.front.Write(b.pc.fd, Failure))
    case ReadServer =>
      var k := ServerOf(cfg, b.front.batch[0].fd);
      var (mess, rest, n) := ReadInto(b.chan[k].rep, b.mess);
      b.(pc := AtReply(k, n), front := b.front.Pop(), mess := mess,
         chan := b.chan[k := b.chan[k].(rep := rest)])
    case WriteSuccess =>
      var clientFd := DecodeFd(b.mess[..4]);
      if clientFd <= 0 then b.(pc := AtExit)
      else if b.pc.readn != MESS_LEN then b.(pc := AtLoop, front := b.front.Write(clientFd, Failure))
      else b.(pc := AtLoop, front := b.front.Write(clientFd, Success))
    case Exit => b.(pc := AtExit)
    case Take(k) => b.(chan := b.chan[k := Taken(b.chan[k])])
    case Echo(k) => b.(chan := b.chan[k := Echoed(b.chan[k])])
  }

  ghost predicate ByteCanRun(cfg: Config, b: ByteState, ls: seq<Label>)
    requires |b.chan| == SERVERS_NUM
    decreases |ls|
  {
    ls == [] || (ByteEnabled(cfg, b, ls[0]) && ByteCanRun(cfg, ByteApply(cfg, b, ls[0]), ls[1..]))
  }

  ghost function ByteRun(cfg: Config, b: ByteState, ls: seq<Label>): (c: ByteState)
    requires |b.chan| == SERVERS_NUM && ByteCanRun(cfg, b, ls)
    ensures |c.chan| == SERVERS_NUM
    decreases |ls|
  {
    if ls == [] then b else ByteRun(cfg, ByteApply(cfg, b, ls[0]), ls[1..])
  }

  lemma {:induction false} ByteRunAppend(cfg: Config, b: ByteState, ls: seq<Label>, l: Label)
    requires |b.chan| == SERVERS_NUM && ByteCanRun(cfg, b, ls) && ByteEnabled(cfg, ByteRun(cfg, b, ls), l)
    ensures ByteCanRun(cfg, b, ls + [l])
    ensures ByteRun(cfg, b, ls + [l]) == ByteApply(cfg, ByteRun(cfg, b, ls), l)
    decreases |ls|
  {
    if ls == [] {
      assert [l][1..] == [];
    } else {
      ByteRunAppend(cfg, ByteApply(cfg, b, ls[0]), ls[1..], l);
      assert (ls + [l])[1..] == ls[1..] + [l];
    }
  }

  // ----- the refinement -----

  ghost function Messages(q: seq<Record>): seq<Message> {
    seq(|q|, i requires 0 <= i < |q| => q[i].msg)
  }

  /** The byte stream holds exactly the records of the queue, back to back. */
  ghost predicate Holds(stream: seq<byte>, q: seq<Record>) {
    stream == Image(Messages(q))
  }

  ghost predicate ChannelRefines(b: ByteChannel, c: Channel) {
    && Holds(b.req, c.req) && Holds(b.rep, c.rep)
    && (b.busy <==> c.work.Some?)
    && (b.busy ==> b.mess == Encode(c.work.value.msg))
  }

  ghost predicate PcRefines(b: ByteState, h: Hand) {
    match h
    case Free => b.pc == AtLoop
    case Halted => b.pc == AtExit
    case Holding(msg, _) => b.pc == AtPick(msg.fd) && b.mess == Encode(msg)
    case Routed(msg, _, k) => b.pc == AtForward(msg.fd, k) && b.mess == Encode(msg)
    case Refusing(fd) => b.pc == AtRefuse(fd)
    case Replying(rec, k) => b.pc == AtReply(k, MESS_LEN) && b.mess == Encode(rec.msg)
  }

  ghost predicate Refines(b: ByteState, s: State) {
    && |b.chan| == |s.chan| == SERVERS_NUM
    && b.front == s.front
    && PcRefines(b, s.hand)
    && forall k :: 0 <= k < SERVERS_NUM ==> ChannelRefines(b.chan[k], s.chan[k])
  }

  lemma HoldsLength(stream: seq<byte>, q: seq<Record>)
    requires Holds(stream, q)
    ensures |stream| == MESS_LEN * |q|
  {
    ImageLength(Messages(q));
  }

  /** A write of one whole record at the end of a stream. */
  lemma HoldsAppend(stream: seq<byte>, q: seq<Record>, rec: Record)
    requires Holds(stream, q)
    ensures Holds(stream + Encode(rec.msg), q + [rec])
  {
    ImageAppend(Messages(q), rec.msg);
    assert Messages(q + [rec]) == Messages(q) + [rec.msg];
  }

  /** A read of up to 20 bytes takes exactly the oldest record, whatever the buffer held. */
  lemma HoldsRead(stream: seq<byte>, q: seq<Record>, mess: Buffer)
    requires Holds(stream, q) && q != []
    ensures var (m, rest, n) := ReadInto(stream, mess);
      n == MESS_LEN && m == Encode(q[0].msg) && Holds(rest, q[1..])
  {
    ImageHead(Messages(q));
    assert Messages(q)[1..] == Messages(q[1..]);
  }

  lemma SameEnabled(cfg: Config, b: ByteState, s: State, l: Label)
    requires Refines(b, s)
    ensures ByteEnabled(cfg, b, l) <==> Enabled(cfg, s, l)
  {
    forall k | 0 <= k < SERVERS_NUM
      ensures |b.chan[k].req| == MESS_LEN * |s.chan[k].req| && |b.chan[k].rep| == MESS_LEN * |s.chan[k].rep|
    {
      assert ChannelRefines(b.chan[k], s.chan[k]);
      HoldsLength(b.chan[k].req, s.chan[k].req);
      HoldsLength(b.chan[k].rep, s.chan[k].rep);
    }
    assert HasBytes(b.chan) == HasReply(s.chan);
  }

  lemma StreamStep(cfg: Config, b: ByteState, s: State, l: Label, k: nat)
    requires Refines(b, s) && Enabled(cfg, s, l) && ByteEnabled(cfg, b, l) && k < SERVERS_NUM
    ensures ChannelRefines(ByteApply(cfg, b, l).chan[k], Apply(cfg, s, l).chan[k])
  {
    assert ChannelRefines(b.chan[k], s.chan[k]);
    if l == Forward(true) && k == s.hand.server {
      HoldsAppend(b.chan[k].req, s.chan[k].req, Record(s.hand.msg, s.hand.origin, |s.sent|));
    } else if l.ReadServer? && k == ServerOf(cfg, s.front.batch[0].fd) {
      HoldsRead(b.chan[k].rep, s.chan[k].rep, b.mess);
    } else if l == Take(k) {
      HoldsRead(b.chan[k].req, s.chan[k].req, b.chan[k].mess);
    } else if l == Echo(k) {
      HoldsAppend(b.chan[k].rep, s.chan[k].rep, s.chan[k].work.value);
    }
  }

  lemma ControlStep(cfg: Config, b: ByteState, s: State, l: Label)
    requires Refines(b, s) && Enabled(cfg, s, l) && ByteEnabled(cfg, b, l)
    ensures ByteApply(cfg, b, l).front == Apply(cfg, s, l).front
    ensures PcRefines(ByteApply(cfg, b, l), Apply(cfg, s, l).hand)
  {
    if l.ReadServer? {
      var k := ServerOf(cfg, s.front.batch[0].fd);
      assert ChannelRefines(b.chan[k], s.chan[k]);
      HoldsRead(b.chan[k].rep, s.chan[k].rep, b.mess);
    } else if l.WriteSuccess? {
      DecodeEncode(s.hand.rec.msg);
    }
  }

  /** Every step keeps the byte state an image of the record state. */
  lemma RefinesStep(cfg: Config, b: ByteState, s: State, l: Label)
    requires Refines(b, s) && Enabled(cfg, s, l) && ByteEnabled(cfg, b, l)
    ensures Refines(ByteApply(cfg, b, l), Apply(cfg, s, l))
  {
    ControlStep(cfg, b, s, l);
    forall k | 0 <= k < SERVERS_NUM
      ensures ChannelRefines(ByteApply(cfg, b, l).chan[k], Apply(cfg, s, l).chan[k])
    {
      StreamStep(cfg, b, s, l, k);
    }
  }

  lemma {:induction false} RefinesRun(cfg: Config, b: ByteState, s: State, ls: seq<Label>)
    requires Refines(b, s)
    ensures ByteCanRun(cfg, b, ls) <==> CanRun(cfg, s, ls)
    ensures CanRun(cfg, s, ls) ==> Refines(ByteRun(cfg, b, ls), Run(cfg, s, ls))
    decreases |ls|
  {
    if ls != [] {
      SameEnabled(cfg, b, s, ls[0]);
      if Enabled(cfg, s, ls[0]) {
        RefinesStep(cfg, b, s, ls[0]);
        RefinesRun(cfg, ByteApply(cfg, b, ls[0]), Apply(cfg, s, ls[0]), ls[1..]);
      }
    }
  }

  /** The byte system and the record system make exactly the same runs, and along each of
      them the streams are the images of the four request and four reply queues. */
  lemma BytesRefineRecords(cfg: Config, ls: seq<Label>)
    ensures ByteCanRun(cfg, ByteInit(cfg), ls) <==> CanRun(cfg, Init(cfg), ls)
    ensures CanRun(cfg, Init(cfg), ls) ==> Refines(ByteRun(cfg, ByteInit(cfg), ls), Run(cfg, Init(cfg), ls))
  {
    RefinesRun(cfg, ByteInit(cfg), Init(cfg), ls);
  }

  lemma WholeStreams(cfg: Config, b: ByteState, s: State, k: nat)
    requires Refines(b, s) && k < SERVERS_NUM
    ensures |b.chan[k].req| % MESS_LEN == 0 && |b.chan[k].rep| % MESS_LEN == 0
    ensures ByteEnabled(cfg, b, Take(k)) ==> ByteApply(cfg, b, Take(k)).chan[k].busy
  {
    assert ChannelRefines(b.chan[k], s.chan[k]);
    HoldsLength(b.chan[k].req, s.chan[k].req);
    HoldsLength(b.chan[k].rep, s.chan[k].rep);
  }

  lemma ReplyNames(cfg: Config, b: ByteState, s: State)
    requires Inv(cfg, s) && Refines(b, s) && b.pc.AtReply?
    ensures b.pc.readn == MESS_LEN && DecodeFd(b.mess[..4]) > 0
    ensures exists c :: 0 <= c < |b.front.conns| && b.front.conns[c].fd == DecodeFd(b.mess[..4])
  {
    HandRecordOk(cfg, s);
    DecodeEncode(s.hand.rec.msg);
    assert b.front.conns[s.hand.rec.origin].fd == DecodeFd(b.mess[..4]);
  }

  /** On bytes alone: streams stay whole numbers of records, every read of the distributor
      or of a server takes one whole record, and `mess` never mixes two records: at the
      reply it decodes to a positive descriptor that some accepted client had. */
  lemma AlwaysAligned(cfg: Config, ls: seq<Label>)
    requires ByteCanRun(cfg, ByteInit(cfg), ls)
    ensures var b := ByteRun(cfg, ByteInit(cfg), ls);
      && (forall k :: 0 <= k < SERVERS_NUM ==> |b.chan[k].req| % MESS_LEN == 0 && |b.chan[k].rep| % MESS_LEN == 0)
      && (forall k :: 0 <= k < SERVERS_NUM && ByteEnabled(cfg, b, Take(k)) ==>
            ByteApply(cfg, b, Take(k)).chan[k].busy)
      && (b.pc.AtReply? ==> b.pc.readn == MESS_LEN && DecodeFd(b.mess[..4]) > 0)
      && (b.pc.AtReply? ==> exists c :: 0 <= c < |b.front.conns| && b.front.conns[c].fd == DecodeFd(b.mess[..4]))
  {
    BytesRefineRecords(cfg, ls);
    InvFromStart(cfg, ls);
    var b, s := ByteRun(cfg, ByteInit(cfg), ls), Run(cfg, Init(cfg), ls);
    forall k | 0 <= k < SERVERS_NUM
      ensures |b.chan[k].req| % MESS_LEN == 0 && |b.chan[k].rep| % MESS_LEN == 0
      ensures ByteEnabled(cfg, b, Take(k)) ==> ByteApply(cfg, b, Take(k)).chan[k].busy
    {
      WholeStreams(cfg, b, s, k);
    }
    if b.pc.AtReply? {
      ReplyNames(cfg, b, s);
    }
  }

  // ----- the client's view, on bytes alone -----

  /** The whole records in a byte stream. */
  ghost function Decoded(stream: seq<byte>): seq<Message> {
    if |stream| < MESS_LEN then [] else [Decode(stream[..MESS_LEN])] + Decoded(stream[MESS_LEN..])
  }

  lemma {:induction false} DecodedImage(q: seq<Message>)
    ensures Decoded(Image(q)) == q
  {
    if q != [] {
      ImageHead(q);
      DecodeEncode(q[0]);
      DecodedImage(q[1..]);
    }
  }

  /** Some record under way at this server names descriptor fd. */
  ghost predicate Names(c: ByteChannel, fd: int) {
    || (exists m :: m in Decoded(c.req) && m.fd == fd)
    || (exists m :: m in Decoded(c.rep) && m.fd == fd)
    || (c.busy && DecodeFd(c.mess[..4]) == fd)
  }

  /** The step closes a client whose descriptor stands in a record under way. */
  ghost predicate ByteClosesEarly(b: ByteState, l: Label)
    requires |b.chan| == SERVERS_NUM
  {
    && l.ReadClient? && b.front.batch != [] && ReadRequest(b.front, l.reset).1.Shut?
    && exists k :: 0 <= k < SERVERS_NUM && Names(b.chan[k], b.front.batch[0].fd)
  }

  ghost predicate ByteNoEarlyClose(cfg: Config, b: ByteState, ls: seq<Label>)
    requires |b.chan| == SERVERS_NUM && ByteCanRun(cfg, b, ls)
    decreases |ls|
  {
    ls == [] || (!ByteClosesEarly(b, ls[0]) && ByteNoEarlyClose(cfg, ByteApply(cfg, b, ls[0]), ls[1..]))
  }

  ghost function ByteDataReads(cfg: Config, b: ByteState, ls: seq<Label>, c: nat): nat
    requires |b.chan| == SERVERS_NUM && ByteCanRun(cfg, b, ls)
    decreases |ls|
  {
    if ls == [] then 0
    else DataReadAt(b.front, ls[0], c) + ByteDataReads(cfg, ByteApply(cfg, b, ls[0]), ls[1..], c)
  }

  ghost function ByteAgainReads(cfg: Config, b: ByteState, ls: seq<Label>, c: nat): nat
    requires |b.chan| == SERVERS_NUM && ByteCanRun(cfg, b, ls)
    decreases |ls|
  {
    if ls == [] then 0
    else AgainReadAt(b.front, ls[0], c) + ByteAgainReads(cfg, ByteApply(cfg, b, ls[0]), ls[1..], c)
  }

  /** The step writes a request of connection c to a server. */
  ghost function ForwardAt(b: ByteState, l: Label, c: nat): nat {
    if l == Forward(true) && b.pc.AtForward? && b.front.Find(b.pc.fd) == Some(c) then 1 else 0
  }

  ghost function ByteForwards(cfg: Config, b: ByteState, ls: seq<Label>, c: nat): nat
    requires |b.chan| == SERVERS_NUM && ByteCanRun(cfg, b, ls)
    decreases |ls|
  {
    if ls == [] then 0
    else ForwardAt(b, ls[0], c) + ByteForwards(cfg, ByteApply(cfg, b, ls[0]), ls[1..], c)
  }

  lemma MessagesIn(q: seq<Record>, fd: int)
    ensures (exists m :: m in Messages(q) && m.fd == fd) <==> exists rec :: rec in q && rec.msg.fd == fd
  {
    if m :| m in Messages(q) && m.fd == fd {
      var i :| 0 <= i < |q| && Messages(q)[i] == m;
      assert q[i] in q;
    }
    if rec :| rec in q && rec.msg.fd == fd {
      var i :| 0 <= i < |q| && q[i] == rec;
      assert Messages(q)[i] == rec.msg;
    }
  }

  lemma NamesRefines(b: ByteChannel, c: Channel, fd: int)
    requires ChannelRefines(b, c)
    ensures Names(b, fd) <==> exists rec :: rec in c.rep + InWork(c.work) + c.req && rec.msg.fd == fd
  {
    DecodedImage(Messages(c.req));
    DecodedImage(Messages(c.rep));
    MessagesIn(c.req, fd);
    MessagesIn(c.rep, fd);
    if b.busy {
      DecodeEncode(c.work.value.msg);
      assert c.work.value in c.rep + InWork(c.work) + c.req;
    }
  }

  /** While every sender is open, a record names the descriptor of a connection exactly when
      it came from that connection. */
  lemma SameNames(cfg: Config, b: ByteState, s: State, fd: int, k: nat)
    requires Inv(cfg, s) && SendersOpen(s) && k < SERVERS_NUM && s.hand.Free?
    requires |b.chan| == SERVERS_NUM && ChannelRefines(b.chan[k], s.chan[k])
    ensures Names(b.chan[k], fd) <==> exists rec :: rec in InFlight(s, k) && s.front.Find(fd) == Some(rec.origin)
  {
    NamesRefines(b.chan[k], s.chan[k], fd);
    assert InFlight(s, k) == s.chan[k].rep + InWork(s.chan[k].work) + s.chan[k].req;
    forall rec | rec in InFlight(s, k) ensures rec.msg.fd == fd <==> s.front.Find(fd) == Some(rec.origin) {
      SameOrigin(cfg, s, k, rec, fd);
    }
  }

  lemma SameOrigin(cfg: Config, s: State, k: nat, rec: Record, fd: int)
    requires Inv(cfg, s) && k < SERVERS_NUM && rec in InFlight(s, k) && s.front.IsOpen(rec.origin)
    ensures rec.msg.fd == fd <==> s.front.Find(fd) == Some(rec.origin)
  {
    InFlightOk(cfg, s, k, rec);
  }

  lemma SameClosesEarly(cfg: Config, b: ByteState, s: State, l: Label)
    requires Inv(cfg, s) && SendersOpen(s) && Refines(b, s) && Enabled(cfg, s, l)
    ensures ByteClosesEarly(b, l) <==> ClosesEarly(cfg, s, l)
  {
    if l.ReadClient? {
      var fd := s.front.batch[0].fd;
      forall k | 0 <= k < SERVERS_NUM
        ensures Names(b.chan[k], fd) <==> exists rec :: rec in InFlight(s, k) && s.front.Find(fd) == Some(rec.origin)
      {
        SameNames(cfg, b, s, fd, k);
      }
    }
  }

  lemma {:induction false} SameNoEarlyClose(cfg: Config, b: ByteState, s: State, ls: seq<Label>)
    requires Inv(cfg, s) && Faithful(s) && Refines(b, s) && CanRun(cfg, s, ls) && ByteCanRun(cfg, b, ls)
    ensures ByteNoEarlyClose(cfg, b, ls) <==> NoEarlyClose(cfg, s, ls)
    decreases |ls|
  {
    if ls != [] {
      SameClosesEarly(cfg, b, s, ls[0]);
      if !ClosesEarly(cfg, s, ls[0]) {
        FaithfulStep(cfg, s, ls[0]);
        InvStep(cfg, s, ls[0]);
        RefinesStep(cfg, b, s, ls[0]);
        SameNoEarlyClose(cfg, ByteApply(cfg, b, ls[0]), Apply(cfg, s, ls[0]), ls[1..]);
      }
    }
  }

  lemma ForwardStep(cfg: Config, b: ByteState, s: State, l: Label, c: nat)
    requires OpenOk(cfg, s.front) && HandOk(s) && Refines(b, s) && Enabled(cfg, s, l)
    ensures CountSent(Apply(cfg, s, l).sent, From(c)) == CountSent(s.sent, From(c)) + ForwardAt(b, l, c)
  {
    var t := Apply(cfg, s, l);
    if l == Forward(true) {
      assert t.sent[..|t.sent| - 1] == s.sent;
    } else {
      assert t.sent == s.sent;
    }
  }

  lemma {:induction false} SameCounts(cfg: Config, b: ByteState, s: State, ls: seq<Label>, c: nat)
    requires Inv(cfg, s) && Refines(b, s) && CanRun(cfg, s, ls) && ByteCanRun(cfg, b, ls)
    ensures ByteDataReads(cfg, b, ls, c) == DataReads(cfg, s, ls, c)
    ensures ByteAgainReads(cfg, b, ls, c) == AgainReads(cfg, s, ls, c)
    ensures CountSent(Run(cfg, s, ls).sent, From(c)) == CountSent(s.sent, From(c)) + ByteForwards(cfg, b, ls, c)
    decreases |ls|
  {
    if ls != [] {
      ForwardStep(cfg, b, s, ls[0], c);
      InvStep(cfg, s, ls[0]);
      RefinesStep(cfg, b, s, ls[0]);
      SameCounts(cfg, ByteApply(cfg, b, ls[0]), Apply(cfg, s, ls[0]), ls[1..], c);
    }
  }

  lemma EmptyStreams(b: ByteState, s: State)
    requires Refines(b, s) && b.pc.AtLoop?
    requires forall ch :: ch in b.chan ==> ch.req == [] && ch.rep == [] && !ch.busy
    ensures Drained(s)
  {
    forall k | 0 <= k < SERVERS_NUM ensures InFlight(s, k) == [] {
      assert b.chan[k] in b.chan && ChannelRefines(b.chan[k], s.chan[k]);
      HoldsLength(b.chan[k].req, s.chan[k].req);
      HoldsLength(b.chan[k].rep, s.chan[k].rep);
    }
  }

  /** The client's view of the byte system, over all its runs: with all streams empty, both
      ends at rest, and no client closed while its descriptor stood in a record under way,
      a client got one success for each request of its that was written to a server, and
      one reply for each of its reads that returned data or EAGAIN. */
  lemma BytesOneReplyPerRead(cfg: Config, ls: seq<Label>, c: nat)
    requires ByteCanRun(cfg, ByteInit(cfg), ls) && ByteNoEarlyClose(cfg, ByteInit(cfg), ls)
    requires ByteRun(cfg, ByteInit(cfg), ls).pc.AtLoop?
    requires forall ch :: ch in ByteRun(cfg, ByteInit(cfg), ls).chan ==> ch.req == [] && ch.rep == [] && !ch.busy
    requires c < |ByteRun(cfg, ByteInit(cfg), ls).front.conns|
    ensures var got := ByteRun(cfg, ByteInit(cfg), ls).front.conns[c].outbox;
      && CountReplies(got, Success) == ByteForwards(cfg, ByteInit(cfg), ls, c)
      && CountReplies(got, Success) + CountReplies(got, Failure)
         == ByteDataReads(cfg, ByteInit(cfg), ls, c) + ByteAgainReads(cfg, ByteInit(cfg), ls, c)
  {
    BytesRefineRecords(cfg, ls);
    InitInv(cfg);
    SameNoEarlyClose(cfg, ByteInit(cfg), Init(cfg), ls);
    SameCounts(cfg, ByteInit(cfg), Init(cfg), ls, c);
    EmptyStreams(ByteRun(cfg, ByteInit(cfg), ls), Run(cfg, Init(cfg), ls));
    OneReplyPerRead(cfg, ls, c);
  }
}
