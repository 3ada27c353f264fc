/** The two loops as they are written, over the mutable buffers `buf` and `mess`: the body
    of the distributor's event loop and the servers' echo loop. The kernel (sockets, epoll)
    is the state they work on; its choices, and what clients and servers do in between, are
    parameters. Each method's effect is a run of the byte system, so everything proved about
    runs holds of the objects. A `write` to a server that finds no room leaves the thread
    inside that `write`. */
module DistributorThread {
  import opened Common
  import opened Wire
  import opened Routing
  import opened RoutingSafety
  import opened ByteRouting

  /** What the kernel and the random engine decide while one event is handled (descriptors
      `accept` returns, a reset connection, the server drawn, a failing forward), and what
      clients and servers try to do before the event and before the write to the server. */
  datatype Choice = Choice(
    before: seq<Label>, accepted: seq<int32>, reset: bool, server: nat, meanwhile: seq<Label>, ok: bool)

  // ----- clients and servers -----

  predicate IsEnvironment(l: Label) {
    l.ClientSend? || l.ClientFinish? || l.Take? || l.Echo?
  }

  /** Those of the steps that are possible when their turn comes. */
  ghost function EnvScript(cfg: Config, b: ByteState, ls: seq<Label>): seq<Label>
    requires |b.chan| == SERVERS_NUM
    decreases |ls|
  {
    if ls == [] then []
    else if IsEnvironment(ls[0]) && ByteEnabled(cfg, b, ls[0])
    then [ls[0]] + EnvScript(cfg, ByteApply(cfg, b, ls[0]), ls[1..])
    else EnvScript(cfg, b, ls[1..])
  }

  ghost function AfterEnv(cfg: Config, b: ByteState, ls: seq<Label>): (t: ByteState)
    requires |b.chan| == SERVERS_NUM
    ensures |t.chan| == SERVERS_NUM
    decreases |ls|
  {
    if ls == [] then b
    else if IsEnvironment(ls[0]) && ByteEnabled(cfg, b, ls[0])
    then AfterEnv(cfg, ByteApply(cfg, b, ls[0]), ls[1..])
    else AfterEnv(cfg, b, ls[1..])
  }

  /** The distributor does not move meanwhile. */
  lemma EnvStep(cfg: Config, b: ByteState, l: Label)
    requires |b.chan| == SERVERS_NUM && IsEnvironment(l) && ByteEnabled(cfg, b, l)
    ensures var t := ByteApply(cfg, b, l);
      t.pc == b.pc && t.mess == b.mess && t.front.batch == b.front.batch && t.front.open == b.front.open
  {
  }

  lemma {:induction false} EnvQuiet(cfg: Config, b: ByteState, ls: seq<Label>)
    requires |b.chan| == SERVERS_NUM
    ensures var t := AfterEnv(cfg, b, ls);
      t.pc == b.pc && t.mess == b.mess && t.front.batch == b.front.batch && t.front.open == b.front.open
    decreases |ls|
  {
    if ls != [] {
      if IsEnvironment(ls[0]) && ByteEnabled(cfg, b, ls[0]) {
        EnvStep(cfg, b, ls[0]);
        EnvQuiet(cfg, ByteApply(cfg, b, ls[0]), ls[1..]);
      } else {
        EnvQuiet(cfg, b, ls[1..]);
      }
    }
  }

  // ----- the distributor's system calls, event by event -----

  /** The write to the server drawn, after what happens while it waits. */
  ghost function ForwardScript(cfg: Config, b: ByteState, ok: bool, meanwhile: seq<Label>): seq<Label>
    requires |b.chan| == SERVERS_NUM && b.pc.AtForward? && b.pc.server < SERVERS_NUM
  {
    EnvScript(cfg, b, meanwhile) +
    if !ok then [Forward(false), WriteError] else if Blocks(cfg, b, ok, meanwhile) then [] else [Forward(true)]
  }

  /** The write does not fail and finds no room. */
  ghost predicate Blocks(cfg: Config, b: ByteState, ok: bool, meanwhile: seq<Label>)
    requires |b.chan| == SERVERS_NUM && b.pc.AtForward? && b.pc.server < SERVERS_NUM
  {
    ok && !Room(cfg, AfterEnv(cfg, b, meanwhile).chan[b.pc.server].req)
  }

  /** The state at the write to server k of the request just read. */
  ghost function AtWrite(cfg: Config, b: ByteState, choice: Choice): (t: ByteState)
    requires |b.chan| == SERVERS_NUM && ByteEnabled(cfg, b, ReadClient(choice.reset)) && choice.server < SERVERS_NUM
    requires ReadRequest(b.front, choice.reset).1.Full?
    ensures |t.chan| == SERVERS_NUM && t.pc.AtForward? && t.pc.server == choice.server
  {
    ByteApply(cfg, ByteApply(cfg, b, ReadClient(choice.reset)), Pick(choice.server))
  }

  /** A readable client. */
  ghost function ClientScript(cfg: Config, b: ByteState, choice: Choice): seq<Label>
    requires |b.chan| == SERVERS_NUM && AtByteClient(cfg, b) && choice.server < SERVERS_NUM
  {
    [ReadClient(choice.reset)] +
    match ReadRequest(b.front, choice.reset).1
    case Shut => []
    case Fatal => []
    case Short(_) => [WriteError]
    case Full(_, _, _) =>
      [Pick(choice.server)] + ForwardScript(cfg, AtWrite(cfg, b, choice), choice.ok, choice.meanwhile)
  }

  ghost predicate ClientBlocks(cfg: Config, b: ByteState, choice: Choice)
    requires |b.chan| == SERVERS_NUM && AtByteClient(cfg, b) && choice.server < SERVERS_NUM
  {
    && ReadRequest(b.front, choice.reset).1.Full?
    && Blocks(cfg, AtWrite(cfg, b, choice), choice.ok, choice.meanwhile)
  }

  /** How many of the descriptors the kernel can hand out, one after the other. */
  ghost function Granted(cfg: Config, f: Front, fds: seq<int32>): (n: nat)
    ensures n <= |fds|
    decreases |fds|
  {
    if fds != [] && Grantable(cfg, f, fds[0]) then 1 + Granted(cfg, f.Accept(fds[0]), fds[1..]) else 0
  }

  predicate Grantable(cfg: Config, f: Front, fd: int32) {
    fd >= 0 && fd !in cfg.reserved && fd !in f.open
  }

  ghost function Accepts(fds: seq<int32>): seq<Label> {
    seq(|fds|, i requires 0 <= i < |fds| => Accept(fds[i]))
  }

  lemma AcceptNext(cfg: Config, f: Front, fds: seq<int32>, n: nat)
    requires n < |fds| && Grantable(cfg, f, fds[n])
    ensures Granted(cfg, f, fds[n..]) == 1 + Granted(cfg, f.Accept(fds[n]), fds[n + 1..])
    ensures Accepts(fds[..n + 1]) == Accepts(fds[..n]) + [Accept(fds[n])]
  {
    assert fds[n..][1..] == fds[n + 1..];
  }

  /** An event, in the state in which it is looked at. */
  ghost function EventScript(cfg: Config, b: ByteState, choice: Choice): seq<Label>
    requires |b.chan| == SERVERS_NUM && AtByteEvent(b) && choice.server < SERVERS_NUM
  {
    if b.front.batch[0].fd == cfg.listenFd then
      Accepts(choice.accepted[..Granted(cfg, b.front, choice.accepted)]) + [AcceptDone]
    else if AtByteClient(cfg, b) then ClientScript(cfg, b, choice)
    else if AtByteServer(cfg, b) then [ReadServer, WriteSuccess]
    else [SkipEvent]
  }

  /** The event leaves the thread inside the write to a server. */
  ghost predicate EventBlocks(cfg: Config, b: ByteState, choice: Choice)
    requires |b.chan| == SERVERS_NUM && AtByteEvent(b) && choice.server < SERVERS_NUM
  {
    AtByteClient(cfg, b) && ClientBlocks(cfg, b, choice)
  }

  /** The state after these steps, as far as they are possible. */
  ghost function After(cfg: Config, b: ByteState, ls: seq<Label>): (t: ByteState)
    requires |b.chan| == SERVERS_NUM
    ensures |t.chan| == SERVERS_NUM
    decreases |ls|
  {
    if ls == [] || !ByteEnabled(cfg, b, ls[0]) then b else After(cfg, ByteApply(cfg, b, ls[0]), ls[1..])
  }

  lemma {:induction false} AfterAll(cfg: Config, b: ByteState, ls: seq<Label>)
    requires |b.chan| == SERVERS_NUM && ByteCanRun(cfg, b, ls)
    ensures After(cfg, b, ls) == ByteRun(cfg, b, ls)
    decreases |ls|
  {
    if ls != [] {
      AfterAll(cfg, ByteApply(cfg, b, ls[0]), ls[1..]);
    }
  }

  /** What follows a run is the rest of the run it belongs to. */
  lemma {:induction false} AfterRun(cfg: Config, b: ByteState, ls: seq<Label>, more: seq<Label>)
    requires |b.chan| == SERVERS_NUM && ByteCanRun(cfg, b, ls + more)
    ensures ByteCanRun(cfg, b, ls) && After(cfg, ByteRun(cfg, b, ls), more) == ByteRun(cfg, b, ls + more)
    decreases |ls|
  {
    if ls == [] {
      assert [] + more == more;
      AfterAll(cfg, b, more);
    } else {
      assert (ls + more)[1..] == ls[1..] + more && (ls + more)[0] == ls[0];
      AfterRun(cfg, ByteApply(cfg, b, ls[0]), ls[1..], more);
    }
  }

  /** An event with what clients and servers do before it. */
  ghost function ScriptOf(cfg: Config, b: ByteState, choice: Choice): seq<Label>
    requires |b.chan| == SERVERS_NUM && AtByteEvent(AfterEnv(cfg, b, choice.before)) && choice.server < SERVERS_NUM
  {
    EnvScript(cfg, b, choice.before) + EventScript(cfg, AfterEnv(cfg, b, choice.before), choice)
  }

  lemma ScriptJoins(cfg: Config, b: ByteState, choice: Choice, base: seq<Label>)
    requires |b.chan| == SERVERS_NUM && AtByteEvent(AfterEnv(cfg, b, choice.before)) && choice.server < SERVERS_NUM
    ensures base + EnvScript(cfg, b, choice.before) + EventScript(cfg, AfterEnv(cfg, b, choice.before), choice)
         == base + ScriptOf(cfg, b, choice)
  {
  }

  /** What a loop over the rest of a batch costs, where it ends, and after how many events. */
  datatype Progress = Progress(script: seq<Label>, end: ByteState, served: nat)

  /** The events left, each with its choices: one after the other until none is left, or up
      to and including the first that blocks. */
  ghost function Rest(cfg: Config, b: ByteState, choices: seq<Choice>): (p: Progress)
    requires |b.chan| == SERVERS_NUM && forall i :: 0 <= i < |choices| ==> choices[i].server < SERVERS_NUM
    ensures p.served <= |choices|
    decreases |choices|
  {
    if choices == [] || !AtByteEvent(AfterEnv(cfg, b, choices[0].before)) then Progress([], b, 0)
    else
      var e := AfterEnv(cfg, b, choices[0].before);
      var script := ScriptOf(cfg, b, choices[0]);
      var end := After(cfg, e, EventScript(cfg, e, choices[0]));
      if EventBlocks(cfg, e, choices[0]) then Progress(script, end, 1)
      else
        Joined(script, 1, Rest(cfg, end, choices[1..]))
  }

  /** The same with something done before. */
  ghost function Joined(script: seq<Label>, n: nat, p: Progress): Progress {
    Progress(script + p.script, p.end, n + p.served)
  }

  lemma JoinedStep(done: seq<Label>, n: nat, script: seq<Label>, p: Progress)
    ensures Joined(done, n, Joined(script, 1, p)) == Joined(done + script, n + 1, p)
  {
    assert done + (script + p.script) == (done + script) + p.script;
  }

  /** One event less, after `done` and n events. */
  lemma RestStep(cfg: Config, b: ByteState, choices: seq<Choice>, done: seq<Label>, n: nat)
    requires |b.chan| == SERVERS_NUM && forall i :: 0 <= i < |choices| ==> choices[i].server < SERVERS_NUM
    requires choices != [] && AtByteEvent(AfterEnv(cfg, b, choices[0].before))
    ensures var e := AfterEnv(cfg, b, choices[0].before);
      var script := ScriptOf(cfg, b, choices[0]);
      var end := After(cfg, e, EventScript(cfg, e, choices[0]));
      Joined(done, n, Rest(cfg, b, choices)) ==
        if EventBlocks(cfg, e, choices[0]) then Progress(done + script, end, n + 1)
        else Joined(done + script, n + 1, Rest(cfg, end, choices[1..]))
  {
    var e := AfterEnv(cfg, b, choices[0].before);
    var script := ScriptOf(cfg, b, choices[0]);
    if !EventBlocks(cfg, e, choices[0]) {
      JoinedStep(done, n, script, Rest(cfg, After(cfg, e, EventScript(cfg, e, choices[0])), choices[1..]));
    }
  }

  lemma NothingDone(p: Progress)
    ensures Joined([], 0, p) == p
  {
    assert [] + p.script == p.script;
  }

  /** The kernel's part of `read(fd, &mess, 20)`: the bytes there are, up to 20, go to the
      front of the buffer. */
  method CopyIn(stream: seq<byte>, mess: array<byte>) returns (readn: nat)
    requires mess.Length == MESS_LEN
    modifies mess
    ensures readn == Min(MESS_LEN, |stream|)
    ensures (mess[..], stream[readn..], readn) == ReadInto(stream, old(mess[..]))
  {
    readn := Min(MESS_LEN, |stream|);
    for i := 0 to readn
      invariant forall j :: 0 <= j < i ==> mess[j] == stream[j]
      invariant forall j :: i <= j < MESS_LEN ==> mess[j] == old(mess[j])
    {
      mess[i] := stream[i];
    }
    assert mess[..] == stream[..readn] + old(mess[..])[readn..];
  }

  class Distributor {
    const cfg: Config
    const mess: array<byte>
    const buf: array<byte>
    var front: Front
    var chan: seq<ByteChannel>
    /** Where the thread stands, with the local variables that are live there. */
    var pc: Pc
    ghost var log: seq<Label>

    ghost predicate Shape()
      reads this, mess, buf
    {
      mess.Length == MESS_LEN && buf.Length == NORMAL_LEN && mess != buf && |chan| == SERVERS_NUM
    }

    ghost function Now(): (b: ByteState)
      requires Shape()
      reads this, mess, buf
      ensures |b.chan| == SERVERS_NUM
    {
      ByteState(front, pc, mess[..], chan)
    }

    /** The history is a run of the byte system that leads to the present state. */
    ghost predicate Valid()
      reads this, mess, buf
    {
      && Shape()
      && ByteCanRun(cfg, ByteInit(cfg), log)
      && ByteRun(cfg, ByteInit(cfg), log) == Now()
    }

    constructor (cfg: Config)
      ensures Valid() && log == [] && this.cfg == cfg && pc == AtLoop
      ensures fresh(mess) && fresh(buf)
    {
      this.cfg := cfg;
      front, pc := Init(cfg).front, AtLoop;
      chan := seq(SERVERS_NUM, i => ByteChannel([], seq(MESS_LEN, i => 0), false, []));
      log := [];
      mess := new byte[MESS_LEN](i => 0);
      buf := new byte[NORMAL_LEN](i => 0);
      new;
      assert mess[..] == ByteInit(cfg).mess;
    }

    /** One more step has been taken, and the fields already show its effect. */
    ghost method Record(b: ByteState, l: Label)
      requires Shape() && ByteCanRun(cfg, ByteInit(cfg), log) && ByteRun(cfg, ByteInit(cfg), log) == b
      requires ByteEnabled(cfg, b, l) && Now() == ByteApply(cfg, b, l)
      modifies this`log
      ensures Valid() && log == old(log) + [l]
    {
      ByteRunAppend(cfg, ByteInit(cfg), log, l);
      log := log + [l];
    }

    /** The record state the history leads to. */
    ghost function Records(): State
      requires Valid()
      reads this, mess, buf
    {
      BytesRefineRecords(cfg, log);
      Run(cfg, Init(cfg), log)
    }

    lemma Known()
      requires Valid()
      ensures CanRun(cfg, Init(cfg), log) && Records() == Run(cfg, Init(cfg), log)
      ensures Inv(cfg, Records()) && Refines(Now(), Records())
    {
      BytesRefineRecords(cfg, log);
      InvFromStart(cfg, log);
    }

    /** A client or a server makes this step if it is possible. */
    method Attempt(l: Label) returns (done: bool)
      requires Valid()
      modifies this`front, this`chan, this`log
      ensures Valid() && front.batch == old(front).batch
      ensures done <==> IsEnvironment(l) && ByteEnabled(cfg, old(Now()), l)
      ensures if done then Now() == ByteApply(cfg, old(Now()), l) && log == old(log) + [l]
              else Now() == old(Now()) && log == old(log)
    {
      var b := ByteState(front, pc, mess[..], chan);
      done := IsEnvironment(l) && ByteEnabled(cfg, b, l);
      if done {
        EnvStep(cfg, b, l);
        var t := ByteApply(cfg, b, l);
        front, chan := t.front, t.chan;
        Record(b, l);
      }
    }

    /** Clients and servers go on by as many of these steps as are possible. */
    method Environment(ls: seq<Label>)
      requires Valid()
      modifies this`front, this`chan, this`log
      ensures Valid() && log == old(log) + EnvScript(cfg, old(Now()), ls)
      ensures Now() == AfterEnv(cfg, old(Now()), ls)
      ensures front.batch == old(front).batch
      decreases |ls|
    {
      if ls != [] {
        var done := Attempt(ls[0]);
        ghost var rest := EnvScript(cfg, Now(), ls[1..]);
        assert done ==> log + rest == old(log) + ([ls[0]] + rest);
        Environment(ls[1..]);
      }
    }

    /** `write(fd, res, 16)` */
    method Reply(fd: int, reply: Reply)
      modifies this`front
      ensures front == old(front).Write(fd, reply)
    {
      if fd in front.open && front.open[fd] < |front.conns| {
        var c := front.open[fd];
        var conn := front.conns[c];
        front := front.(conns := front.conns[c := conn.(outbox := conn.outbox + [reply])]);
      }
    }

    /** `read(fd, buf, 16)` on a client: -1 with or without EAGAIN, 0 at the end, else the
        number of bytes moved into `buf`. */
    method ReadSocket(fd: int, reset: bool) returns (readn: int, again: bool)
      requires Shape() && front.Find(fd).Some?
      modifies this`front, buf
      ensures var c := old(front).Find(fd).value; var conn := old(front).conns[c];
        if reset then readn == -1 && !again && front == old(front)
        else if conn.inbox == [] then readn == (if conn.eof then 0 else -1) && again && front == old(front)
        else
          && readn == Min(NORMAL_LEN, |conn.inbox|)
          && front == old(front).(conns := old(front).conns[c := conn.(inbox := conn.inbox[readn..])])
          && buf[..readn] == conn.inbox[..readn]
    {
      var c := front.open[fd];
      var conn := front.conns[c];
      if reset {
        return -1, false;
      }
      if conn.inbox == [] {
        return if conn.eof then 0 else -1, true;
      }
      readn, again := Min(NORMAL_LEN, |conn.inbox|), false;
      for i := 0 to readn
        invariant front == old(front)
        invariant buf[..i] == conn.inbox[..i]
      {
        buf[i] := conn.inbox[i];
      }
      front := front.(conns := front.conns[c := conn.(inbox := conn.inbox[readn..])]);
    }

    /** `mess.fd = fd; memcpy(mess.m, buf, 16);` */
    method FillMessage(fd: int32)
      requires Shape()
      modifies mess
      ensures mess[..] == EncodeFd(fd) + buf[..]
    {
      var head := EncodeFd(fd);
      for i := 0 to 4
        invariant mess[..i] == head[..i]
      {
        mess[i] := head[i];
      }
      for i := 0 to NORMAL_LEN
        invariant mess[..4] == head
        invariant mess[4..4 + i] == buf[..i]
      {
        mess[4 + i] := buf[i];
      }
      assert mess[..] == mess[..4] + mess[4..4 + NORMAL_LEN];
    }

    /** `write(CurSelectedServer_fd, &mess, 20)`: all or nothing. Without room, and unless it
        fails, it does not return. */
    method WriteServer(k: nat, ok: bool) returns (writen: int, blocked: bool)
      requires Shape() && k < SERVERS_NUM
      modifies this`chan
      ensures blocked <==> ok && !Room(cfg, old(chan)[k].req)
      ensures !blocked ==> writen == if ok then MESS_LEN else -1
      ensures chan == if ok && !blocked then old(chan)[k := old(chan)[k].(req := old(chan)[k].req + mess[..])]
                      else old(chan)
    {
      writen, blocked := -1, false;
      if ok && Room(cfg, chan[k].req) {
        chan := chan[k := chan[k].(req := chan[k].req + mess[..])];
        writen := MESS_LEN;
      } else if ok {
        blocked := true;
      }
    }

    /** `write(fd, err_res, 16)` */
    method Refuse(fd: int32)
      requires Valid() && pc == AtRefuse(fd)
      modifies this
      ensures Valid() && pc == AtLoop && log == old(log) + [WriteError] && front.batch == old(front).batch
    {
      ghost var b := Now();
      Reply(fd, Failure);
      pc := AtLoop;
      Record(b, WriteError);
    }

    lemma ServerInRange()
      requires Valid() && pc.AtForward?
      ensures pc.server < SERVERS_NUM
    {
      Known();
    }

    /** The forward itself: it does not return exactly when it does not fail and there is no
        room, and the client is refused exactly when it fails. */
    method TryForward(ok: bool)
      requires Valid() && pc.AtForward? && pc.server < SERVERS_NUM
      modifies this
      ensures Valid() && front.batch == old(front).batch
      ensures var stuck := ok && !Room(cfg, old(chan)[old(pc).server].req);
        && pc == (if stuck then old(pc) else AtLoop)
        && (stuck ==> chan == old(chan))
        && log == old(log) + if !ok then [Forward(false), WriteError] else if stuck then [] else [Forward(true)]
    {
      var fd, k := pc.fd, pc.server;
      ghost var b := Now();
      var writen, blocked := WriteServer(k, ok);
      if blocked {
        return;
      }
      if writen != MESS_LEN {
        pc := AtRefuse(fd);
        Record(b, Forward(false));
        Refuse(fd);
      } else {
        pc := AtLoop;
        Record(b, Forward(true));
      }
    }

    /** The forward, after whatever happens while the thread waits in it. It stays blocked
        exactly when it does not fail and there still is no room; otherwise the client is
        refused exactly when the write failed. */
    method Resume(ok: bool, meanwhile: seq<Label>)
      requires Valid() && pc.AtForward?
      modifies this
      ensures Valid() && front.batch == old(front).batch && old(pc).server < SERVERS_NUM
      ensures log == old(log) + ForwardScript(cfg, old(Now()), ok, meanwhile)
      ensures pc == if Blocks(cfg, old(Now()), ok, meanwhile) then old(pc) else AtLoop
      ensures pc.AtForward? ==> !Room(cfg, chan[pc.server].req)
    {
      ServerInRange();
      EnvQuiet(cfg, Now(), meanwhile);
      Environment(meanwhile);
      TryForward(ok);
    }

    /** `get_curSelectedServer_fd` and the forward of the message just filled. */
    method Dispatch(fd: int32, k: nat, ok: bool, meanwhile: seq<Label>)
      requires Valid() && pc == AtPick(fd) && k < SERVERS_NUM
      modifies this
      ensures Valid() && front.batch == old(front).batch
      ensures var b := ByteApply(cfg, old(Now()), Pick(k));
        && log == old(log) + [Pick(k)] + ForwardScript(cfg, b, ok, meanwhile)
        && (pc == if Blocks(cfg, b, ok, meanwhile) then AtForward(fd, k) else AtLoop)
      ensures pc.AtForward? ==> !Room(cfg, chan[pc.server].req)
    {
      ghost var b := Now();
      pc := AtForward(fd, k);
      Record(b, Pick(k));
      Resume(ok, meanwhile);
    }

    /** The read of a client and the branch it takes: closed, a message filled, or refused. */
    method TakeRequest(reset: bool)
      requires Valid() && AtByteClient(cfg, Now())
      modifies this, mess, buf
      ensures Valid() && Now() == ByteApply(cfg, old(Now()), ReadClient(reset)) && log == old(log) + [ReadClient(reset)]
      ensures front.batch == old(front).batch[1..] && (pc.AtLoop? || pc.AtPick? || pc.AtRefuse?)
      ensures pc.AtPick? <==> ReadRequest(old(front), reset).1.Full?
      ensures pc.AtRefuse? <==> ReadRequest(old(front), reset).1.Short?
    {
      ghost var b, f := Now(), front;
      ClientEvent();
      var fd := front.batch[0].fd;
      var c := front.open[fd];
      var clientFd := front.conns[c].fd;
      var readn, again := ReadSocket(fd, reset);
      front := front.Pop();
      if readn == 0 || (readn < 0 && !again) {
        front := front.Close(fd);
      } else if readn == NORMAL_LEN {
        FillMessage(clientFd);
        assert buf[..] == buf[..readn];
        pc := AtPick(clientFd);
      } else {
        ghost var conn := f.conns[c];
        assert if readn < 0 then conn == conn.(inbox := []) else conn.inbox[readn..] == [];
        assert front.conns == f.conns[c := conn.(inbox := [])];
        pc := AtRefuse(clientFd);
      }
      Record(b, ReadClient(reset));
    }

    /** The branch for a descriptor outside `serverFd_set`. */
    method ServeClient(choice: Choice)
      requires Valid() && AtByteClient(cfg, Now()) && choice.server < SERVERS_NUM
      modifies this, mess, buf
      ensures Valid() && log == old(log) + ClientScript(cfg, old(Now()), choice)
      ensures front.batch == old(front).batch[1..] && (pc.AtLoop? || pc.AtForward?)
      ensures pc.AtForward? <==> ClientBlocks(cfg, old(Now()), choice)
      ensures pc.AtForward? ==> pc.server < SERVERS_NUM && !Room(cfg, chan[pc.server].req)
    {
      TakeRequest(choice.reset);
      if pc.AtPick? {
        Dispatch(pc.fd, choice.server, choice.ok, choice.meanwhile);
      } else if pc.AtRefuse? {
        Refuse(pc.fd);
      }
    }

    /** A client event at hand names an open connection. */
    lemma ClientEvent()
      requires Valid() && AtByteClient(cfg, Now())
      ensures front.Find(front.batch[0].fd).Some?
      ensures front.conns[front.open[front.batch[0].fd]].fd == front.batch[0].fd
    {
      Known();
      assert front.batch[0].fd in front.interest;
    }

    /** A server event at hand means a whole record is waiting, for a positive descriptor. */
    lemma ServerEvent()
      requires Valid() && AtByteServer(cfg, Now())
      ensures var stream := chan[ServerOf(cfg, front.batch[0].fd)].rep;
        |stream| >= MESS_LEN && DecodeFd(stream[..4]) > 0
    {
      Known();
      var s, k := Records(), ServerOf(cfg, front.batch[0].fd);
      assert ChannelRefines(chan[k], s.chan[k]);
      var rec := s.chan[k].rep[0];
      assert rec in InFlight(s, k);
      InFlightOk(cfg, s, k, rec);
      ImageHead(Messages(s.chan[k].rep));
      DecodeEncode(rec.msg);
      assert chan[k].rep[..4] == Encode(rec.msg)[..4];
    }

    /** `read(fd, &mess, 20)` on a server: overwrites the front of `mess`. */
    method ReadMessage(k: nat) returns (readn: nat)
      requires Shape() && k < SERVERS_NUM
      modifies this`chan, mess
      ensures var (m, rest, n) := ReadInto(old(chan)[k].rep, old(mess[..]));
        readn == n && mess[..] == m && chan == old(chan)[k := old(chan)[k].(rep := rest)]
    {
      readn := CopyIn(chan[k].rep, mess);
      chan := chan[k := chan[k].(rep := chan[k].rep[readn..])];
    }

    /** The branch for a descriptor in `serverFd_set`. The source's own assertion that the
        client descriptor is positive is proved here. */
    method ServeServer()
      requires Valid() && AtByteServer(cfg, Now())
      modifies this, mess
      ensures Valid() && pc == AtLoop && log == old(log) + [ReadServer, WriteSuccess]
      ensures front.batch == old(front).batch[1..]
    {
      ghost var b := Now();
      ServerEvent();
      var k := ServerOf(cfg, front.batch[0].fd);
      var readn := ReadMessage(k);
      front := front.Pop();
      pc := AtReply(k, readn);
      Record(b, ReadServer);
      b := Now();
      var clientFd := DecodeFd(mess[..4]);
      assert clientFd > 0;
      Reply(clientFd, if readn != MESS_LEN then Failure else Success);
      pc := AtLoop;
      Record(b, WriteSuccess);
    }

    /** The accept loop of the listener's event; EAGAIN ends it. */
    method AcceptAll(fds: seq<int32>)
      requires Valid() && AtByteEvent(Now()) && front.batch[0].fd == cfg.listenFd
      modifies this
      ensures Valid() && pc == AtLoop && front.batch == old(front).batch[1..]
      ensures log == old(log) + Accepts(fds[..Granted(cfg, old(front), fds)]) + [AcceptDone]
    {
      var n := 0;
      while n < |fds| && Grantable(cfg, front, fds[n])
        invariant n <= |fds| && Valid() && pc == AtLoop
        invariant log == old(log) + Accepts(fds[..n])
        invariant front.batch == old(front).batch
        invariant n + Granted(cfg, front, fds[n..]) == Granted(cfg, old(front), fds)
      {
        ghost var b := Now();
        AcceptNext(cfg, front, fds, n);
        front := front.Accept(fds[n]);
        Record(b, Accept(fds[n]));
        n := n + 1;
      }
      ghost var b := Now();
      front := front.Pop();
      Record(b, AcceptDone);
    }

    /** The body of the loop over the batch: exactly which system calls each kind of event
        costs. The thread is left inside the write to a server exactly when that write does
        not fail and finds no room. */
    method HandleEvent(choice: Choice)
      requires Valid() && AtByteEvent(Now()) && choice.server < SERVERS_NUM
      modifies this, mess, buf
      ensures Valid() && front.batch == old(front).batch[1..] && (pc.AtLoop? || pc.AtForward?)
      ensures log == old(log) + EventScript(cfg, old(Now()), choice)
      ensures pc.AtForward? <==> EventBlocks(cfg, old(Now()), choice)
      ensures pc.AtForward? ==> choice.ok && pc.server < SERVERS_NUM && !Room(cfg, chan[pc.server].req)
    {
      var ev := front.batch[0];
      if ev.fd == cfg.listenFd {
        AcceptAll(choice.accepted);
      } else if ev.readable {
        if ev.fd !in cfg.serverFd {
          ServeClient(choice);
        } else {
          ServeServer();
        }
      } else {
        ghost var b := Now();
        front := front.Pop();
        Record(b, SkipEvent);
      }
    }

    /** What the history gained since `before` leads from the state then to the state now. */
    lemma Traced(before: seq<Label>, script: seq<Label>)
      requires Valid() && log == before + script
      ensures ByteCanRun(cfg, ByteInit(cfg), before)
      ensures Now() == After(cfg, ByteRun(cfg, ByteInit(cfg), before), script)
    {
      AfterRun(cfg, ByteInit(cfg), before, script);
    }

    /** And where that leads. */
    method HandleTraced(choice: Choice)
      requires Valid() && AtByteEvent(Now()) && choice.server < SERVERS_NUM
      modifies this, mess, buf
      ensures Valid() && front.batch == old(front).batch[1..] && (pc.AtLoop? || pc.AtForward?)
      ensures log == old(log) + EventScript(cfg, old(Now()), choice)
      ensures Now() == After(cfg, old(Now()), EventScript(cfg, old(Now()), choice))
      ensures pc.AtForward? <==> EventBlocks(cfg, old(Now()), choice)
      ensures pc.AtForward? ==> choice.ok && pc.server < SERVERS_NUM && !Room(cfg, chan[pc.server].req)
    {
      ghost var b, before := Now(), log;
      HandleEvent(choice);
      Traced(before, EventScript(cfg, b, choice));
    }

    /** The same after what clients and servers do first. */
    method ServeEvent(choice: Choice)
      requires Valid() && AtByteEvent(Now()) && choice.server < SERVERS_NUM
      modifies this, mess, buf
      ensures Valid() && front.batch == old(front).batch[1..] && (pc.AtLoop? || pc.AtForward?)
      ensures var b := AfterEnv(cfg, old(Now()), choice.before);
        && AtByteEvent(b)
        && log == old(log) + ScriptOf(cfg, old(Now()), choice)
        && Now() == After(cfg, b, EventScript(cfg, b, choice))
        && (pc.AtForward? <==> EventBlocks(cfg, b, choice))
      ensures pc.AtForward? ==> choice.ok && pc.server < SERVERS_NUM && !Room(cfg, chan[pc.server].req)
    {
      ghost var start, base := Now(), log;
      Environment(choice.before);
      HandleTraced(choice);
      ScriptJoins(cfg, start, choice, base);
    }

    /** `epoll_wait` */
    method Wait(events: seq<Event>)
      requires Valid() && pc == AtLoop && front.batch == []
      requires CanReport(cfg, front, HasBytes(chan), events)
      modifies this`front, this`log
      ensures Valid() && front == old(front).(batch := events) && log == old(log) + [Poll(events)]
    {
      ghost var b := Now();
      front := front.(batch := events);
      Record(b, Poll(events));
    }

    /** n events have been served since the history was `base`, and these choices are for the
        ones left, with `all` as the outcome in the end. */
    ghost predicate Halfway(all: Progress, base: seq<Label>, n: nat, left: seq<Choice>)
      requires Shape() && forall i :: 0 <= i < |left| ==> left[i].server < SERVERS_NUM
      reads this, mess, buf
    {
      base <= log && Joined(log[|base|..], n, Rest(cfg, Now(), left)) == all
    }

    /** One turn of the loop over a batch. */
    method ServeNext(ghost all: Progress, ghost base: seq<Label>, ghost n: nat, left: seq<Choice>)
      requires Valid() && pc == AtLoop && front.batch != [] && left != []
      requires forall i :: 0 <= i < |left| ==> left[i].server < SERVERS_NUM
      requires Halfway(all, base, n, left)
      modifies this, mess, buf
      ensures Valid() && front.batch == old(front).batch[1..] && (pc.AtLoop? || pc.AtForward?)
      ensures pc.AtLoop? ==> Halfway(all, base, n + 1, left[1..])
      ensures pc.AtForward? ==> base <= log && Progress(log[|base|..], Now(), n + 1) == all
      ensures pc.AtForward? ==> left[0].ok && pc.server < SERVERS_NUM && !Room(cfg, chan[pc.server].req)
    {
      EnvQuiet(cfg, Now(), left[0].before);
      RestStep(cfg, Now(), left, log[|base|..], n);
      ghost var script := ScriptOf(cfg, Now(), left[0]);
      assert (log + script)[|base|..] == log[|base|..] + script;
      ServeEvent(left[0]);
    }

    /** The loop over what is left of a batch: every event in turn with its own choices, up
        to the first that blocks, if any. Then the thread stands inside a write to a full
        server with the events behind it left, and `Resume` is what goes on. */
    method ServeRest(choices: seq<Choice>) returns (n: nat)
      requires Valid() && pc == AtLoop && |choices| == |front.batch|
      requires forall i :: 0 <= i < |choices| ==> choices[i].server < SERVERS_NUM
      modifies this, mess, buf
      ensures Valid() && log == old(log) + Rest(cfg, old(Now()), choices).script
      ensures Now() == Rest(cfg, old(Now()), choices).end && n == Rest(cfg, old(Now()), choices).served
      ensures front.batch == old(front).batch[n..]
      ensures pc == AtLoop ==> n == |choices|
      ensures pc != AtLoop ==>
        pc.AtForward? && n > 0 && choices[n - 1].ok && pc.server < SERVERS_NUM && !Room(cfg, chan[pc.server].req)
    {
      ghost var events := front.batch;
      ghost var all := Rest(cfg, Now(), choices);
      NothingDone(all);
      assert log[|log|..] == [];
      n := 0;
      while n < |choices|
        invariant n <= |choices| && Valid() && pc == AtLoop
        invariant front.batch == events[n..]
        invariant Halfway(all, old(log), n, choices[n..])
      {
        ServeNext(all, old(log), n, choices[n..]);
        assert choices[n..][1..] == choices[n + 1..];
        n := n + 1;
        if pc != AtLoop {
          return;
        }
      }
    }

    /** One round of the outer loop: `epoll_wait`, then the events of the batch in turn. */
    method ServeBatch(events: seq<Event>, choices: seq<Choice>) returns (n: nat)
      requires Valid() && pc == AtLoop && front.batch == []
      requires CanReport(cfg, front, HasBytes(chan), events)
      requires |choices| == |events| && forall i :: 0 <= i < |choices| ==> choices[i].server < SERVERS_NUM
      modifies this, mess, buf
      ensures var b := old(Now()).(front := old(front).(batch := events));
        Valid() && log == old(log) + [Poll(events)] + Rest(cfg, b, choices).script
        && Now() == Rest(cfg, b, choices).end && n == Rest(cfg, b, choices).served
      ensures front.batch == events[n..]
      ensures pc == AtLoop ==> n == |events|
      ensures pc != AtLoop ==>
        pc.AtForward? && n > 0 && choices[n - 1].ok && pc.server < SERVERS_NUM && !Room(cfg, chan[pc.server].req)
    {
      Wait(events);
      n := ServeRest(choices);
    }
  }

  /** A server's worker thread: one buffer, one connection to the distributor. */
  class EchoServer {
    const cfg: Config
    const mess: array<byte>
    var req: seq<byte>
    var rep: seq<byte>
    /** It has read a record and stands in the `write` of it. */
    var busy: bool

    ghost predicate Valid()
      reads this
    {
      mess.Length == MESS_LEN && |rep| <= MESS_LEN * cfg.capacity
    }

    constructor (cfg: Config)
      ensures Valid() && fresh(mess) && req == [] && rep == [] && !busy && this.cfg == cfg
    {
      this.cfg := cfg;
      mess := new byte[MESS_LEN](i => 0);
      req, rep, busy := [], [], false;
    }

    /** The server as the byte system sees it. */
    ghost function Channel(): ByteChannel
      requires Valid()
      reads this, mess
    {
      ByteChannel(req, mess[..], busy, rep)
    }

    /** `read(do_work_fd, &mess, 20)`: the byte system's `Take`. */
    method ReadRecord() returns (readn: nat)
      requires Valid() && !busy && req != []
      modifies this`req, this`busy, mess
      ensures Valid() && Channel() == Taken(old(Channel()))
      ensures readn == Min(MESS_LEN, |old(req)|) && busy == (readn == MESS_LEN)
    {
      readn := CopyIn(req, mess);
      req := req[readn..];
      busy := readn == MESS_LEN;
    }

    /** `write(do_work_fd, &mess, 20)`: the byte system's `Echo` where there is room; without
        room it does not return. */
    method WriteRecord() returns (blocked: bool)
      requires Valid() && busy
      modifies this`rep, this`busy
      ensures Valid() && (blocked <==> !Room(cfg, old(rep)))
      ensures Channel() == if blocked then old(Channel()) else Echoed(old(Channel()))
    {
      blocked := |rep| + MESS_LEN > MESS_LEN * cfg.capacity;
      if !blocked {
        rep, busy := rep + mess[..], false;
      }
    }

    /** One turn: read up to 20 bytes, and write the buffer back if it was filled. */
    method Turn()
      requires Valid() && !busy && req != []
      modifies this, mess
      ensures Valid()
      ensures var taken := Taken(old(Channel()));
        Channel() == if taken.busy && Room(cfg, old(rep)) then Echoed(taken) else taken
    {
      var readn := ReadRecord();
      if readn == MESS_LEN {
        var _ := WriteRecord();
      }
    }

    /** The loop, as long as there is input and room. If the reply stream has room for all
        whole records, they come back unchanged and in order, and a tail that is not a whole
        record is swallowed. If not, as many come back as there is room for, and the server
        is left with the next one in its `write`. */
    method Serve() returns (ghost n: nat)
      requires Valid() && !busy
      modifies this, mess
      ensures Valid() && n % MESS_LEN == 0 && n <= |old(req)| && rep == old(rep) + old(req)[..n]
      ensures busy <==> |old(rep)| + (|old(req)| - |old(req)| % MESS_LEN) > MESS_LEN * cfg.capacity
      ensures !busy ==> req == [] && n == |old(req)| - |old(req)| % MESS_LEN
      ensures busy ==>
        && !Room(cfg, rep) && n + MESS_LEN <= |old(req)|
        && mess[..] == old(req)[n..n + MESS_LEN] && req == old(req)[n + MESS_LEN..]
    {
      ghost var all := req;
      n := 0;
      while req != []
        invariant Valid() && !busy && n % MESS_LEN == 0
        invariant n <= |all| && (req == all[n..] || (req == [] && |all| - n < MESS_LEN))
        invariant rep == old(rep) + all[..n]
        decreases |req|
      {
        ghost var before := Channel();
        Turn();
        if busy {
          NextRecord(before, all, n);
          return;
        }
        if |before.req| >= MESS_LEN {
          NextRecord(before, all, n);
          n := n + MESS_LEN;
        }
      }
    }
  }

  lemma WholeRecords(total: nat, n: nat)
    requires n <= total && n % MESS_LEN == 0
    ensures n <= total - total % MESS_LEN
  {
  }

  /** The read of a whole record from what is left behind position n. */
  lemma NextRecord(c: ByteChannel, all: seq<byte>, n: nat)
    requires n <= |all| && c.req == all[n..] && |c.req| >= MESS_LEN && n % MESS_LEN == 0
    ensures Taken(c).mess == all[n..n + MESS_LEN] && Taken(c).req == all[n + MESS_LEN..]
    ensures all[..n + MESS_LEN] == all[..n] + Taken(c).mess
    ensures n + MESS_LEN <= |all| - |all| % MESS_LEN
  {
    WholeRecords(|all|, n + MESS_LEN);
  }
}
