/** Where in a client's byte stream the forwarded requests come from. The distributor takes
    whatever a read returns: 16 bytes are a request, fewer are refused and gone, so what is
    read next starts in the middle of a request. */
module RoutingBoundaries {
  import opened Common
  import opened Wire
  import opened Routing
  import opened RoutingSafety
  import opened RoutingStartup

  /** Where a request was taken from its client's stream, and how many bytes of that stream
      short reads had thrown away by then. */
  datatype Cut = Cut(at: nat, lost: nat)

  /** Per connection, the bytes read and those of them read by short reads; the cut of the
      request in the distributor's hands, and those of the requests forwarded. */
  datatype Marks = Marks(taken: seq<nat>, lost: seq<nat>, hand: Cut, cuts: seq<Cut>)

  const START := Marks([], [], Cut(0, 0), [])

  /** What a step does to the marks; it looks at the protocol and changes nothing there. */
  function Mark(s: State, m: Marks, l: Label): (n: Marks)
    requires |m.taken| == |m.lost| == |s.front.conns|
  {
    match l
    case Accept(_) => m.(taken := m.taken + [0], lost := m.lost + [0])
    case Forward(true) => m.(cuts := m.cuts + [m.hand])
    case ReadClient(reset) =>
      if s.front.batch == [] || s.front.Find(s.front.batch[0].fd).None? then m
      else
        var c := s.front.Find(s.front.batch[0].fd).value;
        var n := |s.front.conns[c].inbox|;
        (match ReadRequest(s.front, reset).1
         case Full(_, _, _) =>
           m.(taken := m.taken[c := m.taken[c] + NORMAL_LEN], hand := Cut(m.taken[c], m.lost[c]))
         case Short(_) => m.(taken := m.taken[c := m.taken[c] + n], lost := m.lost[c := m.lost[c] + n])
         case _ => m)
    case _ => m
  }

  lemma ConnsStep(cfg: Config, s: State, l: Label)
    requires |s.chan| == SERVERS_NUM && Enabled(cfg, s, l)
    ensures |Apply(cfg, s, l).front.conns| == |s.front.conns| + if l.Accept? then 1 else 0
  {
  }

  ghost function MarkRun(cfg: Config, s: State, m: Marks, ls: seq<Label>): Marks
    requires |s.chan| == SERVERS_NUM && CanRun(cfg, s, ls)
    requires |m.taken| == |m.lost| == |s.front.conns|
    decreases |ls|
  {
    if ls == [] then m
    else
      ConnsStep(cfg, s, ls[0]);
      MarkRun(cfg, Apply(cfg, s, ls[0]), Mark(s, m, ls[0]), ls[1..])
  }

  /** Everything connection c sent in a run. */
  ghost function SentBy(ls: seq<Label>, c: nat): seq<byte> {
    if ls == [] then []
    else (if ls[0].ClientSend? && ls[0].conn == c then ls[0].data else []) + SentBy(ls[1..], c)
  }

  /** What c had sent before the run, and what it sent in it. */
  ghost function Sends(streams: seq<seq<byte>>, ls: seq<Label>, c: nat): seq<byte> {
    (if c < |streams| then streams[c] else []) + SentBy(ls, c)
  }

  /** The streams after one more step. */
  ghost function StreamsAfter(s: State, streams: seq<seq<byte>>, l: Label): seq<seq<byte>> {
    if l.Accept? then streams + [[]]
    else if l.ClientSend? && l.conn < |streams| then streams[l.conn := streams[l.conn] + l.data]
    else streams
  }

  /** The payload is the 16 bytes of c's stream at the cut, and the cut is off by what short
      reads threw away. */
  ghost predicate CutOf(streams: seq<seq<byte>>, m: Marks, c: nat, cut: Cut, payload: Payload) {
    && c < |streams| == |m.taken|
    && cut.at + NORMAL_LEN <= m.taken[c] <= |streams[c]|
    && payload == streams[c][cut.at..cut.at + NORMAL_LEN]
    && cut.lost <= cut.at && (cut.at - cut.lost) % NORMAL_LEN == 0
  }

  /** What was read of c's stream, and what is still in its socket as long as it is open. */
  ghost predicate StreamOk(s: State, m: Marks, streams: seq<seq<byte>>, c: nat) {
    && c < |streams| == |m.taken| == |m.lost|
    && m.lost[c] <= m.taken[c] <= |streams[c]|
    && (m.taken[c] - m.lost[c]) % NORMAL_LEN == 0
    && (s.front.IsOpen(c) ==> s.front.conns[c].inbox == streams[c][m.taken[c]..])
  }

  ghost predicate StreamsOk(s: State, m: Marks, streams: seq<seq<byte>>) {
    && |streams| == |m.taken| == |m.lost| == |s.front.conns|
    && forall c :: 0 <= c < |streams| ==> StreamOk(s, m, streams, c)
  }

  ghost predicate HandCutOk(s: State, m: Marks, streams: seq<seq<byte>>) {
    && (s.hand.Holding? ==> CutOf(streams, m, s.hand.origin, m.hand, s.hand.msg.m))
    && (s.hand.Routed? ==> CutOf(streams, m, s.hand.origin, m.hand, s.hand.msg.m))
  }

  ghost predicate CutsOk(s: State, m: Marks, streams: seq<seq<byte>>) {
    && |m.cuts| == |s.sent|
    && forall i :: 0 <= i < |s.sent| ==> CutOf(streams, m, s.sent[i].rec.origin, m.cuts[i], s.sent[i].rec.msg.m)
  }

  /** No byte of a stream is forwarded twice: the cuts of one connection do not overlap. */
  ghost predicate Apart(s: State, m: Marks)
    requires |m.cuts| == |s.sent|
  {
    && (forall i, j :: 0 <= i < j < |s.sent| && s.sent[i].rec.origin == s.sent[j].rec.origin ==>
          m.cuts[i].at + NORMAL_LEN <= m.cuts[j].at)
    && (s.hand.Holding? || s.hand.Routed? ==>
          forall i :: 0 <= i < |s.sent| && s.sent[i].rec.origin == s.hand.origin ==>
            m.cuts[i].at + NORMAL_LEN <= m.hand.at)
  }

  ghost predicate Bounds(s: State, m: Marks, streams: seq<seq<byte>>) {
    StreamsOk(s, m, streams) && HandCutOk(s, m, streams) && CutsOk(s, m, streams) && Apart(s, m)
  }

  lemma DropTake(a: seq<byte>, b: seq<byte>, k: nat)
    requires k <= |a|
    ensures (a + b)[k..] == a[k..] + b
  {
  }

  lemma ReadStep(cfg: Config, s: State, l: Label, m: Marks, streams: seq<seq<byte>>, c: nat)
    requires |s.chan| == SERVERS_NUM && Enabled(cfg, s, l) && OpenOk(cfg, s.front)
    requires StreamsOk(s, m, streams) && l.ReadClient? && c < |s.front.conns|
    ensures StreamOk(Apply(cfg, s, l), Mark(s, m, l), streams, c)
  {
    assert StreamOk(s, m, streams, c);
    if s.front.Find(s.front.batch[0].fd) == Some(c) {
      assert s.front.IsOpen(c);
      var n := Mark(s, m, l);
      assert streams[c][m.taken[c]..][n.taken[c] - m.taken[c]..] == streams[c][n.taken[c]..];
    }
  }

  lemma StreamStep(cfg: Config, s: State, l: Label, m: Marks, streams: seq<seq<byte>>, c: nat)
    requires |s.chan| == SERVERS_NUM && Enabled(cfg, s, l) && OpenOk(cfg, s.front)
    requires StreamsOk(s, m, streams) && c < |Apply(cfg, s, l).front.conns|
    ensures StreamOk(Apply(cfg, s, l), Mark(s, m, l), StreamsAfter(s, streams, l), c)
  {
    if l.ReadClient? {
      ReadStep(cfg, s, l, m, streams, c);
    } else if l.ClientSend? {
      assert StreamOk(s, m, streams, c);
      DropTake(streams[c], l.data, m.taken[c]);
    } else if c < |s.front.conns| {
      assert StreamOk(s, m, streams, c);
    }
  }

  lemma StreamsStep(cfg: Config, s: State, l: Label, m: Marks, streams: seq<seq<byte>>)
    requires |s.chan| == SERVERS_NUM && Enabled(cfg, s, l) && OpenOk(cfg, s.front)
    requires StreamsOk(s, m, streams)
    ensures StreamsOk(Apply(cfg, s, l), Mark(s, m, l), StreamsAfter(s, streams, l))
  {
    ConnsStep(cfg, s, l);
    forall c | 0 <= c < |Apply(cfg, s, l).front.conns|
      ensures StreamOk(Apply(cfg, s, l), Mark(s, m, l), StreamsAfter(s, streams, l), c)
    {
      StreamStep(cfg, s, l, m, streams, c);
    }
  }

  /** Later steps only extend the streams and the amounts read. */
  lemma CutStays(cfg: Config, s: State, l: Label, m: Marks, streams: seq<seq<byte>>, c: nat, cut: Cut, payload: Payload)
    requires |s.chan| == SERVERS_NUM && Enabled(cfg, s, l) && OpenOk(cfg, s.front)
    requires StreamsOk(s, m, streams) && CutOf(streams, m, c, cut, payload)
    ensures CutOf(StreamsAfter(s, streams, l), Mark(s, m, l), c, cut, payload)
  {
    StreamsStep(cfg, s, l, m, streams);
    var after := StreamsAfter(s, streams, l);
    assert StreamOk(Apply(cfg, s, l), Mark(s, m, l), after, c);
    assert streams[c] <= after[c];
    assert after[c][cut.at..cut.at + NORMAL_LEN] == streams[c][cut.at..cut.at + NORMAL_LEN];
  }

  /** A full read takes the next 16 bytes. */
  lemma ReadCut(cfg: Config, s: State, l: Label, m: Marks, streams: seq<seq<byte>>)
    requires |s.chan| == SERVERS_NUM && Enabled(cfg, s, l) && OpenOk(cfg, s.front)
    requires StreamsOk(s, m, streams) && l.ReadClient? && Apply(cfg, s, l).hand.Holding?
    ensures var t, n := Apply(cfg, s, l), Mark(s, m, l);
      && CutOf(streams, n, t.hand.origin, n.hand, t.hand.msg.m)
      && t.hand.origin < |m.taken| && n.hand.at == m.taken[t.hand.origin]
  {
    var c := s.front.Find(s.front.batch[0].fd).value;
    assert s.front.IsOpen(c) && StreamOk(s, m, streams, c);
    assert streams[c][m.taken[c]..][..NORMAL_LEN] == streams[c][m.taken[c]..m.taken[c] + NORMAL_LEN];
  }

  lemma HandCutStep(cfg: Config, s: State, l: Label, m: Marks, streams: seq<seq<byte>>)
    requires |s.chan| == SERVERS_NUM && Enabled(cfg, s, l) && OpenOk(cfg, s.front)
    requires StreamsOk(s, m, streams) && HandCutOk(s, m, streams)
    ensures HandCutOk(Apply(cfg, s, l), Mark(s, m, l), StreamsAfter(s, streams, l))
  {
    var t := Apply(cfg, s, l);
    if t.hand.Holding? || t.hand.Routed? {
      if l.ReadClient? {
        ReadCut(cfg, s, l, m, streams);
      } else {
        CutStays(cfg, s, l, m, streams, s.hand.origin, m.hand, s.hand.msg.m);
      }
    }
  }

  lemma CutsStep(cfg: Config, s: State, l: Label, m: Marks, streams: seq<seq<byte>>)
    requires |s.chan| == SERVERS_NUM && Enabled(cfg, s, l) && OpenOk(cfg, s.front)
    requires StreamsOk(s, m, streams) && HandCutOk(s, m, streams) && CutsOk(s, m, streams)
    ensures CutsOk(Apply(cfg, s, l), Mark(s, m, l), StreamsAfter(s, streams, l))
  {
    forall i | 0 <= i < |s.sent|
      ensures CutOf(StreamsAfter(s, streams, l), Mark(s, m, l), s.sent[i].rec.origin, m.cuts[i], s.sent[i].rec.msg.m)
    {
      CutStays(cfg, s, l, m, streams, s.sent[i].rec.origin, m.cuts[i], s.sent[i].rec.msg.m);
    }
    if l == Forward(true) {
      CutStays(cfg, s, l, m, streams, s.hand.origin, m.hand, s.hand.msg.m);
    }
  }

  lemma ApartStep(cfg: Config, s: State, l: Label, m: Marks, streams: seq<seq<byte>>)
    requires |s.chan| == SERVERS_NUM && Enabled(cfg, s, l) && OpenOk(cfg, s.front)
    requires StreamsOk(s, m, streams) && CutsOk(s, m, streams) && Apart(s, m)
    requires |Mark(s, m, l).cuts| == |Apply(cfg, s, l).sent|
    ensures Apart(Apply(cfg, s, l), Mark(s, m, l))
  {
    var t := Apply(cfg, s, l);
    if l.ReadClient? && t.hand.Holding? {
      ApartRead(cfg, s, l, m, streams);
    }
  }

  /** What is read now lies behind everything forwarded before. */
  lemma ApartRead(cfg: Config, s: State, l: Label, m: Marks, streams: seq<seq<byte>>)
    requires |s.chan| == SERVERS_NUM && Enabled(cfg, s, l) && OpenOk(cfg, s.front)
    requires StreamsOk(s, m, streams) && CutsOk(s, m, streams)
    requires l.ReadClient? && Apply(cfg, s, l).hand.Holding?
    ensures var c := Apply(cfg, s, l).hand.origin;
      forall i :: 0 <= i < |s.sent| && s.sent[i].rec.origin == c ==>
        m.cuts[i].at + NORMAL_LEN <= Mark(s, m, l).hand.at
  {
    ReadCut(cfg, s, l, m, streams);
  }

  lemma {:induction false} BoundsRun(cfg: Config, s: State, m: Marks, ls: seq<Label>, streams: seq<seq<byte>>)
    returns (end: seq<seq<byte>>)
    requires Inv(cfg, s) && CanRun(cfg, s, ls) && Bounds(s, m, streams)
    ensures Bounds(Run(cfg, s, ls), MarkRun(cfg, s, m, ls), end)
    ensures forall c :: 0 <= c < |end| ==> end[c] == Sends(streams, ls, c)
    decreases |ls|
  {
    if ls == [] {
      end := streams;
    } else {
      var l := ls[0];
      StreamsStep(cfg, s, l, m, streams);
      HandCutStep(cfg, s, l, m, streams);
      CutsStep(cfg, s, l, m, streams);
      ApartStep(cfg, s, l, m, streams);
      InvStep(cfg, s, l);
      end := BoundsRun(cfg, Apply(cfg, s, l), Mark(s, m, l), ls[1..], StreamsAfter(s, streams, l));
      forall c | 0 <= c < |end| ensures end[c] == Sends(streams, ls, c) {
        SendsStep(cfg, s, streams, ls, c);
      }
    }
  }

  lemma SendsStep(cfg: Config, s: State, streams: seq<seq<byte>>, ls: seq<Label>, c: nat)
    requires ls != [] && |s.chan| == SERVERS_NUM && Enabled(cfg, s, ls[0]) && |streams| == |s.front.conns|
    ensures Sends(StreamsAfter(s, streams, ls[0]), ls[1..], c) == Sends(streams, ls, c)
  {
    var l, rest := ls[0], SentBy(ls[1..], c);
    if l.ClientSend? && l.conn == c {
      assert (streams[c] + l.data) + rest == streams[c] + (l.data + rest);
    } else {
      assert [] + rest == rest;
    }
  }

  /** Two numbers that differ by a multiple of 16 are multiples of 16 together. */
  lemma SameAlignment(at: nat, lost: nat)
    requires lost <= at && (at - lost) % NORMAL_LEN == 0
    ensures at % NORMAL_LEN == 0 <==> lost % NORMAL_LEN == 0
  {
    var q := (at - lost) / NORMAL_LEN;
    assert at == lost + NORMAL_LEN * q;
  }

  /** What a cut says about a connection whose stream began empty. */
  lemma CutRead(end: seq<seq<byte>>, m: Marks, c: nat, cut: Cut, payload: Payload, ls: seq<Label>)
    requires CutOf(end, m, c, cut, payload) && end[c] == Sends([], ls, c)
    ensures cut.at + NORMAL_LEN <= |SentBy(ls, c)|
    ensures payload == SentBy(ls, c)[cut.at..cut.at + NORMAL_LEN]
    ensures cut.at % NORMAL_LEN == 0 <==> cut.lost % NORMAL_LEN == 0
  {
    assert [] + SentBy(ls, c) == SentBy(ls, c);
    SameAlignment(cut.at, cut.lost);
  }

  /** Over all runs: the payload of every request forwarded is 16 consecutive bytes of what
      its connection sent; it is one of the requests the client laid end to end (it starts
      at a multiple of 16) if and only if the short reads of that connection before it threw
      away a multiple of 16 bytes; and no byte is forwarded twice. */
  lemma RequestBoundaries(cfg: Config, ls: seq<Label>, i: nat)
    requires CanRun(cfg, Init(cfg), ls) && i < |Run(cfg, Init(cfg), ls).sent|
    ensures var s, m := Run(cfg, Init(cfg), ls), MarkRun(cfg, Init(cfg), START, ls); var c := s.sent[i].rec.origin;
      && |m.cuts| == |s.sent|
      && m.cuts[i].at + NORMAL_LEN <= |SentBy(ls, c)|
      && s.sent[i].rec.msg.m == SentBy(ls, c)[m.cuts[i].at..m.cuts[i].at + NORMAL_LEN]
      && (m.cuts[i].at % NORMAL_LEN == 0 <==> m.cuts[i].lost % NORMAL_LEN == 0)
      && forall j :: 0 <= j < i && s.sent[j].rec.origin == c ==> m.cuts[j].at + NORMAL_LEN <= m.cuts[i].at
  {
    InitInv(cfg);
    var end := BoundsRun(cfg, Init(cfg), START, ls, []);
    var s, m := Run(cfg, Init(cfg), ls), MarkRun(cfg, Init(cfg), START, ls);
    var c := s.sent[i].rec.origin;
    CutRead(end, m, c, m.cuts[i], s.sent[i].rec.msg.m, ls);
  }

  lemma {:induction false} SentByAppend(ls: seq<Label>, more: seq<Label>, c: nat)
    ensures SentBy(ls + more, c) == SentBy(ls, c) + SentBy(more, c)
  {
    if ls == [] {
      assert ls + more == more;
    } else {
      SentByAppend(ls[1..], more, c);
      assert (ls + more)[1..] == ls[1..] + more && (ls + more)[0] == ls[0];
      var first := if ls[0].ClientSend? && ls[0].conn == c then ls[0].data else [];
      assert first + (SentBy(ls[1..], c) + SentBy(more, c)) == (first + SentBy(ls[1..], c)) + SentBy(more, c);
    }
  }

  lemma {:induction false} SentByNone(ls: seq<Label>, c: nat)
    requires forall l :: l in ls ==> !l.ClientSend?
    ensures SentBy(ls, c) == []
  {
    if ls != [] {
      SentByNone(ls[1..], c);
    }
  }

  /** One step that is not a send leaves what was sent as it is. */
  lemma Silent(cfg: Config, ls: seq<Label>, s: State, l: Label) returns (ls': seq<Label>, t: State)
    requires CanRun(cfg, Init(cfg), ls) && Run(cfg, Init(cfg), ls) == s && Enabled(cfg, s, l)
    ensures CanRun(cfg, Init(cfg), ls') && Run(cfg, Init(cfg), ls') == t == Apply(cfg, s, l)
    ensures SentBy(ls', 0) == SentBy(ls, 0) + if l.ClientSend? && l.conn == 0 then l.data else []
  {
    ls', t := Extend(cfg, ls, s, l);
    SentByAppend(ls, [l], 0);
  }

  /** A run that ends between two batches: one client so far, on fd, nothing forwarded yet,
      and these bytes unread. */
  ghost predicate Lone(cfg: Config, ls: seq<Label>, s: State, fd: int32, unread: seq<byte>) {
    && CanRun(cfg, Init(cfg), ls) && Run(cfg, Init(cfg), ls) == s && Inv(cfg, s)
    && s.hand.Free? && s.front.batch == [] && s.sent == [] && s.chan == Init(cfg).chan
    && fd in s.front.open && s.front.open[fd] == 0
    && |s.front.conns| == 1 && !s.front.conns[0].eof && s.front.conns[0].inbox == unread
  }

  lemma OneSend(ls: seq<Label>, n: nat, data: seq<byte>)
    requires |ls| == n + 1 && ls[n] == ClientSend(0, data) && forall i :: 0 <= i < n ==> !ls[i].ClientSend?
    ensures SentBy(ls, 0) == data
  {
    SentByNone(ls[..n], 0);
    SentByAppend(ls[..n], [ls[n]], 0);
    assert ls == ls[..n] + [ls[n]];
    assert SentBy([ls[n]], 0) == data + [] == data;
  }

  /** A client is accepted and sends its first bytes. */
  lemma FirstBytes(cfg: Config, fd: int32, data: seq<byte>) returns (ls: seq<Label>, s: State)
    requires FreeFd(cfg, fd)
    ensures Lone(cfg, ls, s, fd, data) && SentBy(ls, 0) == data
  {
    InitInv(cfg);
    ls, s := RequestOne(cfg, [], Init(cfg), fd, data);
    OneSend(ls, 3, data);
  }

  /** It sends some more. */
  lemma MoreBytes(cfg: Config, ls: seq<Label>, s: State, fd: int32, unread: seq<byte>, data: seq<byte>)
    returns (ls': seq<Label>, t: State)
    requires Lone(cfg, ls, s, fd, unread)
    ensures Lone(cfg, ls', t, fd, unread + data) && SentBy(ls', 0) == SentBy(ls, 0) + data
  {
    ls', t := Silent(cfg, ls, s, ClientSend(0, data));
    InvFromStart(cfg, ls');
  }

  lemma Readable(cfg: Config, ls: seq<Label>, s: State, fd: int32, unread: seq<byte>)
    requires Lone(cfg, ls, s, fd, unread)
    ensures Enabled(cfg, s, Poll([Event(fd, true)]))
  {
  }

  /** Too few bytes for a request: they are read and refused. */
  lemma RefuseShort(cfg: Config, ls: seq<Label>, s: State, fd: int32, unread: seq<byte>)
    returns (ls': seq<Label>, t: State)
    requires Lone(cfg, ls, s, fd, unread) && 0 < |unread| < NORMAL_LEN
    ensures Lone(cfg, ls', t, fd, []) && SentBy(ls', 0) == SentBy(ls, 0)
  {
    Readable(cfg, ls, s, fd, unread);
    ls', t := Silent(cfg, ls, s, Poll([Event(fd, true)]));
    ls', t := Silent(cfg, ls', t, ReadClient(false));
    ls', t := Silent(cfg, ls', t, WriteError);
    InvFromStart(cfg, ls');
  }

  lemma Rejoin(a: Payload, b: Payload, n: nat)
    requires n < NORMAL_LEN
    ensures a[..n] + (a[n..] + b) == a + b && [] + (a[n..] + b) == a[n..] + b
    ensures (a[n..] + b)[..NORMAL_LEN] == a[n..] + b[..n]
  {
  }

  /** The run that loses the boundary: of request a only the first n bytes are there when the
      distributor reads; it refuses them, and forwards the rest of a joined to the beginning
      of b as if that were a request. */
  lemma JoinsRequests(cfg: Config, fd: int32, a: Payload, b: Payload, n: nat, k: nat) returns (ls: seq<Label>)
    requires FreeFd(cfg, fd) && 0 < n < NORMAL_LEN && k < SERVERS_NUM
    ensures CanRun(cfg, Init(cfg), ls) && SentBy(ls, 0) == a + b
    ensures Run(cfg, Init(cfg), ls).sent == [Forwarded(k, Record(Message(fd, a[n..] + b[..n]), 0, 0))]
  {
    var s;
    ls, s := FirstBytes(cfg, fd, a[..n]);
    ls, s := RefuseShort(cfg, ls, s, fd, a[..n]);
    ls, s := MoreBytes(cfg, ls, s, fd, [], a[n..] + b);
    Rejoin(a, b, n);
    ls := ForwardLone(cfg, ls, s, fd, a[n..] + b, k);
  }

  lemma ForwardLone(cfg: Config, ls: seq<Label>, s: State, fd: int32, unread: seq<byte>, k: nat)
    returns (ls': seq<Label>)
    requires Lone(cfg, ls, s, fd, unread) && |unread| >= NORMAL_LEN && k < SERVERS_NUM
    ensures CanRun(cfg, Init(cfg), ls') && SentBy(ls', 0) == SentBy(ls, 0)
    ensures Run(cfg, Init(cfg), ls').sent == [Forwarded(k, Record(Message(fd, unread[..NORMAL_LEN]), 0, 0))]
  {
    var t;
    ls', t := ForwardOne(cfg, ls, s, fd, k);
    NoSend(ls, ls');
  }

  lemma NoSend(ls: seq<Label>, ls': seq<Label>)
    requires ls <= ls' && forall l :: l in ls'[|ls|..] ==> !l.ClientSend?
    ensures SentBy(ls', 0) == SentBy(ls, 0)
  {
    SentByNone(ls'[|ls|..], 0);
    SentByAppend(ls, ls'[|ls|..], 0);
    assert ls' == ls + ls'[|ls|..];
  }
}
