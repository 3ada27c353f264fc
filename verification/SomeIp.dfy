/** SOME/IP framing: the loop that cuts a captured TCP payload into frames, and the request
    builder of the benchmark (section 4.1.2, Header, of the AUTOSAR SOME/IP Protocol
    Specification; section 3.1 of RFC 791; section 3.1 of RFC 9293). */
module SomeIp {
  import opened Common
  import opened Wire

  const HEAD := 8
  const START := 54
  const BUFFER := 2048

  /** A byte read through a plain `char`, which is signed on the machines in question. */
  function Char(b: byte): int {
    if b >= 128 then b - 256 else b
  }

  /** `(*(cur + 6) << 8) + *(cur + 7)` */
  function ReadLength(hi: byte, lo: byte): int {
    256 * Char(hi) + Char(lo)
  }

  /** A frame: 8 bytes of message id and length, then as many bytes as the length says. */
  ghost predicate WellFormed(f: seq<byte>) {
    |f| >= HEAD && f[4] == 0 && f[5] == 0 && |f| == HEAD + 256 * f[6] as int + f[7] as int
  }

  ghost predicate LowBytes(f: seq<byte>)
    requires WellFormed(f)
  {
    f[6] < 128 && f[7] < 128
  }

  lemma ReadLengthExact(f: seq<byte>)
    requires WellFormed(f)
    ensures HEAD + ReadLength(f[6], f[7]) <= |f|
    ensures HEAD + ReadLength(f[6], f[7]) == |f| <==> LowBytes(f)
  {
  }

  ghost function Concat(fs: seq<seq<byte>>): seq<byte> {
    if fs == [] then [] else fs[0] + Concat(fs[1..])
  }

  /** What `write` on the forwarding socket says: taken, EAGAIN, or another error. */
  datatype Verdict = Accepted | Again | Failed

  /** How the loop over one packet ends. `Looping`: a frame size of zero leaves the pointer
      where it is for ever. `OutOfBuffer`: a frame reaches past the 2048 bytes. */
  datatype Outcome = Finished | WouldBlock | WriteFailed | Looping | OutOfBuffer

  function VerdictAt(verdicts: seq<Verdict>, i: nat): Verdict {
    if i < |verdicts| then verdicts[i] else Accepted
  }

  datatype Look = Stop(outcome: Outcome) | Emit(size: nat)

  /** What the loop makes of the frame at cur, given the verdict on the write. */
  function LookAt(buf: seq<byte>, cur: nat, verdict: Verdict): (look: Look)
    ensures look.Emit? ==> 0 < look.size && cur + look.size <= |buf|
  {
    if cur + HEAD > |buf| then Stop(OutOfBuffer)
    else
      var size := HEAD + ReadLength(buf[cur + 6], buf[cur + 7]);
      if size < 0 then Stop(WriteFailed)
      else if size == 0 then Stop(Looping)
      else if cur + size > |buf| then Stop(OutOfBuffer)
      else match verdict
        case Again => Stop(WouldBlock)
        case Failed => Stop(WriteFailed)
        case Accepted => Emit(size)
  }

  /** What the loop does from position cur on, the i-th write being next. */
  function SplitFrom(buf: seq<byte>, n: nat, cur: nat, verdicts: seq<Verdict>, i: nat): (seq<seq<byte>>, Outcome)
    requires n <= |buf|
    decreases n - cur
  {
    if cur >= n then ([], Finished)
    else match LookAt(buf, cur, VerdictAt(verdicts, i))
      case Stop(outcome) => ([], outcome)
      case Emit(size) => Prepend([buf[cur..cur + size]], SplitFrom(buf, n, cur + size, verdicts, i + 1))
  }

  function Prepend(done: seq<seq<byte>>, r: (seq<seq<byte>>, Outcome)): (seq<seq<byte>>, Outcome) {
    (done + r.0, r.1)
  }

  lemma PrependTwo(a: seq<seq<byte>>, b: seq<seq<byte>>, r: (seq<seq<byte>>, Outcome))
    ensures Prepend(a, Prepend(b, r)) == Prepend(a + b, r)
  {
    assert a + (b + r.0) == (a + b) + r.0;
  }

  lemma PrependNil(a: seq<seq<byte>>, r: (seq<seq<byte>>, Outcome))
    ensures Prepend([], r) == r
    ensures Prepend(a, ([], r.1)) == (a, r.1)
  {
    assert [] + r.0 == r.0 && a + [] == a;
  }

  /** The body of the loop up to the move of the pointer. */
  method Frame(buffer: array<byte>, cur: nat, ret: Verdict) returns (look: Look)
    ensures look == LookAt(buffer[..], cur, ret)
  {
    if cur + HEAD > buffer.Length {
      return Stop(OutOfBuffer);
    }
    var size := HEAD + ReadLength(buffer[cur + 6], buffer[cur + 7]);
    if size < 0 {
      return Stop(WriteFailed);
    }
    if size == 0 {
      return Stop(Looping);
    }
    if cur + size > buffer.Length {
      return Stop(OutOfBuffer);
    }
    if ret != Accepted {
      return Stop(if ret == Again then WouldBlock else WriteFailed);
    }
    return Emit(size);
  }

  /** One more pass, after the frames `done`. */
  lemma NextPass(buf: seq<byte>, n: nat, cur: nat, verdicts: seq<Verdict>, done: seq<seq<byte>>)
    requires cur < n <= |buf|
    ensures var look := LookAt(buf, cur, VerdictAt(verdicts, |done|));
      Prepend(done, SplitFrom(buf, n, cur, verdicts, |done|)) ==
        if look.Stop? then (done, look.outcome)
        else Prepend(done + [buf[cur..cur + look.size]], SplitFrom(buf, n, cur + look.size, verdicts, |done| + 1))
  {
    var look := LookAt(buf, cur, VerdictAt(verdicts, |done|));
    if look.Stop? {
      PrependNil(done, ([], look.outcome));
    } else {
      PrependTwo(done, [buf[cur..cur + look.size]], SplitFrom(buf, n, cur + look.size, verdicts, |done| + 1));
    }
  }

  /** The loop itself: a pointer walking the buffer. */
  method Split(buffer: array<byte>, n: nat, verdicts: seq<Verdict>) returns (frames: seq<seq<byte>>, outcome: Outcome)
    requires n <= buffer.Length
    ensures (frames, outcome) == SplitFrom(buffer[..], n, START, verdicts, 0)
  {
    frames := [];
    var cur := START;
    ghost var buf := buffer[..];
    ghost var all := SplitFrom(buf, n, START, verdicts, 0);
    PrependNil([], all);
    while cur < n
      invariant Prepend(frames, SplitFrom(buf, n, cur, verdicts, |frames|)) == all
      decreases n - cur
    {
      NextPass(buf, n, cur, verdicts, frames);
      var look := Frame(buffer, cur, VerdictAt(verdicts, |frames|));
      if look.Stop? {
        return frames, look.outcome;
      }
      frames := frames + [buffer[cur..cur + look.size]];
      cur := cur + look.size;
    }
    outcome := Finished;
    PrependNil(frames, ([], Finished));
  }

  // ----- splitting undoes concatenation -----

  /** The frames lie back to back in the buffer from cur up to n. */
  ghost predicate LaidOut(buf: seq<byte>, cur: nat, n: nat, fs: seq<seq<byte>>) {
    cur <= n <= |buf| && buf[cur..n] == Concat(fs) && forall i :: 0 <= i < |fs| ==> WellFormed(fs[i])
  }

  lemma LaidOutHead(buf: seq<byte>, cur: nat, n: nat, fs: seq<seq<byte>>)
    requires LaidOut(buf, cur, n, fs) && fs != []
    ensures cur + |fs[0]| <= n && buf[cur..cur + |fs[0]|] == fs[0]
    ensures buf[cur + 6] == fs[0][6] && buf[cur + 7] == fs[0][7]
    ensures LaidOut(buf, cur + |fs[0]|, n, fs[1..])
  {
    var all, m := buf[cur..n], |fs[0]|;
    assert all[..m] == fs[0] && all[m..] == Concat(fs[1..]);
    assert buf[cur..cur + m] == all[..m] && buf[cur + m..n] == all[m..];
    assert all[6] == fs[0][6] && all[7] == fs[0][7];
  }

  lemma LaidOutEmpty(buf: seq<byte>, cur: nat, n: nat, fs: seq<seq<byte>>)
    requires LaidOut(buf, cur, n, fs) && fs == []
    ensures cur == n
  {
    assert |buf[cur..n]| == 0;
  }

  /** The number of writes accepted before the first refusal, at most m. */
  ghost function Leading(verdicts: seq<Verdict>, i: nat, m: nat): (k: nat)
    ensures k <= m
    decreases m
  {
    if m == 0 || !VerdictAt(verdicts, i).Accepted? then 0 else 1 + Leading(verdicts, i + 1, m - 1)
  }

  /** What m whole frames lead to. */
  ghost function Delivered(fs: seq<seq<byte>>, verdicts: seq<Verdict>, i: nat): (seq<seq<byte>>, Outcome) {
    var k := Leading(verdicts, i, |fs|);
    (fs[..k], if k == |fs| then Finished else if VerdictAt(verdicts, i + k).Again? then WouldBlock else WriteFailed)
  }

  lemma DeliveredCons(f: seq<byte>, fs: seq<seq<byte>>, verdicts: seq<Verdict>, i: nat)
    requires VerdictAt(verdicts, i).Accepted?
    ensures Delivered([f] + fs, verdicts, i) == Prepend([f], Delivered(fs, verdicts, i + 1))
  {
    var k := Leading(verdicts, i + 1, |fs|);
    assert Leading(verdicts, i, |[f] + fs|) == k + 1;
    assert ([f] + fs)[..k + 1] == [f] + fs[..k];
  }

  /** One frame taken off the front. */
  lemma SplitStep(buf: seq<byte>, n: nat, cur: nat, verdicts: seq<Verdict>, i: nat, fs: seq<seq<byte>>)
    requires LaidOut(buf, cur, n, fs) && fs != [] && LowBytes(fs[0])
    ensures SplitFrom(buf, n, cur, verdicts, i) ==
      match VerdictAt(verdicts, i)
      case Again => ([], WouldBlock)
      case Failed => ([], WriteFailed)
      case Accepted => Prepend([fs[0]], SplitFrom(buf, n, cur + |fs[0]|, verdicts, i + 1))
  {
    LaidOutHead(buf, cur, n, fs);
    ReadLengthExact(fs[0]);
  }

  /** With length bytes below 128 the loop writes whole frames only, in order, and stops
      early exactly where the socket first refuses one. */
  lemma {:induction false} SplitsFrames(buf: seq<byte>, n: nat, cur: nat, verdicts: seq<Verdict>, i: nat,
                                        fs: seq<seq<byte>>)
    requires LaidOut(buf, cur, n, fs)
    requires forall j :: 0 <= j < |fs| ==> LowBytes(fs[j])
    ensures SplitFrom(buf, n, cur, verdicts, i) == Delivered(fs, verdicts, i)
    decreases |fs|
  {
    if fs == [] {
      LaidOutEmpty(buf, cur, n, fs);
    } else {
      SplitStep(buf, n, cur, verdicts, i, fs);
      if VerdictAt(verdicts, i).Accepted? {
        LaidOutHead(buf, cur, n, fs);
        SplitsFrames(buf, n, cur + |fs[0]|, verdicts, i + 1, fs[1..]);
        DeliveredCons(fs[0], fs[1..], verdicts, i);
        assert [fs[0]] + fs[1..] == fs;
      }
    }
  }

  /** A bad frame at the front is cut in the wrong place, if anything is written at all. */
  lemma SplitMisstep(buf: seq<byte>, n: nat, cur: nat, verdicts: seq<Verdict>, i: nat, fs: seq<seq<byte>>)
    requires LaidOut(buf, cur, n, fs) && fs != [] && !LowBytes(fs[0])
    ensures SplitFrom(buf, n, cur, verdicts, i) != (fs, Finished)
  {
    LaidOutHead(buf, cur, n, fs);
    ReadLengthExact(fs[0]);
    var look := LookAt(buf, cur, VerdictAt(verdicts, i));
    if look.Emit? {
      var chunk := buf[cur..cur + look.size];
      assert |chunk| < |fs[0]|;
      assert SplitFrom(buf, n, cur, verdicts, i).0[0] == chunk;
    }
  }

  lemma PrependCancels(f: seq<byte>, r: (seq<seq<byte>>, Outcome), fs: seq<seq<byte>>, outcome: Outcome)
    requires fs != [] && r != (fs[1..], outcome)
    ensures Prepend([f], r) != (fs, outcome)
  {
    assert ([f] + r.0)[1..] == r.0;
  }

  /** A frame with a length byte of 128 or more is never written as such. */
  lemma {:induction false} MissesFrames(buf: seq<byte>, n: nat, cur: nat, verdicts: seq<Verdict>, i: nat,
                                        fs: seq<seq<byte>>, bad: nat)
    requires LaidOut(buf, cur, n, fs) && bad < |fs| && !LowBytes(fs[bad])
    ensures SplitFrom(buf, n, cur, verdicts, i) != (fs, Finished)
    decreases |fs|
  {
    if !LowBytes(fs[0]) {
      SplitMisstep(buf, n, cur, verdicts, i, fs);
    } else {
      LaidOutHead(buf, cur, n, fs);
      SplitStep(buf, n, cur, verdicts, i, fs);
      MissesFrames(buf, n, cur + |fs[0]|, verdicts, i + 1, fs[1..], bad - 1);
      PrependCancels(fs[0], SplitFrom(buf, n, cur + |fs[0]|, verdicts, i + 1), fs, Finished);
    }
  }

  /** Over all frame sequences: what was concatenated comes out again, frame by frame,
      exactly when every length byte is below 128. */
  lemma SplitExact(buf: seq<byte>, n: nat, fs: seq<seq<byte>>)
    requires LaidOut(buf, START, n, fs)
    ensures SplitFrom(buf, n, START, [], 0) == (fs, Finished) <==> forall j :: 0 <= j < |fs| ==> LowBytes(fs[j])
  {
    if forall j :: 0 <= j < |fs| ==> LowBytes(fs[j]) {
      SplitsFrames(buf, n, START, [], 0, fs);
      AllAccepted(0, |fs|);
      assert fs[..|fs|] == fs;
    } else {
      var bad :| 0 <= bad < |fs| && !LowBytes(fs[bad]);
      MissesFrames(buf, n, START, [], 0, fs, bad);
    }
  }

  lemma {:induction false} AllAccepted(i: nat, m: nat)
    ensures Leading([], i, m) == m
    decreases m
  {
    if m > 0 {
      AllAccepted(i + 1, m - 1);
    }
  }

  /** Where the pointer stands after m more passes of the loop over an unchanged buffer, all
      writes taken; None once the loop has ended or left the buffer. */
  ghost function PointerAfter(buf: seq<byte>, n: nat, cur: nat, m: nat): Option<nat>
    decreases m
  {
    if m == 0 then Some(cur)
    else if cur >= n || cur + HEAD > |buf| then None
    else
      var size := HEAD + ReadLength(buf[cur + 6], buf[cur + 7]);
      if size < 0 || cur + size > |buf| then None else PointerAfter(buf, n, cur + size, m - 1)
  }

  lemma {:induction false} StaysPut(buf: seq<byte>, n: nat, cur: nat, m: nat)
    requires cur < n && cur + HEAD <= |buf| && HEAD + ReadLength(buf[cur + 6], buf[cur + 7]) == 0
    ensures PointerAfter(buf, n, cur, m) == Some(cur)
    decreases m
  {
    if m > 0 {
      StaysPut(buf, n, cur, m - 1);
    }
  }

  lemma OnePass(buf: seq<byte>, n: nat, cur: nat)
    requires cur < n
    ensures PointerAfter(buf, n, cur, 1) == Some(cur)
       <==> cur + HEAD <= |buf| && HEAD + ReadLength(buf[cur + 6], buf[cur + 7]) == 0
  {
    assert forall c: nat :: PointerAfter(buf, n, c, 0) == Some(c);
  }

  /** The specification's outcome `Looping` means just that: it is reported exactly where a
      pass leaves the pointer where it was, and then any number of passes does. */
  lemma LoopingExact(buf: seq<byte>, n: nat, cur: nat, verdict: Verdict, m: nat)
    requires cur < n
    ensures LookAt(buf, cur, verdict) == Stop(Looping) <==> PointerAfter(buf, n, cur, 1) == Some(cur)
    ensures LookAt(buf, cur, verdict) == Stop(Looping) ==> PointerAfter(buf, n, cur, m) == Some(cur)
  {
    OnePass(buf, n, cur);
    if LookAt(buf, cur, verdict) == Stop(Looping) {
      StaysPut(buf, n, cur, m);
    }
  }

  /** What the loop does at a frame with a length byte of 128 or more. High byte up to 127, low
      byte from 128: the frame's beginning is written, 256 bytes too few. Low byte alone, from
      249: its first one to seven bytes; 248: nothing and for ever; below: the negative size
      makes the write fail. High byte from 128: the write fails. */
  lemma BadFrame(buf: seq<byte>, n: nat, cur: nat, verdicts: seq<Verdict>, i: nat, fs: seq<seq<byte>>)
    requires LaidOut(buf, cur, n, fs) && fs != [] && VerdictAt(verdicts, i).Accepted?
    ensures var f := fs[0]; var (frames, outcome) := SplitFrom(buf, n, cur, verdicts, i);
      && (1 <= f[6] < 128 <= f[7] ==> |f| > 256 && frames != [] && frames[0] == f[..|f| - 256])
      && (f[6] == 0 && 248 < f[7] ==> frames != [] && frames[0] == f[..f[7] - 248])
      && (f[6] == 0 && f[7] == 248 ==> frames == [] && outcome == Looping)
      && (f[6] == 0 && 128 <= f[7] < 248 ==> frames == [] && outcome == WriteFailed)
      && (128 <= f[6] ==> frames == [] && outcome == WriteFailed)
  {
    LaidOutHead(buf, cur, n, fs);
    var f := fs[0];
    var look := LookAt(buf, cur, Accepted);
    if look.Emit? {
      assert look.size < |f| ==> buf[cur..cur + look.size] == buf[cur..cur + |f|][..look.size];
    }
  }

  /** A frame whose length field is 248 (0x00F8) makes the loop spin: after any number of
      passes it stands where it began, and the capture loop is never reached again. */
  lemma Spins(buf: seq<byte>, n: nat, f: seq<byte>, rest: seq<seq<byte>>)
    requires LaidOut(buf, START, n, [f] + rest) && |f| == HEAD + 248
    ensures SplitFrom(buf, n, START, [], 0) == ([], Looping)
    ensures forall m: nat :: PointerAfter(buf, n, START, m) == Some(START)
  {
    LaidOutHead(buf, START, n, [f] + rest);
    forall m: nat ensures PointerAfter(buf, n, START, m) == Some(START) {
      LoopingExact(buf, n, START, Accepted, m);
    }
  }

  // ----- the packet around the payload -----

  /** Ethernet header, IPv4 header, TCP header, payload. */
  datatype Packet = Packet(eth: seq<byte>, ip: seq<byte>, tcp: seq<byte>, payload: seq<byte>) {

    function Bytes(): seq<byte> {
      eth + ip + tcp + payload
    }

    /** Both length fields tell the truth and the IP header has no options. */
    ghost predicate Consistent() {
      && |eth| == 14 && |ip| == 20 && |tcp| >= 20
      && ip[0] == 0x45
      && 256 * ip[2] as int + ip[3] as int == |ip| + |tcp| + |payload|
      && tcp[12] as int / 16 * 4 == |tcp|
    }

    /** Not from 127.0.0.0/8, to port 9527, with a payload. */
    ghost predicate Wanted()
      requires Consistent()
    {
      ip[12] != 127 && 256 * tcp[2] as int + tcp[3] as int == 9527 && payload != []
    }
  }

  /** The tests before the loop, on the bytes as captured. */
  predicate Passes(buf: seq<byte>)
    requires |buf| >= START
  {
    var tcpLen := 256 * buf[16] as int + buf[17] as int - 20;
    var tcpHead := buf[46] as int / 16 * 4;
    buf[26] != 127 && buf[14] == 0x45 && tcpLen - tcpHead > 0 && 256 * buf[36] as int + buf[37] as int == 9527
  }

  /** One pass of the capture loop over a packet of n bytes. */
  method Capture(buffer: array<byte>, n: nat, verdicts: seq<Verdict>) returns (frames: seq<seq<byte>>, outcome: Outcome)
    requires buffer.Length == BUFFER && n <= BUFFER
    ensures (frames, outcome) ==
      if Passes(buffer[..]) then SplitFrom(buffer[..], n, START, verdicts, 0) else ([], Finished)
  {
    if buffer[26] == 127 {
      return [], Finished;
    }
    var tcpLen := 256 * buffer[16] as int + buffer[17] as int - 20;
    var tcpHead := buffer[46] as int / 16 * 4;
    var someipLen := tcpLen - tcpHead;
    if buffer[14] == 0x45 && someipLen > 0 && 256 * buffer[36] as int + buffer[37] as int == 9527 {
      frames, outcome := Split(buffer, n, verdicts);
    } else {
      return [], Finished;
    }
  }

  lemma {:induction false} FinishedCovers(buf: seq<byte>, n: nat, cur: nat, verdicts: seq<Verdict>, i: nat)
    requires n <= |buf|
    ensures var (fs, outcome) := SplitFrom(buf, n, cur, verdicts, i);
      outcome.Finished? ==> cur + |Concat(fs)| >= n
    decreases n - cur
  {
    var look := LookAt(buf, cur, VerdictAt(verdicts, i));
    if cur < n && look.Emit? {
      var chunk := buf[cur..cur + look.size];
      FinishedCovers(buf, n, cur + look.size, verdicts, i + 1);
      var (rest, _) := SplitFrom(buf, n, cur + look.size, verdicts, i + 1);
      assert ([chunk] + rest)[1..] == rest;
    }
  }

  lemma PassesWanted(buf: seq<byte>, p: Packet)
    requires p.Consistent() && |buf| >= |p.Bytes()| && buf[..|p.Bytes()|] == p.Bytes()
    ensures |buf| >= START && (Passes(buf) <==> p.Wanted())
  {
    var b := p.Bytes();
    assert b[14] == p.ip[0] && b[16] == p.ip[2] && b[17] == p.ip[3] && b[26] == p.ip[12];
    assert b[36] == p.tcp[2] && b[37] == p.tcp[3] && b[46] == p.tcp[12];
  }

  /** For every captured packet of SOME/IP frames to port 9527: exactly its frames are
      forwarded if and only if the TCP header carries no options (the loop starts at byte
      54 whatever the header length) and every length byte is below 128. */
  lemma CaptureExact(buf: seq<byte>, p: Packet, fs: seq<seq<byte>>)
    requires p.Consistent() && p.Wanted() && p.payload == Concat(fs)
    requires forall i :: 0 <= i < |fs| ==> WellFormed(fs[i])
    requires |buf| == BUFFER && |p.Bytes()| <= BUFFER && buf[..|p.Bytes()|] == p.Bytes()
    ensures Passes(buf)
    ensures SplitFrom(buf, |p.Bytes()|, START, [], 0) == (fs, Finished)
       <==> |p.tcp| == 20 && forall j :: 0 <= j < |fs| ==> LowBytes(fs[j])
  {
    PassesWanted(buf, p);
    var n := |p.Bytes()|;
    if |p.tcp| == 20 {
      assert buf[START..n] == p.Bytes()[START..] == p.payload;
      SplitExact(buf, n, fs);
    } else {
      FinishedCovers(buf, n, START, [], 0);
    }
  }

  /** What is forwarded first is what lies at the start position. */
  lemma FirstIsAt(buf: seq<byte>, n: nat, cur: nat, verdicts: seq<Verdict>)
    requires n <= |buf|
    ensures var (frames, _) := SplitFrom(buf, n, cur, verdicts, 0);
      frames != [] ==> 0 < |frames[0]| && cur + |frames[0]| <= |buf| && frames[0] == buf[cur..cur + |frames[0]|]
  {
  }

  /** The bytes at the start position are the options, if there are any. */
  lemma OptionsLieFirst(buf: seq<byte>, p: Packet, m: nat)
    requires p.Consistent() && |p.Bytes()| <= |buf| && buf[..|p.Bytes()|] == p.Bytes() && 20 + m <= |p.tcp|
    ensures START + m <= |p.Bytes()| && buf[START..START + m] == p.tcp[20..20 + m]
  {
    var b := p.Bytes();
    assert b == (p.eth + p.ip) + p.tcp + p.payload;
    forall i | START <= i < START + m ensures buf[i] == b[i] {
      assert buf[..|b|][i] == b[i];
    }
    assert buf[START..START + m] == b[START..START + m];
    assert b[START..START + m] == p.tcp[20..20 + m];
  }

  /** For every packet whose TCP header carries options, whatever they are, whatever the
      socket says and whatever the rest of the buffer holds: the first thing forwarded, if
      anything is, begins with option bytes. */
  lemma OptionsFirst(buf: seq<byte>, p: Packet, verdicts: seq<Verdict>)
    requires p.Consistent() && |p.tcp| > 20
    requires |p.Bytes()| <= |buf| && buf[..|p.Bytes()|] == p.Bytes()
    ensures var (frames, _) := SplitFrom(buf, |p.Bytes()|, START, verdicts, 0);
      frames != [] ==>
        var m := if |frames[0]| < |p.tcp| - 20 then |frames[0]| else |p.tcp| - 20;
        m > 0 && frames[0][..m] == p.tcp[20..20 + m]
  {
    FirstIsAt(buf, |p.Bytes()|, START, verdicts);
    var (frames, _) := SplitFrom(buf, |p.Bytes()|, START, verdicts, 0);
    if frames != [] {
      var m := if |frames[0]| < |p.tcp| - 20 then |frames[0]| else |p.tcp| - 20;
      OptionsLieFirst(buf, p, m);
      assert frames[0][..m] == buf[START..START + m];
    }
  }

  /** A packet with 12 zero bytes of TCP options in front of one frame. */
  ghost function WithOptions(frame: seq<byte>): Packet
    requires |frame| < 128
  {
    Packet(seq(14, i => 0),
           seq(20, i => if i == 0 then 0x45 else if i == 3 then 52 + |frame| else if i == 12 then 10 else 0),
           seq(32, i => if i == 2 then 37 else if i == 3 then 55 else if i == 12 then 0x80 else 0),
           frame)
  }

  lemma OptionsWanted(frame: seq<byte>)
    requires WellFormed(frame) && |frame| < 128
    ensures WithOptions(frame).Consistent() && WithOptions(frame).Wanted()
    ensures |WithOptions(frame).Bytes()| == 66 + |frame|
  {
  }

  lemma OptionBytes(frame: seq<byte>)
    requires |frame| < 128
    ensures |WithOptions(frame).Bytes()| == 66 + |frame|
    ensures WithOptions(frame).Bytes()[START..START + HEAD] == seq(HEAD, i => 0)
  {
    var p := WithOptions(frame);
    assert p.Bytes() == (p.eth + p.ip) + (p.tcp + p.payload);
    assert p.Bytes()[START..START + HEAD] == p.tcp[20..28] == seq(HEAD, i => 0);
  }

  lemma FirstFrame(buf: seq<byte>, n: nat, cur: nat, size: nat)
    requires cur < n <= |buf| && LookAt(buf, cur, Accepted) == Emit(size)
    ensures var (frames, _) := SplitFrom(buf, n, cur, [], 0);
      cur + size <= |buf| && frames != [] && frames[0] == buf[cur..cur + size]
  {
  }

  lemma Window(buf: seq<byte>, b: seq<byte>, w: seq<byte>)
    requires |b| >= START + HEAD && |buf| >= |b| && buf[..|b|] == b
    requires b[START..START + HEAD] == w && |w| == HEAD && w[6] == 0 && w[7] == 0
    ensures buf[START..START + HEAD] == w && ReadLength(buf[START + 6], buf[START + 7]) == 0
  {
    forall i | 0 <= i < HEAD ensures buf[START + i] == w[i] {
      assert buf[START + i] == buf[..|b|][START + i] == b[START + i] == b[START..START + HEAD][i];
    }
  }

  lemma LookAtEmpty(buf: seq<byte>, cur: nat)
    requires cur + HEAD <= |buf| && ReadLength(buf[cur + 6], buf[cur + 7]) == 0
    ensures LookAt(buf, cur, Accepted) == Emit(HEAD)
  {
  }

  lemma OptionsAt(buf: seq<byte>, b: seq<byte>, w: seq<byte>)
    requires |b| >= START + HEAD && |buf| >= |b| && buf[..|b|] == b
    requires b[START..START + HEAD] == w && |w| == HEAD && w[6] == 0 && w[7] == 0
    ensures var (frames, _) := SplitFrom(buf, |b|, START, [], 0);
      frames != [] && frames[0] == w
  {
    Window(buf, b, w);
    LookAtEmpty(buf, START);
    FirstFrame(buf, |b|, START, HEAD);
  }

  /** Of these options the sniffer forwards eight bytes as the first frame. */
  lemma ZeroOptions(buf: seq<byte>, frame: seq<byte>)
    requires |frame| < 128 && |buf| >= 66 + |frame| && buf[..66 + |frame|] == WithOptions(frame).Bytes()
    ensures var (frames, _) := SplitFrom(buf, 66 + |frame|, START, [], 0);
      frames != [] && frames[0] == seq(HEAD, i => 0)
  {
    OptionBytes(frame);
    var zeros := seq(HEAD, i => 0);
    OptionsAt(buf, WithOptions(frame).Bytes(), zeros);
  }

  /** For any such frame the packet is one the sniffer wants, and something else than the
      frame is forwarded. */
  lemma OptionsForwarded(buf: seq<byte>, frame: seq<byte>)
    requires WellFormed(frame) && |frame| < 128
    requires |buf| == BUFFER && buf[..66 + |frame|] == WithOptions(frame).Bytes()
    ensures WithOptions(frame).Consistent() && WithOptions(frame).Wanted() && Passes(buf)
    ensures SplitFrom(buf, 66 + |frame|, START, [], 0) != ([frame], Finished)
  {
    OptionsWanted(frame);
    assert Concat([frame]) == frame + [] == frame;
    CaptureExact(buf, WithOptions(frame), [frame]);
  }

  // ----- the benchmark's request -----

  type uint16 = x: int | 0 <= x < 0x1_0000

  function Htons(v: uint16): uint16 {
    v % 256 * 256 + v / 256
  }

  lemma HtonsBytes(v: uint16)
    ensures Htons(v) % 256 == v / 256 && Htons(v) / 256 == v % 256
  {
  }

  /** `*cur++ = v` through a 16-bit pointer on a little-endian machine. */
  method Store(memory: array<byte>, cur: nat, v: uint16) returns (next: nat)
    requires cur + 2 <= memory.Length
    modifies memory
    ensures next == cur + 2 && memory[cur] == v % 256 && memory[cur + 1] == v / 256
    ensures forall i :: 0 <= i < memory.Length && i != cur && i != cur + 1 ==> memory[i] == old(memory[i])
  {
    memory[cur], memory[cur + 1] := v % 256, v / 256;
    next := cur + 2;
  }

  /** The header the fields ask for, all integers in network byte order. */
  ghost function Intended(service: uint16, methodId: uint16, client: uint16, session: uint16,
                          messageType: byte): seq<byte>
  {
    [service / 256, service % 256, methodId / 256, methodId % 256, 0, 0, 0, 8,
     client / 256, client % 256, session / 256, session % 256, 1, 1, messageType, 0]
  }

  /** The request as it is sent: the last four stores are 16 bits wide too, so the first
      two of them fill the last four bytes. */
  ghost function AsSent(service: uint16, methodId: uint16, client: uint16, session: uint16): seq<byte> {
    [service / 256, service % 256, methodId / 256, methodId % 256, 0, 0, 0, 8,
     client / 256, client % 256, session / 256, session % 256, 1, 0, 1, 0]
  }

  /** The first six stores. */
  method BuildIds(memory: array<byte>, service: uint16, methodId: uint16, client: uint16, session: uint16)
    returns (cur: nat)
    requires memory.Length == 20
    modifies memory
    ensures cur == 12
    ensures memory[..12] == AsSent(service, methodId, client, session)[..12]
  {
    cur := Store(memory, 0, Htons(service));
    cur := Store(memory, cur, Htons(methodId));
    cur := Store(memory, cur, Htons(0));
    cur := Store(memory, cur, Htons(8));
    HtonsBytes(service); HtonsBytes(methodId); HtonsBytes(client); HtonsBytes(session);
    cur := Store(memory, cur, Htons(client));
    cur := Store(memory, cur, Htons(session));
  }

  /** `memory` is the 16-byte request and the four bytes that follow it, which the last two
      stores change as well. */
  method BuildRequest(memory: array<byte>, service: uint16, methodId: uint16, client: uint16, session: uint16,
                      messageType: byte)
    requires memory.Length == 20
    modifies memory
    ensures memory[..16] == AsSent(service, methodId, client, session)
    ensures memory[16..] == [messageType, 0, 0, 0]
  {
    var cur := BuildIds(memory, service, methodId, client, session);
    ghost var head := memory[..12];
    cur := Store(memory, cur, 1);
    cur := Store(memory, cur, 1);
    cur := Store(memory, cur, messageType);
    cur := Store(memory, cur, 0);
    assert memory[..12] == head;
    assert memory[12..16] == [1, 0, 1, 0];
    assert memory[..16] == memory[..12] + memory[12..16];
  }

  /** The request agrees with the intended header everywhere but in the interface version,
      and in the message type exactly when that is 1. */
  lemma RequestVersusHeader(service: uint16, methodId: uint16, client: uint16, session: uint16,
                            messageType: byte, i: nat)
    requires i < 16
    ensures AsSent(service, methodId, client, session)[i]
         == Intended(service, methodId, client, session, messageType)[i]
       <==> i != 13 && (i == 14 ==> messageType == 1)
  {
  }

  /** The benchmark's requests, however many in one segment, are cut into the 16-byte
      requests the distributors read. */
  lemma RequestsSplit(buf: seq<byte>, n: nat, requests: seq<seq<byte>>)
    requires START <= n <= |buf| && buf[START..n] == Concat(requests)
    requires forall j :: 0 <= j < |requests| ==>
      exists s, m, c, e :: requests[j] == AsSent(s, m, c, e)
    ensures SplitFrom(buf, n, START, [], 0) == (requests, Finished)
    ensures forall j :: 0 <= j < |requests| ==> |requests[j]| == NORMAL_LEN
  {
    forall j | 0 <= j < |requests| ensures WellFormed(requests[j]) && LowBytes(requests[j]) {
      var s, m, c, e :| requests[j] == AsSent(s, m, c, e);
    }
    SplitExact(buf, n, requests);
  }
}
