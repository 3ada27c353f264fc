/** The round-robin distributor: a cursor that moves once per request read, the request
    copied to the server under the cursor, and one reply straight away. */
module RoundRobin {

  import opened Common

  datatype Reply = Success | Failure

  /** What `read(fd, buf, BUFSIZ)` returned. */
  datatype Read = Data(bytes: seq<int>) | Again | End | Error

  /** One event: the listener with the descriptors `accept` returns until EAGAIN, or a
      readable client, what was read, and how many of the bytes the write to the server took
      (-1 for an error). */
  datatype Event =
    | Listener(accepted: seq<int>)
    | Client(fd: int, read: Read, written: int)

  predicate Possible(ev: Event) {
    ev.Client? && ev.read.Data? ==> ev.read.bytes != [] && -1 <= ev.written <= |ev.read.bytes|
  }

  predicate IsData(ev: Event) {
    ev.Client? && ev.read.Data?
  }

  /** The server of every selection in a run that has made n of them. */
  ghost function Rotation(n: nat): (picks: seq<nat>)
    ensures |picks| == n
  {
    seq(n, j => j % SERVERS_NUM)
  }

  ghost function Count(picks: seq<nat>, k: nat): nat {
    if picks == [] then 0 else Count(picks[..|picks| - 1], k) + if picks[|picks| - 1] == k then 1 else 0
  }

  lemma CountShort(picks: seq<nat>, k: nat)
    requires |picks| <= 4
    ensures Count(picks, k)
         == (if |picks| > 0 && picks[0] == k then 1 else 0) + (if |picks| > 1 && picks[1] == k then 1 else 0)
          + (if |picks| > 2 && picks[2] == k then 1 else 0) + (if |picks| > 3 && picks[3] == k then 1 else 0)
  {
    if |picks| > 0 {
      CountShort(picks[..|picks| - 1], k);
    }
  }

  lemma {:induction false} CountConcat(a: seq<nat>, b: seq<nat>, k: nat)
    ensures Count(a + b, k) == Count(a, k) + Count(b, k)
  {
    if b == [] {
      assert a + b == a;
    } else {
      CountConcat(a, b[..|b| - 1], k);
      assert (a + b)[..|a + b| - 1] == a + b[..|b| - 1];
    }
  }

  /** The servers of l selections in a row, the first of which is selection lo. */
  ghost function Turns(lo: nat, l: nat): (picks: seq<nat>)
    ensures |picks| == l
  {
    seq(l, j => (lo + j) % SERVERS_NUM)
  }

  /** Four selections in a row name each server once. */
  lemma OneTurn(lo: nat, k: nat)
    requires k < SERVERS_NUM
    ensures Count(Turns(lo, SERVERS_NUM), k) == 1
  {
    CountShort(Turns(lo, SERVERS_NUM), k);
  }

  /** Fewer than four in a row name no server twice. */
  lemma PartTurn(lo: nat, l: nat, k: nat)
    requires k < SERVERS_NUM && l < SERVERS_NUM
    ensures Count(Turns(lo, l), k) <= if l == 0 then 0 else 1
  {
    CountShort(Turns(lo, l), k);
  }

  lemma TurnsSplit(lo: nat, l: nat)
    requires l >= SERVERS_NUM
    ensures Turns(lo, l) == Turns(lo, SERVERS_NUM) + Turns(lo + SERVERS_NUM, l - SERVERS_NUM)
  {
    var rest := Turns(lo + SERVERS_NUM, l - SERVERS_NUM);
    forall j | SERVERS_NUM <= j < l ensures Turns(lo, l)[j] == rest[j - SERVERS_NUM] {
      assert lo + j == lo + SERVERS_NUM + (j - SERVERS_NUM);
    }
  }

  lemma {:induction false} WindowCount(lo: nat, l: nat, k: nat)
    requires k < SERVERS_NUM
    ensures var share := Count(Turns(lo, l), k);
      l / SERVERS_NUM <= share <= l / SERVERS_NUM + if l % SERVERS_NUM == 0 then 0 else 1
    decreases l
  {
    if l < SERVERS_NUM {
      PartTurn(lo, l, k);
    } else {
      OneTurn(lo, k);
      WindowCount(lo + SERVERS_NUM, l - SERVERS_NUM, k);
      TurnsSplit(lo, l);
      CountConcat(Turns(lo, SERVERS_NUM), Turns(lo + SERVERS_NUM, l - SERVERS_NUM), k);
    }
  }

  /** Any contiguous window of any run gives each server its share, rounded down or up;
      a window of whole turns gives each server the same number exactly. */
  lemma WindowFair(n: nat, lo: nat, hi: nat, k: nat)
    requires lo <= hi <= n && k < SERVERS_NUM
    ensures var share := Count(Rotation(n)[lo..hi], k); var l := hi - lo;
      l / SERVERS_NUM <= share <= l / SERVERS_NUM + if l % SERVERS_NUM == 0 then 0 else 1
  {
    WindowCount(lo, hi - lo, k);
    assert Rotation(n)[lo..hi] == Turns(lo, hi - lo);
  }

  /** What clients have received, after the accept loop. */
  function Admitted(outbox: map<int, seq<Reply>>, fds: seq<int>): map<int, seq<Reply>>
    decreases |fds|
  {
    if fds == [] || fds[0] in outbox then outbox else Admitted(outbox[fds[0] := []], fds[1..])
  }

  /** Open clients stay as they are; new ones come from the list and have received nothing. */
  lemma {:induction false} AdmittedKeeps(outbox: map<int, seq<Reply>>, fds: seq<int>)
    ensures var after := Admitted(outbox, fds);
      && (forall fd :: fd in outbox ==> fd in after && after[fd] == outbox[fd])
      && (forall fd :: fd in after && fd !in outbox ==> fd in fds && after[fd] == [])
    decreases |fds|
  {
    if fds != [] && fds[0] !in outbox {
      var next := outbox[fds[0] := []];
      AdmittedKeeps(next, fds[1..]);
      var after := Admitted(outbox, fds);
      assert after == Admitted(next, fds[1..]);
      forall fd | fd in outbox ensures fd in after && after[fd] == outbox[fd] {
        assert fd in next;
      }
      forall fd | fd in after && fd !in outbox ensures fd in fds && after[fd] == [] {
        assert fd != fds[0] ==> fd !in next && fd in fds[1..];
      }
    }
  }

  /** The i-th descriptor of the list is new, and so are all before it. */
  ghost predicate FreshUpTo(outbox: map<int, seq<Reply>>, fds: seq<int>, i: nat)
    requires i < |fds|
  {
    forall j :: 0 <= j <= i ==> fds[j] !in outbox && fds[j] !in fds[..j]
  }

  /** Clients after the accept loop: those before, and every descriptor of the list up to the
      first that is open already. */
  lemma {:induction false} AdmittedExact(outbox: map<int, seq<Reply>>, fds: seq<int>, fd: int)
    ensures fd in Admitted(outbox, fds) <==>
      fd in outbox || exists i :: 0 <= i < |fds| && fds[i] == fd && FreshUpTo(outbox, fds, i)
    decreases |fds|
  {
    if fds != [] && fds[0] !in outbox {
      var next := outbox[fds[0] := []];
      AdmittedExact(next, fds[1..], fd);
      forall i | 0 <= i < |fds| - 1 ensures FreshUpTo(next, fds[1..], i) <==> FreshUpTo(outbox, fds, i + 1) {
        FreshTail(outbox, fds, i);
      }
      if fd in next {
        assert FreshUpTo(outbox, fds, 0);
      } else if i :| 0 <= i < |fds[1..]| && fds[1..][i] == fd && FreshUpTo(next, fds[1..], i) {
        assert fds[i + 1] == fd && FreshUpTo(outbox, fds, i + 1);
      }
      if i :| 0 <= i < |fds| && fds[i] == fd && FreshUpTo(outbox, fds, i) {
        assert i == 0 || (fds[1..][i - 1] == fd && FreshUpTo(next, fds[1..], i - 1));
      }
    } else {
      forall i | 0 <= i < |fds| ensures !FreshUpTo(outbox, fds, i) {
        assert fds[0] in outbox;
      }
    }
  }

  lemma FreshTail(outbox: map<int, seq<Reply>>, fds: seq<int>, i: nat)
    requires i + 1 < |fds| && fds[0] !in outbox
    ensures FreshUpTo(outbox[fds[0] := []], fds[1..], i) <==> FreshUpTo(outbox, fds, i + 1)
  {
    var next := outbox[fds[0] := []];
    forall j | 0 <= j <= i
      ensures (fds[1..][j] !in next && fds[1..][j] !in fds[1..][..j])
         <==> (fds[j + 1] !in outbox && fds[j + 1] !in fds[..j + 1])
    {
      assert fds[..j + 1] == [fds[0]] + fds[1..][..j];
    }
    if FreshUpTo(next, fds[1..], i) {
      forall j | 0 <= j <= i + 1 ensures fds[j] !in outbox && fds[j] !in fds[..j] {
        assert j > 0 ==> fds[1..][j - 1] == fds[j];
      }
    }
    if FreshUpTo(outbox, fds, i + 1) {
      forall j | 0 <= j <= i ensures fds[1..][j] !in next && fds[1..][j] !in fds[1..][..j] {
        assert fds[j + 1] !in outbox && fds[j + 1] !in fds[..j + 1];
      }
    }
  }

  // ----- a batch, on values -----

  /** What the open clients have received, what the servers have been sent, and how many
      selections were made. */
  datatype State = State(outbox: map<int, seq<Reply>>, streams: seq<seq<int>>, made: nat)

  /** The reply to a read that returned data: success exactly when all of it went out. */
  function ReplyTo(ev: Event): Reply
    requires IsData(ev)
  {
    if ev.written == |ev.read.bytes| then Success else Failure
  }

  /** What the write to the server took of the data. */
  function Copied(ev: Event): seq<int>
    requires IsData(ev) && Possible(ev)
  {
    ev.read.bytes[..if ev.written < 0 then 0 else ev.written]
  }

  /** One event, a client's only while that client is open. */
  function Handled(s: State, ev: Event): (t: State)
    requires |s.streams| == SERVERS_NUM && Possible(ev) && (ev.Client? ==> ev.fd in s.outbox)
    ensures |t.streams| == SERVERS_NUM
  {
    match ev
    case Listener(accepted) => s.(outbox := Admitted(s.outbox, accepted))
    case Client(fd, read, _) =>
      (match read
       case Data(_) =>
         var k := s.made % SERVERS_NUM;
         State(s.outbox[fd := s.outbox[fd] + [ReplyTo(ev)]], s.streams[k := s.streams[k] + Copied(ev)], s.made + 1)
       case Again => s
       case End => s.(outbox := s.outbox - {fd})
       case Error => s.(outbox := s.outbox - {fd}))
  }

  datatype Outcome = Exited | Running(state: State)

  /** The loop over a batch. Reading a descriptor that is not open any more ends the process:
      it cannot be taken out of the epoll set. */
  function Batch(s: State, events: seq<Event>): Outcome
    requires |s.streams| == SERVERS_NUM && forall i :: 0 <= i < |events| ==> Possible(events[i])
    decreases |events|
  {
    if events == [] then Running(s)
    else if events[0].Client? && events[0].fd !in s.outbox then Exited
    else Batch(Handled(s, events[0]), events[1..])
  }

  /** What `epoll_wait` reports: clients that are open, none twice. */
  ghost predicate Reportable(open: set<int>, events: seq<Event>) {
    && (forall i :: 0 <= i < |events| ==> Possible(events[i]))
    && (forall i :: 0 <= i < |events| && events[i].Client? ==> events[i].fd in open)
    && (forall i, j :: 0 <= i < j < |events| && events[i].Client? && events[j].Client? ==> events[i].fd != events[j].fd)
  }

  ghost function DataCount(events: seq<Event>): nat {
    if events == [] then 0 else (if IsData(events[0]) then 1 else 0) + DataCount(events[1..])
  }

  /** An event touches no open client but its own. */
  lemma HandledFrame(s: State, ev: Event, fd: int)
    requires |s.streams| == SERVERS_NUM && Possible(ev) && (ev.Client? ==> ev.fd in s.outbox)
    requires fd in s.outbox && (ev.Client? ==> ev.fd != fd)
    ensures fd in Handled(s, ev).outbox && Handled(s, ev).outbox[fd] == s.outbox[fd]
  {
    if ev.Listener? {
      AdmittedKeeps(s.outbox, ev.accepted);
    }
  }

  lemma TailReportable(s: State, events: seq<Event>)
    requires |s.streams| == SERVERS_NUM && events != [] && Reportable(s.outbox.Keys, events)
    ensures Reportable(Handled(s, events[0]).outbox.Keys, events[1..])
    ensures forall j :: 0 <= j < |events[1..]| && events[0].Client? && events[1..][j].Client? ==>
      events[1..][j].fd != events[0].fd
  {
    forall j | 0 <= j < |events[1..]| && events[1..][j].Client?
      ensures events[1..][j].fd in Handled(s, events[0]).outbox
    {
      assert events[1..][j] == events[j + 1];
      HandledFrame(s, events[0], events[j + 1].fd);
    }
  }

  /** A client without an event of its own comes out of the batch as it went in. */
  lemma {:induction false} BatchFrame(s: State, events: seq<Event>, fd: int)
    requires |s.streams| == SERVERS_NUM && Reportable(s.outbox.Keys, events) && fd in s.outbox
    requires forall i :: 0 <= i < |events| && events[i].Client? ==> events[i].fd != fd
    ensures Batch(s, events).Running?
    ensures var t := Batch(s, events).state; fd in t.outbox && t.outbox[fd] == s.outbox[fd]
    decreases |events|
  {
    if events != [] {
      HandledFrame(s, events[0], fd);
      TailReportable(s, events);
      BatchFrame(Handled(s, events[0]), events[1..], fd);
    }
  }

  /** What a client that was open when the batch began finds after its own event. */
  ghost predicate Served(s: State, t: State, ev: Event)
    requires ev.Client? && ev.fd in s.outbox
  {
    match ev.read
    case Data(bytes) =>
      && ev.fd in t.outbox
      && t.outbox[ev.fd] == s.outbox[ev.fd] + [if ev.written == |bytes| then Success else Failure]
    case Again => ev.fd in t.outbox && t.outbox[ev.fd] == s.outbox[ev.fd]
    case End => ev.fd in t.outbox ==> t.outbox[ev.fd] == []
    case Error => ev.fd in t.outbox ==> t.outbox[ev.fd] == []
  }

  /** A client that is not open, or has received nothing, never gets a reply in a batch
      without an event for it. */
  lemma {:induction false} BatchFresh(s: State, events: seq<Event>, fd: int)
    requires |s.streams| == SERVERS_NUM && Reportable(s.outbox.Keys, events)
    requires fd in s.outbox ==> s.outbox[fd] == []
    requires forall i :: 0 <= i < |events| && events[i].Client? ==> events[i].fd != fd
    ensures Batch(s, events).Running?
    ensures fd in Batch(s, events).state.outbox ==> Batch(s, events).state.outbox[fd] == []
    decreases |events|
  {
    if events != [] {
      if events[0].Listener? {
        AdmittedKeeps(s.outbox, events[0].accepted);
      }
      TailReportable(s, events);
      BatchFresh(Handled(s, events[0]), events[1..], fd);
    }
  }

  /** Over a whole batch, whatever is accepted, closed and reused on the way, the process goes
      on; selections are one for one with the reads that returned data; and every client that
      had an event finds what its own event did, and nothing else. */
  lemma {:induction false} BatchExact(s: State, events: seq<Event>)
    requires |s.streams| == SERVERS_NUM && Reportable(s.outbox.Keys, events)
    ensures Batch(s, events).Running?
    ensures var t := Batch(s, events).state;
      && t.made == s.made + DataCount(events)
      && forall i :: 0 <= i < |events| && events[i].Client? ==> Served(s, t, events[i])
    decreases |events|
  {
    if events != [] {
      var next := Handled(s, events[0]);
      TailReportable(s, events);
      BatchExact(next, events[1..]);
      var t := Batch(s, events).state;
      forall i | 0 <= i < |events| && events[i].Client? ensures Served(s, t, events[i]) {
        if i == 0 {
          OwnEvent(s, events);
        } else {
          assert events[i] == events[1..][i - 1];
          HandledFrame(s, events[0], events[i].fd);
        }
      }
    }
  }

  lemma OwnEvent(s: State, events: seq<Event>)
    requires |s.streams| == SERVERS_NUM && events != [] && Reportable(s.outbox.Keys, events) && events[0].Client?
    ensures Batch(s, events).Running? && Served(s, Batch(s, events).state, events[0])
  {
    var next := Handled(s, events[0]);
    TailReportable(s, events);
    if events[0].read.Data? || events[0].read.Again? {
      BatchFrame(next, events[1..], events[0].fd);
    } else {
      BatchFresh(next, events[1..], events[0].fd);
    }
  }

  /** What went to the servers only grows, at the end. */
  lemma {:induction false} StreamsGrow(s: State, events: seq<Event>, k: nat)
    requires |s.streams| == SERVERS_NUM && k < SERVERS_NUM && forall i :: 0 <= i < |events| ==> Possible(events[i])
    requires Batch(s, events).Running?
    ensures |Batch(s, events).state.streams| == SERVERS_NUM && s.streams[k] <= Batch(s, events).state.streams[k]
    decreases |events|
  {
    if events != [] {
      StreamsGrow(Handled(s, events[0]), events[1..], k);
    }
  }

  /** The events that read data, in order. */
  ghost function DataOf(events: seq<Event>): (ds: seq<Event>)
    ensures |ds| == DataCount(events) && forall i :: 0 <= i < |ds| ==> IsData(ds[i]) && ds[i] in events
  {
    if events == [] then [] else (if IsData(events[0]) then [events[0]] else []) + DataOf(events[1..])
  }

  /** The first `written` bytes of an event's data. */
  ghost function Written(ev: Event): seq<int> {
    if IsData(ev) && 0 <= ev.written <= |ev.read.bytes| then ev.read.bytes[..ev.written] else []
  }

  /** What server k is due when the j-th event's data goes to server picks[j]. */
  ghost function Due(ds: seq<Event>, picks: seq<nat>, k: nat): seq<int>
    requires |picks| == |ds|
  {
    if ds == [] then [] else (if picks[0] == k then Written(ds[0]) else []) + Due(ds[1..], picks[1..], k)
  }

  /** What server k is due of the data events of a batch, the j-th of which (counted from 0)
      falls to server (made + j) % 4. */
  ghost function DueOf(events: seq<Event>, made: nat, k: nat): seq<int> {
    Due(DataOf(events), Turns(made, |DataOf(events)|), k)
  }

  lemma TurnsTail(lo: nat, l: nat)
    requires l > 0
    ensures Turns(lo, l)[0] == lo % 4 && Turns(lo, l)[1..] == Turns(lo + 1, l - 1)
  {
    var tail := Turns(lo, l)[1..];
    forall j | 0 <= j < l - 1 ensures tail[j] == Turns(lo + 1, l - 1)[j] {
      assert lo + (j + 1) == lo + 1 + j;
    }
  }

  /** A data event in front of a batch. */
  lemma DueData(events: seq<Event>, made: nat, k: nat)
    requires events != [] && IsData(events[0])
    ensures DueOf(events, made, k)
         == (if made % 4 == k then Written(events[0]) else []) + DueOf(events[1..], made + 1, k)
  {
    var ds := DataOf(events);
    TurnsTail(made, |ds|);
    assert ds[0] == events[0] && ds[1..] == DataOf(events[1..]);
  }

  lemma DueOther(events: seq<Event>, made: nat, k: nat)
    requires events != [] && !IsData(events[0])
    ensures DueOf(events, made, k) == DueOf(events[1..], made, k)
  {
    assert DataOf(events) == DataOf(events[1..]);
  }

  /** What an event brings server k when `made` selections came before it. */
  ghost function Gain(ev: Event, made: nat, k: nat): seq<int> {
    if IsData(ev) && made % 4 == k then Written(ev) else []
  }

  lemma DueStep(events: seq<Event>, made: nat, k: nat)
    requires events != []
    ensures var after := made + if IsData(events[0]) then 1 else 0;
      DueOf(events, made, k) == Gain(events[0], made, k) + DueOf(events[1..], after, k)
  {
    if IsData(events[0]) {
      DueData(events, made, k);
    } else {
      DueOther(events, made, k);
      assert [] + DueOf(events[1..], made, k) == DueOf(events[1..], made, k);
    }
  }

  lemma Associate(a: seq<int>, b: seq<int>, c: seq<int>)
    ensures (a + b) + c == a + (b + c) && a + [] == a
  {
  }

  lemma StreamStep(s: State, ev: Event, k: nat)
    requires |s.streams| == 4 && k < 4 && Possible(ev) && (ev.Client? ==> ev.fd in s.outbox)
    ensures var t := Handled(s, ev);
      && |t.streams| == 4 && t.made == s.made + (if IsData(ev) then 1 else 0)
      && t.streams[k] == s.streams[k] + Gain(ev, s.made, k)
  {
    Associate(s.streams[k], [], []);
  }

  /** Over any batch: the stream of server k grows by exactly the bytes it is due, in order. */
  lemma {:induction false} StreamsExact(s: State, events: seq<Event>, k: nat)
    requires |s.streams| == 4 && k < 4 && forall i :: 0 <= i < |events| ==> Possible(events[i])
    requires Batch(s, events).Running?
    ensures |Batch(s, events).state.streams| == 4
    ensures Batch(s, events).state.streams[k] == s.streams[k] + DueOf(events, s.made, k)
    decreases |events|
  {
    if events == [] {
      Associate(s.streams[k], [], []);
    } else {
      var next := Handled(s, events[0]);
      StreamsExact(next, events[1..], k);
      StreamStep(s, events[0], k);
      DueStep(events, s.made, k);
      Associate(s.streams[k], Gain(events[0], s.made, k), DueOf(events[1..], next.made, k));
    }
  }

  class Distributor {
    var curSelectedServerIndex: int
    var open: set<int>
    var outbox: map<int, seq<Reply>>
    var streams: seq<seq<int>>
    ghost var picks: seq<nat>

    /** The cursor is always in range and the selections so far are the rotation. */
    ghost predicate Valid()
      reads this
    {
      && |streams| == SERVERS_NUM
      && 0 <= curSelectedServerIndex < SERVERS_NUM
      && curSelectedServerIndex == |picks| % SERVERS_NUM
      && picks == Rotation(|picks|)
      && outbox.Keys == open
    }

    ghost function Now(): State
      reads this
    {
      State(outbox, streams, |picks|)
    }

    constructor ()
      ensures Valid() && picks == [] && open == {} && Now() == State(map[], seq(SERVERS_NUM, k => []), 0)
    {
      curSelectedServerIndex := 0;
      open, outbox := {}, map[];
      streams := seq(SERVERS_NUM, k => []);
      picks := [];
    }

    /** The accept loop. A descriptor the kernel cannot hand out stands for EAGAIN. */
    method AcceptAll(fds: seq<int>)
      requires Valid()
      modifies this`open, this`outbox
      ensures Valid() && outbox == Admitted(old(outbox), fds)
      ensures forall fd :: fd in old(open) ==> fd in open && outbox[fd] == old(outbox)[fd]
      ensures forall fd :: fd in open && fd !in old(open) ==> fd in fds && outbox[fd] == []
      ensures forall i :: 0 <= i < |fds| && FreshUpTo(old(outbox), fds, i) ==> fds[i] in open
    {
      forall i | 0 <= i < |fds| && FreshUpTo(outbox, fds, i) ensures fds[i] in Admitted(outbox, fds) {
        AdmittedExact(outbox, fds, fds[i]);
      }
      var n := 0;
      AdmittedKeeps(outbox, fds);
      while n < |fds| && fds[n] !in open
        invariant Valid() && n <= |fds|
        invariant Admitted(outbox, fds[n..]) == Admitted(old(outbox), fds)
      {
        assert fds[n..][1..] == fds[n + 1..];
        open, outbox := open + {fds[n]}, outbox[fds[n] := []];
        n := n + 1;
      }
    }

    /** The cursor under the lock. */
    method SelectServer() returns (k: nat)
      requires Valid()
      modifies this`curSelectedServerIndex, this`picks
      ensures Valid() && k == |old(picks)| % SERVERS_NUM && picks == old(picks) + [k]
    {
      k := curSelectedServerIndex;
      curSelectedServerIndex := curSelectedServerIndex + 1;
      if curSelectedServerIndex >= SERVERS_NUM {
        curSelectedServerIndex := 0;
      }
      picks := picks + [k];
    }

    /** A readable event of a client. A read that returned data moves the cursor once, copies
        what the write took to that one server, and sends exactly one reply: success exactly
        when all of it went out. End and error close; EAGAIN changes nothing. */
    method OnReadable(ev: Event)
      requires Valid() && ev.Client? && Possible(ev) && ev.fd in open
      modifies this
      ensures Valid() && Now() == Handled(old(Now()), ev)
      ensures picks == old(picks) + if ev.read.Data? then [|old(picks)| % SERVERS_NUM] else []
      ensures open == if ev.read.Data? || ev.read.Again? then old(open) else old(open) - {ev.fd}
    {
      match ev.read
      case Again =>
      case Data(bytes) =>
        var k := SelectServer();
        var n := if ev.written < 0 then 0 else ev.written;
        streams := streams[k := streams[k] + bytes[..n]];
        outbox := outbox[ev.fd := outbox[ev.fd] + [if ev.written == |bytes| then Success else Failure]];
      case _ =>
        open, outbox := open - {ev.fd}, outbox - {ev.fd};
    }

    /** A batch: all of it is served, event by event. So every client that had an event finds
        what its own event did, and selections are one for one with the reads of data. */
    method ServeBatch(events: seq<Event>)
      requires Valid() && Reportable(open, events)
      modifies this
      ensures Valid() && Batch(old(Now()), events) == Running(Now())
      ensures old(picks) <= picks && |picks| == |old(picks)| + DataCount(events)
      ensures forall k :: 0 <= k < 4 ==> streams[k] == old(streams)[k] + DueOf(events, |old(picks)|, k)
      ensures forall i :: 0 <= i < |events| && events[i].Client? ==> Served(old(Now()), Now(), events[i])
    {
      BatchExact(Now(), events);
      StreamsExact(Now(), events, 0);
      forall k | 0 <= k < 4
        ensures Batch(Now(), events).state.streams[k] == streams[k] + DueOf(events, |picks|, k)
      {
        StreamsExact(Now(), events, k);
      }
      for i := 0 to |events|
        invariant Valid() && old(picks) <= picks
        invariant Reportable(open, events[i..])
        invariant Batch(Now(), events[i..]) == Batch(old(Now()), events)
      {
        assert events[i..][1..] == events[i + 1..] && events[i..][0] == events[i];
        TailReportable(Now(), events[i..]);
        ghost var before := picks;
        if events[i].Listener? {
          AcceptAll(events[i].accepted);
        } else {
          OnReadable(events[i]);
        }
        assert before <= picks;
      }
    }
  }

  /** Whatever the run of a distributor object, any window of its selections is fair. */
  lemma AlwaysFair(d: Distributor, lo: nat, hi: nat, k: nat)
    requires d.Valid() && lo <= hi <= |d.picks| && k < SERVERS_NUM
    ensures var share := Count(d.picks[lo..hi], k); var l := hi - lo;
      l / SERVERS_NUM <= share <= l / SERVERS_NUM + if l % SERVERS_NUM == 0 then 0 else 1
  {
    WindowFair(|d.picks|, lo, hi, k);
  }
}
