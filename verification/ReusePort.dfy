/** A worker of the reuse-port server: connection objects on the heap, their descriptors,
    and their epoll registrations, which carry the objects' addresses. Touching an address
    with no live object behind it is a crash, and the lemmas show when a batch is free of
    it. */
module ReusePort {

  type Address = nat

  datatype Event = Event(ptr: Address, readable: bool)

  /** What `read` returned on a client. */
  datatype Read = Data(bytes: string) | Again | End | Error

  /** What the kernel and the allocator decide while one event is handled: the descriptor
      `accept` returns (if any), the address `new` returns, the result of `read`. */
  datatype Choice = Choice(accepted: bool, fd: int, ptr: Address, read: Read)

  /** A connection object. No two objects ever created have the same birth, so an object at
      a reused address with a reused descriptor is still a different one. */
  datatype Conn = Conn(fd: int, birth: nat)

  datatype State = State(
    listenFd: int, listenPtr: Address, heap: map<Address, Conn>, open: set<int>, registered: map<int, Address>,
    born: nat, counter: nat, out: seq<(nat, string)>)

  /** The state in which a worker enters its loop. */
  function Start(listenFd: int, listenPtr: Address): State {
    State(listenFd, listenPtr, map[listenPtr := Conn(listenFd, 0)], {listenFd}, map[listenFd := listenPtr], 1, 0, [])
  }

  /** Live objects, open descriptors and registrations correspond one to one. */
  ghost predicate Inv(s: State) {
    && s.registered.Keys == s.open
    && (forall fd :: fd in s.registered ==> s.registered[fd] in s.heap && s.heap[s.registered[fd]].fd == fd)
    && (forall ptr :: ptr in s.heap ==> s.heap[ptr].fd in s.registered && s.registered[s.heap[ptr].fd] == ptr)
    && (forall ptr :: ptr in s.heap ==> s.heap[ptr].birth < s.born)
    && s.listenPtr in s.heap && s.heap[s.listenPtr].fd == s.listenFd
    && (forall j :: 0 <= j < |s.out| ==> s.out[j].0 == j + 1) && s.counter == |s.out|
  }

  /** `accept` returns a descriptor that is not open, `new` an address that is not in use. */
  predicate Possible(s: State, c: Choice) {
    c.accepted && c.fd !in s.open && c.ptr !in s.heap
  }

  /** The listener's branch: one `accept` per event. */
  function Accepted(s: State, c: Choice): State {
    if Possible(s, c) then
      s.(heap := s.heap[c.ptr := Conn(c.fd, s.born)], open := s.open + {c.fd},
         registered := s.registered[c.fd := c.ptr], born := s.born + 1)
    else s
  }

  /** A client's branch. */
  function HandledClient(s: State, ptr: Address, read: Read): State
    requires ptr in s.heap
  {
    match read
    case Data(bytes) => s.(counter := s.counter + 1, out := s.out + [(s.counter + 1, bytes)])
    case Again => s
    case End => Dropped(s, ptr)
    case Error => Dropped(s, ptr)
  }

  function Dropped(s: State, ptr: Address): State
    requires ptr in s.heap
  {
    s.(registered := s.registered - {s.heap[ptr].fd}, heap := s.heap - {ptr}, open := s.open - {s.heap[ptr].fd})
  }

  /** One turn of the inner loop on an event whose object is live. */
  function Handled(s: State, ev: Event, c: Choice): State
    requires ev.ptr in s.heap
  {
    if s.heap[ev.ptr].fd == s.listenFd then Accepted(s, c)
    else if ev.readable then HandledClient(s, ev.ptr, c.read)
    else s
  }

  datatype Outcome = Crashed | Running(state: State)

  /** The inner loop: an event whose pointer is dead when its turn comes is a crash. */
  function Batch(s: State, events: seq<Event>, choices: seq<Choice>): Outcome
    requires |choices| == |events|
    decreases |events|
  {
    if events == [] then Running(s)
    else if events[0].ptr !in s.heap then Crashed
    else Batch(Handled(s, events[0], choices[0]), events[1..], choices[1..])
  }

  // ----- one event -----

  lemma AcceptedInv(s: State, c: Choice)
    requires Inv(s)
    ensures Inv(Accepted(s, c))
  {
  }

  /** At the listener's event a client is accepted whenever the kernel has one: it gets a live
      object that is new, an open descriptor and a registration. Otherwise nothing happens. */
  lemma ListenerExact(s: State, ev: Event, c: Choice)
    requires Inv(s) && ev.ptr == s.listenPtr
    ensures var t := Handled(s, ev, c);
      if c.accepted && c.fd !in s.open && c.ptr !in s.heap then
        && t.heap == s.heap[c.ptr := Conn(c.fd, s.born)] && t.open == s.open + {c.fd}
        && t.registered == s.registered[c.fd := c.ptr]
        && (forall ptr :: ptr in s.heap ==> s.heap[ptr].birth != t.heap[c.ptr].birth)
        && t.out == s.out
      else t == s
  {
  }

  lemma DroppedInv(s: State, ptr: Address)
    requires Inv(s) && ptr in s.heap && ptr != s.listenPtr
    ensures Inv(Dropped(s, ptr))
  {
  }

  /** Every event keeps the one-to-one correspondence. */
  lemma HandledInv(s: State, ev: Event, c: Choice)
    requires Inv(s) && ev.ptr in s.heap
    ensures Inv(Handled(s, ev, c))
  {
    AcceptedInv(s, c);
    if ev.ptr != s.listenPtr {
      DroppedInv(s, ev.ptr);
    }
  }

  /** The event may end the life of its object. */
  ghost predicate MayDrop(s: State, ev: Event) {
    ev.readable && ev.ptr != s.listenPtr
  }

  /** Every other live object stays what it is, and so does the event's own unless it is
      dropped. */
  lemma HandledFrame(s: State, ev: Event, c: Choice, ptr: Address)
    requires Inv(s) && ev.ptr in s.heap && ptr in s.heap
    requires ptr == ev.ptr ==> !MayDrop(s, ev) || c.read.Again? || c.read.Data?
    ensures ptr in Handled(s, ev, c).heap && Handled(s, ev, c).heap[ptr] == s.heap[ptr]
  {
  }

  // ----- a whole batch -----

  /** The remaining events name live objects, those they were reported for. */
  ghost predicate Pending(s: State, events: seq<Event>, reported: seq<Conn>) {
    && |reported| == |events|
    && forall i :: 0 <= i < |events| ==> events[i].ptr in s.heap && s.heap[events[i].ptr] == reported[i]
  }

  /** No event that may end its object's life is followed by another one for that object. */
  ghost predicate DropsLast(listenPtr: Address, events: seq<Event>) {
    forall i, j :: 0 <= i < j < |events| && events[i].readable && events[i].ptr != listenPtr ==>
      events[i].ptr != events[j].ptr
  }

  lemma DropsLastTail(listenPtr: Address, events: seq<Event>)
    requires events != [] && DropsLast(listenPtr, events)
    ensures DropsLast(listenPtr, events[1..])
    ensures forall j :: 0 <= j < |events| - 1 && events[0].readable && events[0].ptr != listenPtr ==>
      events[1..][j].ptr != events[0].ptr
  {
    forall i, j | 0 <= i < j < |events[1..]| && events[1..][i].readable && events[1..][i].ptr != listenPtr
      ensures events[1..][i].ptr != events[1..][j].ptr
    {
      assert events[1..][i] == events[i + 1] && events[1..][j] == events[j + 1];
    }
    assert forall j :: 0 <= j < |events| - 1 ==> events[1..][j] == events[j + 1];
  }

  lemma PendingStep(s: State, events: seq<Event>, reported: seq<Conn>, c: Choice)
    requires Inv(s) && events != [] && Pending(s, events, reported) && DropsLast(s.listenPtr, events)
    ensures Inv(Handled(s, events[0], c)) && Handled(s, events[0], c).listenPtr == s.listenPtr
    ensures Pending(Handled(s, events[0], c), events[1..], reported[1..])
    ensures DropsLast(s.listenPtr, events[1..])
  {
    HandledInv(s, events[0], c);
    DropsLastTail(s.listenPtr, events);
    forall i | 0 <= i < |events[1..]|
      ensures events[1..][i].ptr in Handled(s, events[0], c).heap
      ensures Handled(s, events[0], c).heap[events[1..][i].ptr] == reported[1..][i]
    {
      assert events[1..][i] == events[i + 1];
      HandledFrame(s, events[0], c, events[i + 1].ptr);
    }
  }

  /** Over a whole batch, whatever is accepted, closed, deleted and reused on the way
      (descriptors and addresses alike): no dead pointer is touched, the correspondence
      holds at the end, and at every point the events left name the objects they were
      reported for. */
  lemma {:induction false} BatchSafety(s: State, events: seq<Event>, choices: seq<Choice>, reported: seq<Conn>, n: nat)
    requires Inv(s) && |choices| == |events| && n <= |events|
    requires Pending(s, events, reported) && DropsLast(s.listenPtr, events)
    ensures var halfway := Batch(s, events[..n], choices[..n]);
      halfway.Running? && Inv(halfway.state) && Pending(halfway.state, events[n..], reported[n..])
    decreases n
  {
    if n > 0 {
      PendingStep(s, events, reported, choices[0]);
      var t := Handled(s, events[0], choices[0]);
      BatchSafety(t, events[1..], choices[1..], reported[1..], n - 1);
      assert events[..n][1..] == events[1..][..n - 1] && choices[..n][1..] == choices[1..][..n - 1];
      assert events[1..][n - 1..] == events[n..] && reported[1..][n - 1..] == reported[n..];
    } else {
      assert events[..0] == [] && events[0..] == events && reported[0..] == reported;
    }
  }

  // ----- what a batch leaves behind -----

  /** The event is a read of data by a client. */
  ghost predicate ReadsData(listenPtr: Address, ev: Event, c: Choice) {
    ev.ptr != listenPtr && ev.readable && c.read.Data?
  }

  /** The event is the end of a client, or an error on it. */
  ghost predicate EndsClient(listenPtr: Address, ev: Event, c: Choice) {
    ev.ptr != listenPtr && ev.readable && (c.read.End? || c.read.Error?)
  }

  /** What the clients' reads returned, in order. */
  ghost function DataOf(listenPtr: Address, events: seq<Event>, choices: seq<Choice>): seq<string>
    requires |choices| == |events|
    decreases |events|
  {
    if events == [] then []
    else
      (if ReadsData(listenPtr, events[0], choices[0]) then [choices[0].read.bytes] else [])
      + DataOf(listenPtr, events[1..], choices[1..])
  }

  /** The texts with the numbers after n. */
  ghost function Numbered(n: nat, texts: seq<string>): seq<(nat, string)> {
    seq(|texts|, i requires 0 <= i < |texts| => (n + 1 + i, texts[i]))
  }

  lemma NumberedCons(n: nat, text: string, texts: seq<string>)
    ensures Numbered(n, [text] + texts) == [(n + 1, text)] + Numbered(n + 1, texts)
  {
  }

  lemma HandledOut(s: State, ev: Event, c: Choice)
    requires Inv(s) && ev.ptr in s.heap
    ensures Handled(s, ev, c).out
         == s.out + if ReadsData(s.listenPtr, ev, c) then [(|s.out| + 1, c.read.bytes)] else []
  {
  }

  /** Over any batch that does not crash, the file grows by exactly the bytes of the clients'
      reads, in order and numbered on. */
  lemma {:induction false} OutputExact(s: State, events: seq<Event>, choices: seq<Choice>)
    requires Inv(s) && |choices| == |events| && Batch(s, events, choices).Running?
    ensures Batch(s, events, choices).state.out
         == s.out + Numbered(|s.out|, DataOf(s.listenPtr, events, choices))
    decreases |events|
  {
    if events == [] {
      assert s.out + [] == s.out;
    } else {
      var t := Handled(s, events[0], choices[0]);
      var rest := DataOf(s.listenPtr, events[1..], choices[1..]);
      HandledInv(s, events[0], choices[0]);
      HandledOut(s, events[0], choices[0]);
      OutputExact(t, events[1..], choices[1..]);
      if ReadsData(s.listenPtr, events[0], choices[0]) {
        NumberedCons(|s.out|, choices[0].read.bytes, rest);
        var line := (|s.out| + 1, choices[0].read.bytes);
        assert t.out + Numbered(|t.out|, rest) == s.out + ([line] + Numbered(|s.out| + 1, rest));
      } else {
        assert t.out == s.out && [] + rest == rest;
      }
    }
  }

  /** No live object is this one. */
  ghost predicate Dead(s: State, conn: Conn) {
    conn.birth < s.born && forall ptr :: ptr in s.heap ==> s.heap[ptr] != conn
  }

  /** An object that is deleted never comes back, even at its address and with its descriptor. */
  lemma {:induction false} DeadForGood(s: State, events: seq<Event>, choices: seq<Choice>, conn: Conn)
    requires Inv(s) && |choices| == |events| && Batch(s, events, choices).Running? && Dead(s, conn)
    ensures Dead(Batch(s, events, choices).state, conn)
    decreases |events|
  {
    if events != [] {
      HandledInv(s, events[0], choices[0]);
      DeadForGood(Handled(s, events[0], choices[0]), events[1..], choices[1..], conn);
    }
  }

  /** The event that ends a client deletes its object, closes and unregisters its descriptor. */
  lemma EndExact(s: State, ev: Event, c: Choice)
    requires Inv(s) && ev.ptr in s.heap && EndsClient(s.listenPtr, ev, c)
    ensures var t := Handled(s, ev, c);
      && Dead(t, s.heap[ev.ptr]) && ev.ptr !in t.heap
      && t.open == s.open - {s.heap[ev.ptr].fd} && t.registered == s.registered - {s.heap[ev.ptr].fd}
  {
  }

  ghost predicate Ends(listenPtr: Address, events: seq<Event>, choices: seq<Choice>, ptr: Address)
    requires |choices| == |events|
  {
    exists i :: 0 <= i < |events| && events[i].ptr == ptr && EndsClient(listenPtr, events[i], choices[i])
  }

  lemma EndsCons(listenPtr: Address, events: seq<Event>, choices: seq<Choice>, ptr: Address)
    requires |choices| == |events| && events != []
    ensures Ends(listenPtr, events, choices, ptr) <==>
      (events[0].ptr == ptr && EndsClient(listenPtr, events[0], choices[0]))
      || Ends(listenPtr, events[1..], choices[1..], ptr)
  {
    if i :| 0 <= i < |events| && events[i].ptr == ptr && EndsClient(listenPtr, events[i], choices[i]) {
      assert i == 0 || (events[1..][i - 1] == events[i] && choices[1..][i - 1] == choices[i]);
    }
    if i :| 0 <= i < |events[1..]| && events[1..][i].ptr == ptr
            && EndsClient(listenPtr, events[1..][i], choices[1..][i]) {
      assert events[i + 1] == events[1..][i] && choices[i + 1] == choices[1..][i];
    }
  }

  /** Over any batch that does not crash, an object that was live is gone afterwards exactly
      when one of its own events was its end or an error. */
  lemma {:induction false} GoneExact(s: State, events: seq<Event>, choices: seq<Choice>, ptr: Address)
    requires Inv(s) && |choices| == |events| && Batch(s, events, choices).Running? && ptr in s.heap
    ensures var t := Batch(s, events, choices).state;
      && (Ends(s.listenPtr, events, choices, ptr) ==> Dead(t, s.heap[ptr]))
      && (!Ends(s.listenPtr, events, choices, ptr) ==> ptr in t.heap && t.heap[ptr] == s.heap[ptr])
    decreases |events|
  {
    if events != [] {
      var t := Handled(s, events[0], choices[0]);
      HandledInv(s, events[0], choices[0]);
      EndsCons(s.listenPtr, events, choices, ptr);
      if events[0].ptr == ptr && EndsClient(s.listenPtr, events[0], choices[0]) {
        EndExact(s, events[0], choices[0]);
        DeadForGood(t, events[1..], choices[1..], s.heap[ptr]);
      } else {
        HandledFrame(s, events[0], choices[0], ptr);
        GoneExact(t, events[1..], choices[1..], ptr);
      }
    }
  }

  /** What `epoll_wait` reports: registered objects, none of them twice. */
  ghost predicate Reportable(s: State, events: seq<Event>) {
    && (forall i :: 0 <= i < |events| ==> events[i].ptr in s.heap)
    && (forall i, j :: 0 <= i < j < |events| ==> events[i].ptr != events[j].ptr)
  }

  ghost function Objects(s: State, events: seq<Event>): (cs: seq<Conn>)
    requires forall i :: 0 <= i < |events| ==> events[i].ptr in s.heap
    ensures Pending(s, events, cs)
  {
    seq(|events|, i requires 0 <= i < |events| => s.heap[events[i].ptr])
  }

  /** The choices under which the object of event `at` ends and nothing else happens. */
  ghost function DropAt(n: nat, at: nat): (cs: seq<Choice>)
    ensures |cs| == n
  {
    seq(n, i => Choice(false, 0, 0, if i == at then End else Again))
  }

  /** A dead pointer further on in the batch is touched, if nothing revives it. */
  lemma {:induction false} CrashesLater(s: State, events: seq<Event>, choices: seq<Choice>, j: nat)
    requires |choices| == |events| && j < |events| && events[j].ptr !in s.heap
    requires forall i :: 0 <= i < |choices| ==> choices[i] == Choice(false, 0, 0, Again)
    ensures Batch(s, events, choices) == Crashed
    decreases j
  {
    if j > 0 && events[0].ptr in s.heap {
      assert Handled(s, events[0], choices[0]) == s;
      CrashesLater(s, events[1..], choices[1..], j - 1);
    }
  }

  lemma {:induction false} CrashesAfterDrop(s: State, events: seq<Event>, i: nat, j: nat)
    requires Inv(s) && i < j < |events| && events[i].ptr == events[j].ptr && MayDrop(s, events[i])
    ensures Batch(s, events, DropAt(|events|, i)) == Crashed
    decreases i
  {
    var choices := DropAt(|events|, i);
    if events[0].ptr in s.heap {
      if i == 0 {
        assert events[1..][j - 1].ptr !in Handled(s, events[0], choices[0]).heap;
        CrashesLater(Handled(s, events[0], choices[0]), events[1..], choices[1..], j - 1);
      } else {
        assert Handled(s, events[0], choices[0]) == s;
        assert choices[1..] == DropAt(|events[1..]|, i - 1);
        CrashesAfterDrop(s, events[1..], i - 1, j - 1);
      }
    }
  }

  ghost predicate NeverCrashes(s: State, events: seq<Event>) {
    forall choices :: |choices| == |events| ==> Batch(s, events, choices) != Crashed
  }

  /** Batches that name each object once, as `epoll_wait` makes them, never crash. */
  lemma ReportedSafe(s: State, events: seq<Event>)
    requires Inv(s) && Reportable(s, events)
    ensures NeverCrashes(s, events)
  {
    BatchSafeExact(s, events);
  }

  /** A batch of live objects is free of crashes, whatever the kernel and the allocator do,
      if and only if no readable client event is followed by another event for the same
      object. */
  lemma BatchSafeExact(s: State, events: seq<Event>)
    requires Inv(s) && forall i :: 0 <= i < |events| ==> events[i].ptr in s.heap
    ensures NeverCrashes(s, events) <==> DropsLast(s.listenPtr, events)
  {
    if DropsLast(s.listenPtr, events) {
      forall choices | |choices| == |events| ensures Batch(s, events, choices) != Crashed {
        BatchSafety(s, events, choices, Objects(s, events), |events|);
        assert events[..|events|] == events && choices[..|choices|] == choices;
      }
    } else {
      var i, j :| 0 <= i < j < |events| && events[i].readable && events[i].ptr != s.listenPtr
                  && events[i].ptr == events[j].ptr;
      CrashesAfterDrop(s, events, i, j);
      assert Batch(s, events, DropAt(|events|, i)) == Crashed;
    }
  }

  // ----- the worker as an object -----

  class Worker {
    const listenFd: int
    const listenPtr: Address
    var heap: map<Address, Conn>
    var open: set<int>
    var registered: map<int, Address>
    var counter: nat
    var out: seq<(nat, string)>
    /** Serial numbers for the objects; the program has none. */
    var born: nat

    ghost function Now(): State
      reads this
    {
      State(listenFd, listenPtr, heap, open, registered, born, counter, out)
    }

    ghost predicate Valid()
      reads this
    {
      Inv(Now())
    }

    constructor (listenFd: int, listenPtr: Address)
      ensures Valid() && Now() == Start(listenFd, listenPtr)
    {
      this.listenFd, this.listenPtr := listenFd, listenPtr;
      heap, registered := map[listenPtr := Conn(listenFd, 0)], map[listenFd := listenPtr];
      open, born := {listenFd}, 1;
      counter, out := 0, [];
    }

    /** The listener's branch. Every object that was live stays live and what it is. */
    method OnListen(c: Choice)
      requires Valid()
      modifies this`heap, this`open, this`registered, this`born
      ensures Valid() && Now() == Accepted(old(Now()), c)
      ensures forall ptr :: ptr in old(heap) ==> ptr in heap && heap[ptr] == old(heap)[ptr]
      ensures c.accepted && c.fd !in old(open) && c.ptr !in old(heap) ==>
        && c.ptr in heap && heap[c.ptr].fd == c.fd && c.fd in open
        && c.fd in registered && registered[c.fd] == c.ptr
    {
      AcceptedInv(Now(), c);
      if !c.accepted || c.fd in open || c.ptr in heap {
        return;
      }
      open := open + {c.fd};
      heap := heap[c.ptr := Conn(c.fd, born)];
      registered := registered[c.fd := c.ptr];
      born := born + 1;
    }

    /** A client's branch. End of stream or an error unregisters, deletes and closes, all
        three for this client only; data is written out under the next number. */
    method OnClient(ptr: Address, read: Read)
      requires Valid() && ptr in heap && ptr != listenPtr
      modifies this`heap, this`open, this`registered, this`counter, this`out
      ensures Valid() && Now() == HandledClient(old(Now()), ptr, read)
      ensures forall other :: other in old(heap) && other != ptr ==> other in heap && heap[other] == old(heap)[other]
    {
      DroppedInv(Now(), ptr);
      var fd := heap[ptr].fd;
      match read
      case Data(bytes) =>
        counter := counter + 1;
        out := out + [(counter, bytes)];
      case Again =>
      case _ =>
        registered := registered - {fd};
        heap := heap - {ptr};
        open := open - {fd};
    }

    /** One turn of the inner loop. The pointer is live and names the object the event was
        reported for, and so do those of the events left when it ends. */
    method ServeEvent(ev: Event, c: Choice, ghost left: seq<Event>, ghost reported: seq<Conn>)
      requires Valid() && ev.ptr in heap && DropsLast(listenPtr, [ev] + left) && Pending(Now(), [ev] + left, reported)
      modifies this
      ensures Valid() && Pending(Now(), left, reported[1..])
      ensures Now() == Handled(old(Now()), ev, c)
    {
      assert ([ev] + left)[0] == ev && ([ev] + left)[1..] == left;
      PendingStep(Now(), [ev] + left, reported, c);
      var fd := heap[ev.ptr].fd;
      if fd == listenFd {
        OnListen(c);
      } else if ev.readable {
        OnClient(ev.ptr, c.read);
      }
    }

    /** One batch: all of it is served, event by event, and without a crash. */
    method ServeBatch(events: seq<Event>, choices: seq<Choice>)
      requires Valid() && Reportable(Now(), events) && |choices| == |events|
      modifies this
      ensures Valid() && Batch(old(Now()), events, choices) == Running(Now())
      ensures out == old(out) + Numbered(|old(out)|, DataOf(listenPtr, events, choices))
      ensures forall ptr :: ptr in old(heap) ==>
        (Ends(listenPtr, events, choices, ptr) <==> !(ptr in heap && heap[ptr] == old(heap)[ptr]))
    {
      ghost var start := Now();
      ghost var reported := Objects(Now(), events);
      for i := 0 to |events|
        invariant Valid() && DropsLast(listenPtr, events[i..])
        invariant Pending(Now(), events[i..], reported[i..])
        invariant Batch(Now(), events[i..], choices[i..]) == Batch(old(Now()), events, choices)
      {
        assert events[i..] == [events[i]] + events[i + 1..];
        DropsLastTail(listenPtr, events[i..]);
        assert events[i..][1..] == events[i + 1..] && reported[i..][1..] == reported[i + 1..];
        assert choices[i..][1..] == choices[i + 1..];
        ServeEvent(events[i], choices[i], events[i + 1..], reported[i..]);
      }
      OutputExact(start, events, choices);
      forall ptr | ptr in start.heap
        ensures Ends(listenPtr, events, choices, ptr) <==> !(ptr in heap && heap[ptr] == start.heap[ptr])
      {
        GoneExact(start, events, choices, ptr);
      }
    }
  }
}
