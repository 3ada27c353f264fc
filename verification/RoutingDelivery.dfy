/** Who receives the replies: descriptor reuse inside a batch and across connections, the
    exact condition under which every reply reaches its sender, and one reply per read. */
module RoutingDelivery {
  import opened Common
  import opened Routing
  import opened RoutingSafety

  // ----- inside one batch -----

  /** Descriptors of clients and of servers never meet, so `serverFd_set.count(fd)` tells
      them apart. */
  lemma ClientIsNeverServer(cfg: Config, ls: seq<Label>, fd: int)
    requires CanRun(cfg, Init(cfg), ls) && fd in Run(cfg, Init(cfg), ls).front.open
    ensures fd !in cfg.serverFd && fd != cfg.listenFd
  {
    InvFromStart(cfg, ls);
  }

  /** The event's descriptor names the same connection in s and in t. */
  ghost predicate SameClient(cfg: Config, s: State, t: State, ev: Event) {
    ev.fd in cfg.reserved
    || (ev.fd in s.front.open && ev.fd in t.front.open && s.front.open[ev.fd] == t.front.open[ev.fd])
  }

  ghost predicate Leftover(cfg: Config, s: State, t: State) {
    var m, n := |s.front.batch|, |t.front.batch|;
    && n <= m && t.front.batch == s.front.batch[m - n..]
    && forall ev :: ev in t.front.batch ==> SameClient(cfg, s, t, ev)
  }

  /** A step changes which connection a descriptor names only if it accepts that
      descriptor anew or closes it, and then it is that of the event at hand. */
  lemma NamingStep(cfg: Config, s: State, l: Label, fd: int)
    requires |s.chan| == SERVERS_NUM && Enabled(cfg, s, l) && fd in s.front.open
    requires AtClient(cfg, s) ==> fd != s.front.batch[0].fd
    ensures fd in Apply(cfg, s, l).front.open && Apply(cfg, s, l).front.open[fd] == s.front.open[fd]
  {
  }

  lemma LeftoverStep(cfg: Config, s: State, l: Label)
    requires |s.chan| == SERVERS_NUM && Enabled(cfg, s, l) && !l.Poll?
    ensures var b := Apply(cfg, s, l).front.batch;
      b == s.front.batch || (s.front.batch != [] && b == s.front.batch[1..])
    ensures l.ReadClient? && Apply(cfg, s, l).front.batch == s.front.batch ==> !s.front.Find(s.front.batch[0].fd).Some?
  {
  }

  lemma BatchSafetyStep(cfg: Config, s: State, l: Label)
    requires Inv(cfg, s) && Enabled(cfg, s, l) && !l.Poll?
    ensures Leftover(cfg, s, Apply(cfg, s, l))
  {
    var t := Apply(cfg, s, l);
    LeftoverStep(cfg, s, l);
    forall ev | ev in t.front.batch ensures SameClient(cfg, s, t, ev) {
      assert ev.fd in s.front.interest;
      if ev.fd !in cfg.reserved && !(AtClient(cfg, s) && ev.fd == s.front.batch[0].fd) {
        NamingStep(cfg, s, l, ev.fd);
      }
    }
  }

  lemma LeftoverRefl(cfg: Config, s: State)
    requires Inv(cfg, s)
    ensures Leftover(cfg, s, s)
  {
    forall ev | ev in s.front.batch ensures SameClient(cfg, s, s, ev) {
      assert ev.fd in s.front.interest;
    }
  }

  lemma LeftoverTrans(cfg: Config, s: State, t: State, u: State)
    requires Leftover(cfg, s, t) && Leftover(cfg, t, u)
    ensures Leftover(cfg, s, u)
  {
    forall ev | ev in u.front.batch ensures SameClient(cfg, s, u, ev) {
      assert ev in t.front.batch;
      assert SameClient(cfg, s, t, ev) && SameClient(cfg, t, u, ev);
    }
  }

  /** While a batch is being worked through, whatever is closed, accepted and reused in
      the meantime, what is left of it is a suffix of what was reported, and every event
      left still names the connection it was reported for. */
  lemma {:induction false} BatchSafety(cfg: Config, s: State, ls: seq<Label>)
    requires Inv(cfg, s) && CanRun(cfg, s, ls)
    requires forall i :: 0 <= i < |ls| ==> !ls[i].Poll?
    ensures Leftover(cfg, s, Run(cfg, s, ls))
    decreases |ls|
  {
    LeftoverRefl(cfg, s);
    if ls != [] {
      var t := Apply(cfg, s, ls[0]);
      BatchSafetyStep(cfg, s, ls[0]);
      InvStep(cfg, s, ls[0]);
      BatchSafety(cfg, t, ls[1..]);
      LeftoverTrans(cfg, s, t, Run(cfg, t, ls[1..]));
    }
  }

  // ----- over whole runs -----

  /** The step closes a connection one of whose requests is still under way. */
  ghost predicate ClosesEarly(cfg: Config, s: State, l: Label)
    requires |s.chan| == SERVERS_NUM && Enabled(cfg, s, l)
  {
    && l.ReadClient? && ReadRequest(s.front, l.reset).1.Shut?
    && exists k, rec :: 0 <= k < SERVERS_NUM && rec in InFlight(s, k)
                        && s.front.Find(s.front.batch[0].fd) == Some(rec.origin)
  }

  ghost predicate NoEarlyClose(cfg: Config, s: State, ls: seq<Label>)
    requires |s.chan| == SERVERS_NUM && CanRun(cfg, s, ls)
    decreases |ls|
  {
    ls == [] || (!ClosesEarly(cfg, s, ls[0]) && NoEarlyClose(cfg, Apply(cfg, s, ls[0]), ls[1..]))
  }

  ghost predicate AllToSender(s: State) {
    forall i :: 0 <= i < |s.answered| ==> s.answered[i].to == Some(s.answered[i].rec.origin)
  }

  ghost predicate SendersOpen(s: State)
    requires |s.chan| == SERVERS_NUM
  {
    forall k, rec :: 0 <= k < SERVERS_NUM && rec in InFlight(s, k) ==> s.front.IsOpen(rec.origin)
  }

  /** Every reply so far went to its sender, and every reply to come will still find it. */
  ghost predicate Faithful(s: State)
    requires |s.chan| == SERVERS_NUM
  {
    AllToSender(s) && SendersOpen(s)
  }

  /** What is under way after a step was under way before it, or was just forwarded. */
  lemma InFlightGrows(cfg: Config, s: State, l: Label, k: nat, rec: Record)
    requires Inv(cfg, s) && Enabled(cfg, s, l) && k < SERVERS_NUM
    requires rec in InFlight(Apply(cfg, s, l), k)
    ensures rec in InFlight(s, k) || (l == Forward(true) && rec.origin == s.hand.origin)
  {
    if l == WriteSuccess {
      HandRecordOk(cfg, s);
    } else if l != Forward(true) {
      InFlightStep(cfg, s, l, k);
    }
  }

  /** What was under way before a step still is, unless the step answered it. */
  lemma InFlightShrinks(cfg: Config, s: State, l: Label, k: nat, rec: Record)
    requires Inv(cfg, s) && Enabled(cfg, s, l) && k < SERVERS_NUM
    requires rec in InFlight(s, k)
    ensures rec in InFlight(Apply(cfg, s, l), k) || (l == WriteSuccess && rec == s.hand.rec)
  {
    if l == WriteSuccess {
      HandRecordOk(cfg, s);
    } else if l != Forward(true) {
      InFlightStep(cfg, s, l, k);
    }
  }

  /** Connections are closed only by the step that reads their end, and never reopened. */
  lemma OpenStep(cfg: Config, s: State, l: Label, c: nat)
    requires Inv(cfg, s) && Enabled(cfg, s, l) && c < |s.front.conns|
    ensures Apply(cfg, s, l).front.IsOpen(c) <==>
              s.front.IsOpen(c)
              && !(l.ReadClient? && ReadRequest(s.front, l.reset).1.Shut?
                   && s.front.Find(s.front.batch[0].fd) == Some(c))
  {
  }

  lemma FaithfulStep(cfg: Config, s: State, l: Label)
    requires Inv(cfg, s) && Enabled(cfg, s, l) && Faithful(s) && !ClosesEarly(cfg, s, l)
    ensures Faithful(Apply(cfg, s, l))
  {
    var t := Apply(cfg, s, l);
    forall k, rec | 0 <= k < SERVERS_NUM && rec in InFlight(t, k) ensures t.front.IsOpen(rec.origin) {
      InFlightGrows(cfg, s, l, k, rec);
      OpenStep(cfg, s, l, rec.origin);
    }
    if l == WriteSuccess {
      HandRecordOk(cfg, s);
      assert s.hand.rec in InFlight(s, s.hand.server);
    }
  }

  /** A pending request whose sender is closed will be answered to nobody or to a stranger. */
  lemma OrphanStep(cfg: Config, s: State, l: Label, k: nat, rec: Record)
    requires Inv(cfg, s) && Enabled(cfg, s, l) && k < SERVERS_NUM && rec in InFlight(s, k)
    requires !Apply(cfg, s, l).front.IsOpen(rec.origin)
    requires l == WriteSuccess ==> !s.front.IsOpen(rec.origin)
    ensures !Faithful(Apply(cfg, s, l))
  {
    var t := Apply(cfg, s, l);
    InFlightOk(cfg, s, k, rec);
    InFlightShrinks(cfg, s, l, k, rec);
    if rec !in InFlight(t, k) {
      assert t.answered[|s.answered|] == Answer(s.hand.server, rec, s.front.Find(rec.msg.fd));
    }
  }

  /** Once a pending request has lost its sender, some reply is lost or misdirected for good. */
  lemma UnfaithfulStep(cfg: Config, s: State, l: Label)
    requires Inv(cfg, s) && Enabled(cfg, s, l)
    requires !Faithful(s) || ClosesEarly(cfg, s, l)
    ensures !Faithful(Apply(cfg, s, l))
  {
    var t := Apply(cfg, s, l);
    if !AllToSender(s) {
      var i :| 0 <= i < |s.answered| && s.answered[i].to != Some(s.answered[i].rec.origin);
      assert t.answered[i] == s.answered[i];
    } else {
      var k: nat, rec: Record;
      if ClosesEarly(cfg, s, l) {
        k, rec :| k < SERVERS_NUM && rec in InFlight(s, k)
                  && s.front.Find(s.front.batch[0].fd) == Some(rec.origin);
      } else {
        k, rec :| k < SERVERS_NUM && rec in InFlight(s, k) && !s.front.IsOpen(rec.origin);
      }
      InFlightOk(cfg, s, k, rec);
      OpenStep(cfg, s, l, rec.origin);
      OrphanStep(cfg, s, l, k, rec);
    }
  }

  lemma {:induction false} FaithfulRun(cfg: Config, s: State, ls: seq<Label>)
    requires Inv(cfg, s) && CanRun(cfg, s, ls)
    ensures Faithful(Run(cfg, s, ls)) <==> Faithful(s) && NoEarlyClose(cfg, s, ls)
    decreases |ls|
  {
    if ls != [] {
      var t := Apply(cfg, s, ls[0]);
      InvStep(cfg, s, ls[0]);
      FaithfulRun(cfg, t, ls[1..]);
      if Faithful(s) && !ClosesEarly(cfg, s, ls[0]) {
        FaithfulStep(cfg, s, ls[0]);
      } else {
        UnfaithfulStep(cfg, s, ls[0]);
      }
    }
  }

  ghost predicate Drained(s: State)
    requires |s.chan| == SERVERS_NUM
  {
    forall k :: 0 <= k < SERVERS_NUM ==> InFlight(s, k) == []
  }

  /** Over every run from the start: all replies go, and will go, to the connection that
      asked exactly when no connection is closed while one of its requests is pending.
      Once nothing is pending, that is: exactly then did every reply reach its sender. */
  lemma NoCrossDelivery(cfg: Config, ls: seq<Label>)
    requires CanRun(cfg, Init(cfg), ls)
    ensures var s := Run(cfg, Init(cfg), ls);
      && (Faithful(s) <==> NoEarlyClose(cfg, Init(cfg), ls))
      && (Drained(s) ==> (AllToSender(s) <==> NoEarlyClose(cfg, Init(cfg), ls)))
  {
    InitInv(cfg);
    FaithfulRun(cfg, Init(cfg), ls);
  }

  // ----- one reply for every read -----

  ghost function CountReplies(outbox: seq<Reply>, r: Reply): nat {
    if outbox == [] then 0
    else CountReplies(outbox[..|outbox| - 1], r) + if outbox[|outbox| - 1] == r then 1 else 0
  }

  ghost function Outbox(s: State, c: nat): seq<Reply> {
    if c < |s.front.conns| then s.front.conns[c].outbox else []
  }

  ghost function Received(s: State, c: nat, r: Reply): nat {
    CountReplies(Outbox(s, c), r)
  }

  /** The reply a step writes to connection c, if any. */
  ghost function ReplyAt(s: State, l: Label, c: nat): seq<Reply> {
    if l == WriteError && s.hand.Refusing? && s.front.Find(s.hand.fd) == Some(c) then [Failure]
    else if l == WriteSuccess && s.hand.Replying? && s.front.Find(s.hand.rec.msg.fd) == Some(c) then [Success]
    else []
  }

  /** Success replies written to connection c. */
  ghost function CountTo(answered: seq<Answer>, c: nat): nat {
    if answered == [] then 0
    else CountTo(answered[..|answered| - 1], c) + if answered[|answered| - 1].to == Some(c) then 1 else 0
  }

  /** The distributor has read something from c that it has neither forwarded nor refused. */
  ghost function Undecided(s: State, c: nat): nat {
    match s.hand
    case Holding(_, origin) => if origin == c then 1 else 0
    case Routed(_, origin, _) => if origin == c then 1 else 0
    case Refusing(fd) => if s.front.Find(fd) == Some(c) then 1 else 0
    case _ => 0
  }

  /** The step reads connection c and no reset hits it. */
  ghost predicate ReadsFrom(f: Front, l: Label, c: nat) {
    l.ReadClient? && !l.reset && f.batch != [] && f.Find(f.batch[0].fd) == Some(c)
  }

  /** The read returned between 1 and 16 bytes. */
  ghost function DataReadAt(f: Front, l: Label, c: nat): nat {
    if ReadsFrom(f, l, c) && f.conns[c].inbox != [] then 1 else 0
  }

  /** The read returned EAGAIN. */
  ghost function AgainReadAt(f: Front, l: Label, c: nat): nat {
    if ReadsFrom(f, l, c) && f.conns[c].inbox == [] && !f.conns[c].eof then 1 else 0
  }

  ghost function DataReads(cfg: Config, s: State, ls: seq<Label>, c: nat): nat
    requires |s.chan| == SERVERS_NUM && CanRun(cfg, s, ls)
    decreases |ls|
  {
    if ls == [] then 0
    else DataReadAt(s.front, ls[0], c) + DataReads(cfg, Apply(cfg, s, ls[0]), ls[1..], c)
  }

  ghost function AgainReads(cfg: Config, s: State, ls: seq<Label>, c: nat): nat
    requires |s.chan| == SERVERS_NUM && CanRun(cfg, s, ls)
    decreases |ls|
  {
    if ls == [] then 0
    else AgainReadAt(s.front, ls[0], c) + AgainReads(cfg, Apply(cfg, s, ls[0]), ls[1..], c)
  }

  /** A step adds to what c received the one reply it writes to c, or nothing. */
  lemma OutboxStep(cfg: Config, s: State, l: Label, c: nat)
    requires |s.chan| == SERVERS_NUM && Enabled(cfg, s, l)
    requires s.hand.Replying? ==> s.hand.rec.msg.fd > 0
    ensures Outbox(Apply(cfg, s, l), c) == Outbox(s, c) + ReplyAt(s, l, c)
  {
  }

  lemma CountRepliesAppend(outbox: seq<Reply>, tail: seq<Reply>, r: Reply)
    requires |tail| <= 1
    ensures CountReplies(outbox + tail, r) == CountReplies(outbox, r) + if tail == [r] then 1 else 0
  {
    if tail == [] {
      assert outbox + tail == outbox;
    } else {
      assert (outbox + tail)[..|outbox|] == outbox;
    }
  }

  lemma ReceivedStep(cfg: Config, s: State, l: Label, c: nat, r: Reply)
    requires |s.chan| == SERVERS_NUM && Enabled(cfg, s, l)
    requires s.hand.Replying? ==> s.hand.rec.msg.fd > 0
    ensures Received(Apply(cfg, s, l), c, r) == Received(s, c, r) + if ReplyAt(s, l, c) == [r] then 1 else 0
  {
    OutboxStep(cfg, s, l, c);
    CountRepliesAppend(Outbox(s, c), ReplyAt(s, l, c), r);
  }

  /** The success a step writes, as an entry of the history of answers. */
  ghost function AnswerAt(s: State, l: Label): seq<Answer> {
    if l == WriteSuccess && s.hand.Replying?
    then [Answer(s.hand.server, s.hand.rec, s.front.Find(s.hand.rec.msg.fd))] else []
  }

  lemma AnsweredStep(cfg: Config, s: State, l: Label)
    requires |s.chan| == SERVERS_NUM && Enabled(cfg, s, l)
    requires s.hand.Replying? ==> s.hand.rec.msg.fd > 0
    ensures Apply(cfg, s, l).answered == s.answered + AnswerAt(s, l)
  {
  }

  lemma CountToAppend(answered: seq<Answer>, tail: seq<Answer>, c: nat)
    requires |tail| <= 1
    ensures CountTo(answered + tail, c)
         == CountTo(answered, c) + if tail != [] && tail[0].to == Some(c) then 1 else 0
  {
    if tail == [] {
      assert answered + tail == answered;
    } else {
      assert (answered + tail)[..|answered|] == answered;
    }
  }

  lemma ReplyIsAnswer(s: State, l: Label, c: nat)
    ensures ReplyAt(s, l, c) == [Success] <==> AnswerAt(s, l) != [] && AnswerAt(s, l)[0].to == Some(c)
  {
  }

  lemma SuccessesStep(cfg: Config, s: State, l: Label, c: nat)
    requires |s.chan| == SERVERS_NUM && Enabled(cfg, s, l)
    requires s.hand.Replying? ==> s.hand.rec.msg.fd > 0
    requires Received(s, c, Success) == CountTo(s.answered, c)
    ensures Received(Apply(cfg, s, l), c, Success) == CountTo(Apply(cfg, s, l).answered, c)
  {
    ReplyIsAnswer(s, l, c);
    CountToAppend(s.answered, AnswerAt(s, l), c);
    ReceivedStep(cfg, s, l, c, Success);
    AnsweredStep(cfg, s, l);
  }

  lemma UndecidedStep(cfg: Config, s: State, l: Label, c: nat)
    requires |s.chan| == SERVERS_NUM && Enabled(cfg, s, l) && OpenOk(cfg, s.front) && HandOk(s)
    requires s.hand.Replying? ==> s.hand.rec.msg.fd > 0
    ensures var t := Apply(cfg, s, l);
      Undecided(t, c) + (if ReplyAt(s, l, c) == [Failure] then 1 else 0)
                      + (if l == Forward(true) && s.hand.origin == c then 1 else 0)
      == Undecided(s, c) + DataReadAt(s.front, l, c) + AgainReadAt(s.front, l, c)
  {
  }

  /** A read is in the end a forward or a refusal. */
  lemma FailuresStep(cfg: Config, s: State, l: Label, c: nat)
    requires |s.chan| == SERVERS_NUM && Enabled(cfg, s, l) && OpenOk(cfg, s.front) && HandOk(s)
    requires s.hand.Replying? ==> s.hand.rec.msg.fd > 0
    ensures var t := Apply(cfg, s, l);
      Received(t, c, Failure) + CountSent(t.sent, From(c)) + Undecided(t, c)
      == Received(s, c, Failure) + CountSent(s.sent, From(c)) + Undecided(s, c)
         + DataReadAt(s.front, l, c) + AgainReadAt(s.front, l, c)
  {
    ReceivedStep(cfg, s, l, c, Failure);
    UndecidedStep(cfg, s, l, c);
    var t := Apply(cfg, s, l);
    if l == Forward(true) {
      assert t.sent[..|t.sent| - 1] == s.sent;
    } else {
      assert t.sent == s.sent;
    }
  }

  lemma {:induction false} RepliesRun(cfg: Config, s: State, ls: seq<Label>, c: nat)
    requires Inv(cfg, s) && CanRun(cfg, s, ls)
    requires Received(s, c, Success) == CountTo(s.answered, c)
    ensures var t := Run(cfg, s, ls);
      && Received(t, c, Success) == CountTo(t.answered, c)
      && Received(t, c, Failure) + CountSent(t.sent, From(c)) + Undecided(t, c)
         == Received(s, c, Failure) + CountSent(s.sent, From(c)) + Undecided(s, c)
            + DataReads(cfg, s, ls, c) + AgainReads(cfg, s, ls, c)
    decreases |ls|
  {
    if ls != [] {
      InvStep(cfg, s, ls[0]);
      if s.hand.Replying? {
        HandRecordOk(cfg, s);
      }
      SuccessesStep(cfg, s, ls[0], c);
      FailuresStep(cfg, s, ls[0], c);
      RepliesRun(cfg, Apply(cfg, s, ls[0]), ls[1..], c);
    }
  }

  lemma {:induction false} ToSenderCounts(answered: seq<Answer>, c: nat)
    requires forall i :: 0 <= i < |answered| ==> answered[i].to == Some(answered[i].rec.origin)
    ensures CountTo(answered, c) == CountAnswered(answered, From(c))
  {
    if answered != [] {
      ToSenderCounts(answered[..|answered| - 1], c);
    }
  }

  lemma DrainedCounts(s: State, p: Record -> bool)
    requires |s.chan| == SERVERS_NUM && Drained(s)
    ensures CountInFlight(s, p) == 0
  {
    assert InFlight(s, 0) == [] && InFlight(s, 1) == [] && InFlight(s, 2) == [] && InFlight(s, 3) == [];
  }

  lemma RepliesFromStart(cfg: Config, ls: seq<Label>, c: nat)
    requires CanRun(cfg, Init(cfg), ls)
    ensures var s := Run(cfg, Init(cfg), ls);
      && Inv(cfg, s)
      && Received(s, c, Success) == CountTo(s.answered, c)
      && Received(s, c, Failure) + CountSent(s.sent, From(c)) + Undecided(s, c)
         == DataReads(cfg, Init(cfg), ls, c) + AgainReads(cfg, Init(cfg), ls, c)
  {
    InitInv(cfg);
    InvRun(cfg, Init(cfg), ls);
    RepliesRun(cfg, Init(cfg), ls, c);
  }

  lemma SettledCounts(cfg: Config, s: State, c: nat)
    requires Inv(cfg, s) && AllToSender(s) && Drained(s)
    ensures CountTo(s.answered, c) == CountSent(s.sent, From(c))
  {
    ToSenderCounts(s.answered, c);
    CountsBalance(cfg, s, From(c));
    DrainedCounts(s, From(c));
  }

  /** Request i has exactly one answer, and that answer went to connection c. */
  ghost predicate AnsweredOnceTo(s: State, i: nat, c: nat) {
    && CountAnswered(s.answered, HasId(i)) == 1
    && forall j :: 0 <= j < |s.answered| && s.answered[j].rec.id == i ==> s.answered[j].to == Some(c)
  }

  lemma OneAnswer(cfg: Config, ls: seq<Label>, i: nat)
    requires CanRun(cfg, Init(cfg), ls) && i < |Run(cfg, Init(cfg), ls).sent|
    requires AllToSender(Run(cfg, Init(cfg), ls)) && Drained(Run(cfg, Init(cfg), ls))
    ensures AnsweredOnceTo(Run(cfg, Init(cfg), ls), i, Run(cfg, Init(cfg), ls).sent[i].rec.origin)
  {
    ExactlyOnePlace(cfg, ls, i);
    DrainedCounts(Run(cfg, Init(cfg), ls), HasId(i));
  }

  /** The service a client gets over any run: when nothing is pending any more and no
      connection was closed with a request pending, each of its forwarded requests has
      exactly one success, its own; and every read that left the connection open, whether
      it returned data or EAGAIN, has exactly one reply: success for a forward, failure
      for the rest. */
  lemma OneReplyPerRead(cfg: Config, ls: seq<Label>, c: nat)
    requires CanRun(cfg, Init(cfg), ls) && NoEarlyClose(cfg, Init(cfg), ls)
    requires Drained(Run(cfg, Init(cfg), ls)) && Run(cfg, Init(cfg), ls).hand.Free?
    ensures var s := Run(cfg, Init(cfg), ls);
      && Received(s, c, Success) == CountSent(s.sent, From(c))
      && Received(s, c, Success) + Received(s, c, Failure)
         == DataReads(cfg, Init(cfg), ls, c) + AgainReads(cfg, Init(cfg), ls, c)
      && forall i :: 0 <= i < |s.sent| && s.sent[i].rec.origin == c ==> AnsweredOnceTo(s, i, c)
  {
    RepliesFromStart(cfg, ls, c);
    NoCrossDelivery(cfg, ls);
    var s := Run(cfg, Init(cfg), ls);
    SettledCounts(cfg, s, c);
    forall i | 0 <= i < |s.sent| && s.sent[i].rec.origin == c ensures AnsweredOnceTo(s, i, c) {
      OneAnswer(cfg, ls, i);
    }
  }
}
