/** What every step of the routing protocol keeps, and what follows for all runs: per-server
    FIFO conservation, and every request in exactly one place. */
module RoutingSafety {
  import opened Common
  import opened Routing

  /** The records forwarded to server k, oldest first. */
  ghost function SentTo(sent: seq<Forwarded>, k: nat): seq<Record> {
    if sent == [] then [] else
      var last := sent[|sent| - 1];
      SentTo(sent[..|sent| - 1], k) + if last.server == k then [last.rec] else []
  }

  /** The records answered out of server k's reply stream, oldest first. */
  ghost function DoneBy(answered: seq<Answer>, k: nat): seq<Record> {
    if answered == [] then [] else
      var last := answered[|answered| - 1];
      DoneBy(answered[..|answered| - 1], k) + if last.server == k then [last.rec] else []
  }

  ghost function InHand(h: Hand, k: nat): seq<Record> {
    if h.Replying? && h.server == k then [h.rec] else []
  }

  ghost function InWork(w: Option<Record>): seq<Record> {
    match w case None => [] case Some(r) => [r]
  }

  /** Everything that ever went to server k and is not yet answered, oldest first. */
  ghost function InFlight(s: State, k: nat): seq<Record>
    requires k < |s.chan|
  {
    InHand(s.hand, k) + s.chan[k].rep + InWork(s.chan[k].work) + s.chan[k].req
  }

  /** Nothing forwarded to server k is lost, duplicated, altered or reordered. */
  ghost predicate Conserved(s: State, k: nat)
    requires k < |s.chan|
  {
    SentTo(s.sent, k) == DoneBy(s.answered, k) + InFlight(s, k)
  }

  ghost predicate AllConserved(s: State)
    requires |s.chan| == SERVERS_NUM
  {
    forall k :: 0 <= k < SERVERS_NUM ==> Conserved(s, k)
  }

  ghost predicate OpenOk(cfg: Config, f: Front) {
    forall fd :: fd in f.open ==>
      f.open[fd] < |f.conns| && f.conns[f.open[fd]].fd == fd && fd !in cfg.reserved && fd > 0
  }

  /** The epoll set holds the listener, the servers if registered, and every open client. */
  ghost predicate InterestOk(cfg: Config, f: Front) {
    forall fd :: fd in f.interest <==>
      fd == cfg.listenFd || (cfg.registered && fd in cfg.serverFd) || fd in f.open
  }

  ghost predicate BatchOk(cfg: Config, s: State)
    requires |s.chan| == SERVERS_NUM
  {
    && Distinct(s.front.batch)
    && (forall i :: 0 <= i < |s.front.batch| ==> s.front.batch[i].fd in s.front.interest)
    && (forall i :: 0 <= i < |s.front.batch| && s.front.batch[i].readable && s.front.batch[i].fd in cfg.serverFd ==>
          s.chan[ServerOf(cfg, s.front.batch[i].fd)].rep != [])
  }

  ghost predicate HandOk(s: State) {
    match s.hand
    case Free => true
    case Halted => true
    case Holding(msg, c) => msg.fd in s.front.open && s.front.open[msg.fd] == c
    case Routed(msg, c, k) => msg.fd in s.front.open && s.front.open[msg.fd] == c && k < SERVERS_NUM
    case Refusing(fd) => fd in s.front.open
    case Replying(_, k) => k < SERVERS_NUM
  }

  ghost predicate RecordOk(f: Front, rec: Record) {
    rec.origin < |f.conns| && f.conns[rec.origin].fd == rec.msg.fd && rec.msg.fd > 0
  }

  ghost predicate SentOk(s: State) {
    forall i :: 0 <= i < |s.sent| ==>
      s.sent[i].server < SERVERS_NUM && s.sent[i].rec.id == i && RecordOk(s.front, s.sent[i].rec)
  }

  ghost predicate AnsweredOk(s: State) {
    forall i :: 0 <= i < |s.answered| ==> s.answered[i].server < SERVERS_NUM
  }

  ghost predicate Bounded(cfg: Config, s: State) {
    forall k :: 0 <= k < |s.chan| ==> |s.chan[k].req| <= cfg.capacity && |s.chan[k].rep| <= cfg.capacity
  }

  ghost predicate Inv(cfg: Config, s: State) {
    && |s.chan| == SERVERS_NUM
    && OpenOk(cfg, s.front) && InterestOk(cfg, s.front) && BatchOk(cfg, s)
    && HandOk(s) && SentOk(s) && AnsweredOk(s) && AllConserved(s) && Bounded(cfg, s)
  }

  lemma SentToAppend(sent: seq<Forwarded>, fwd: Forwarded, k: nat)
    ensures SentTo(sent + [fwd], k) == SentTo(sent, k) + if fwd.server == k then [fwd.rec] else []
  {
    assert (sent + [fwd])[..|sent|] == sent;
  }

  lemma DoneByAppend(answered: seq<Answer>, a: Answer, k: nat)
    ensures DoneBy(answered + [a], k) == DoneBy(answered, k) + if a.server == k then [a.rec] else []
  {
    assert (answered + [a])[..|answered|] == answered;
  }

  /** What was forwarded to server k is in the history of forwards. */
  lemma {:induction false} SentToIn(sent: seq<Forwarded>, k: nat, rec: Record)
    requires rec in SentTo(sent, k)
    ensures exists i :: 0 <= i < |sent| && sent[i] == Forwarded(k, rec)
  {
    var n := |sent| - 1;
    if sent[n] != Forwarded(k, rec) {
      SentToIn(sent[..n], k, rec);
      var i :| 0 <= i < n && sent[..n][i] == Forwarded(k, rec);
      assert sent[i] == Forwarded(k, rec);
    }
  }

  /** Whatever is in flight was forwarded, by a connection that had that descriptor. */
  lemma InFlightOk(cfg: Config, s: State, k: nat, rec: Record)
    requires Inv(cfg, s) && k < SERVERS_NUM && rec in InFlight(s, k)
    ensures RecordOk(s.front, rec) && rec.id < |s.sent| && s.sent[rec.id] == Forwarded(k, rec)
  {
    assert Conserved(s, k);
    assert rec in SentTo(s.sent, k);
    SentToIn(s.sent, k, rec);
  }

  lemma {:induction false} DoneByHas(answered: seq<Answer>, i: nat)
    requires i < |answered|
    ensures answered[i].rec in DoneBy(answered, answered[i].server)
  {
    var n := |answered| - 1;
    if i < n {
      DoneByHas(answered[..n], i);
    }
  }

  /** Whatever was answered is what was forwarded to that server, unaltered. */
  lemma AnsweredOrigin(cfg: Config, s: State, i: nat)
    requires Inv(cfg, s) && i < |s.answered|
    ensures var a := s.answered[i]; a.rec.id < |s.sent| && s.sent[a.rec.id] == Forwarded(a.server, a.rec)
  {
    var a := s.answered[i];
    DoneByHas(s.answered, i);
    assert Conserved(s, a.server);
    SentToIn(s.sent, a.server, a.rec);
  }

  lemma InitInv(cfg: Config)
    ensures Inv(cfg, Init(cfg))
  {
  }

  lemma OpenOkStep(cfg: Config, s: State, l: Label)
    requires |s.chan| == SERVERS_NUM && OpenOk(cfg, s.front) && Enabled(cfg, s, l)
    ensures OpenOk(cfg, Apply(cfg, s, l).front)
  {
  }

  lemma InterestStep(cfg: Config, s: State, l: Label)
    requires |s.chan| == SERVERS_NUM && InterestOk(cfg, s.front) && OpenOk(cfg, s.front) && Enabled(cfg, s, l)
    ensures InterestOk(cfg, Apply(cfg, s, l).front)
  {
  }

  lemma BatchStep(cfg: Config, s: State, l: Label)
    requires |s.chan| == SERVERS_NUM && BatchOk(cfg, s) && Enabled(cfg, s, l)
    ensures BatchOk(cfg, Apply(cfg, s, l))
  {
  }

  lemma HandStep(cfg: Config, s: State, l: Label)
    requires Inv(cfg, s) && Enabled(cfg, s, l)
    ensures HandOk(Apply(cfg, s, l))
  {
  }

  lemma SentStep(cfg: Config, s: State, l: Label)
    requires Inv(cfg, s) && Enabled(cfg, s, l)
    ensures SentOk(Apply(cfg, s, l)) && AnsweredOk(Apply(cfg, s, l))
  {
  }

  lemma BoundedStep(cfg: Config, s: State, l: Label)
    requires |s.chan| == SERVERS_NUM && Bounded(cfg, s) && Enabled(cfg, s, l)
    ensures Bounded(cfg, Apply(cfg, s, l))
  {
  }

  lemma ReadKeeps(cfg: Config, s: State, k: nat)
    requires |s.chan| == SERVERS_NUM && Enabled(cfg, s, ReadServer) && k < SERVERS_NUM
    ensures InFlight(Apply(cfg, s, ReadServer), k) == InFlight(s, k)
  {
    var t := Apply(cfg, s, ReadServer);
    assert s.chan[t.hand.server].rep == [t.hand.rec] + t.chan[t.hand.server].rep;
  }

  lemma EchoKeeps(cfg: Config, s: State, l: Label, k: nat)
    requires |s.chan| == SERVERS_NUM && Enabled(cfg, s, l) && k < SERVERS_NUM && (l.Take? || l.Echo?)
    ensures InFlight(Apply(cfg, s, l), k) == InFlight(s, k)
  {
    if l.Take? {
      assert s.chan[l.server].req == [s.chan[l.server].req[0]] + s.chan[l.server].req[1..];
    }
  }

  /** Steps that move a record inside the distributor or a server keep the order in flight. */
  lemma InFlightStep(cfg: Config, s: State, l: Label, k: nat)
    requires |s.chan| == SERVERS_NUM && Enabled(cfg, s, l) && k < SERVERS_NUM
    requires l != Forward(true) && !l.WriteSuccess?
    ensures InFlight(Apply(cfg, s, l), k) == InFlight(s, k)
  {
    if l.ReadServer? {
      ReadKeeps(cfg, s, k);
    } else if l.Take? || l.Echo? {
      EchoKeeps(cfg, s, l, k);
    } else {
      assert Apply(cfg, s, l).chan == s.chan;
    }
  }

  lemma ForwardConserved(cfg: Config, s: State, k: nat)
    requires Inv(cfg, s) && Enabled(cfg, s, Forward(true)) && k < SERVERS_NUM
    ensures Conserved(Apply(cfg, s, Forward(true)), k)
  {
    var t := Apply(cfg, s, Forward(true));
    var fwd := t.sent[|s.sent|];
    SentToAppend(s.sent, fwd, k);
    assert Conserved(s, k);
    assert InFlight(t, k) == InFlight(s, k) + if fwd.server == k then [fwd.rec] else [];
  }

  /** The `assert(clientFd > 0)` before the reply always holds. */
  lemma HandRecordOk(cfg: Config, s: State)
    requires Inv(cfg, s) && s.hand.Replying?
    ensures RecordOk(s.front, s.hand.rec) && s.hand.rec.id < |s.sent|
    ensures s.sent[s.hand.rec.id] == Forwarded(s.hand.server, s.hand.rec)
  {
    assert InFlight(s, s.hand.server)[0] == s.hand.rec;
    InFlightOk(cfg, s, s.hand.server, s.hand.rec);
  }

  lemma Regroup(done: seq<Record>, hand: seq<Record>, rep: seq<Record>, work: seq<Record>, req: seq<Record>)
    ensures done + (hand + rep + work + req) == (done + hand) + ([] + rep + work + req)
  {
  }

  lemma AnswerConserved(s: State, t: State, a: Answer, k: nat)
    requires |s.chan| == SERVERS_NUM && k < SERVERS_NUM && Conserved(s, k)
    requires s.hand.Replying? && a.server == s.hand.server && a.rec == s.hand.rec
    requires t == s.(hand := Free, answered := s.answered + [a], front := t.front)
    ensures Conserved(t, k)
  {
    DoneByAppend(s.answered, a, k);
    var c := s.chan[k];
    Regroup(DoneBy(s.answered, k), InHand(s.hand, k), c.rep, InWork(c.work), c.req);
  }

  lemma ConservedStep(cfg: Config, s: State, l: Label, k: nat)
    requires Inv(cfg, s) && Enabled(cfg, s, l) && k < SERVERS_NUM
    ensures Conserved(Apply(cfg, s, l), k)
  {
    if l == Forward(true) {
      ForwardConserved(cfg, s, k);
    } else if l == WriteSuccess {
      HandRecordOk(cfg, s);
      assert Conserved(s, k);
      var a := Answer(s.hand.server, s.hand.rec, s.front.Find(s.hand.rec.msg.fd));
      AnswerConserved(s, Apply(cfg, s, l), a, k);
    } else {
      assert Conserved(s, k);
      InFlightStep(cfg, s, l, k);
    }
  }

  lemma InvStep(cfg: Config, s: State, l: Label)
    requires Inv(cfg, s) && Enabled(cfg, s, l)
    ensures Inv(cfg, Apply(cfg, s, l))
  {
    OpenOkStep(cfg, s, l);
    InterestStep(cfg, s, l);
    BatchStep(cfg, s, l);
    HandStep(cfg, s, l);
    SentStep(cfg, s, l);
    BoundedStep(cfg, s, l);
    forall k | 0 <= k < SERVERS_NUM ensures Conserved(Apply(cfg, s, l), k) {
      ConservedStep(cfg, s, l, k);
    }
  }

  lemma {:induction false} InvRun(cfg: Config, s: State, ls: seq<Label>)
    requires Inv(cfg, s) && CanRun(cfg, s, ls)
    ensures Inv(cfg, Run(cfg, s, ls))
    decreases |ls|
  {
    if ls != [] {
      InvStep(cfg, s, ls[0]);
      InvRun(cfg, Apply(cfg, s, ls[0]), ls[1..]);
    }
  }

  /** Every reachable state satisfies the invariant. */
  lemma InvFromStart(cfg: Config, ls: seq<Label>)
    requires CanRun(cfg, Init(cfg), ls)
    ensures Inv(cfg, Run(cfg, Init(cfg), ls))
  {
    InitInv(cfg);
    InvRun(cfg, Init(cfg), ls);
  }

  // ----- every request in exactly one place -----

  ghost function Count(rs: seq<Record>, p: Record -> bool): nat {
    if rs == [] then 0 else Count(rs[..|rs| - 1], p) + if p(rs[|rs| - 1]) then 1 else 0
  }

  ghost function CountSent(sent: seq<Forwarded>, p: Record -> bool): nat {
    if sent == [] then 0 else CountSent(sent[..|sent| - 1], p) + if p(sent[|sent| - 1].rec) then 1 else 0
  }

  ghost function CountAnswered(answered: seq<Answer>, p: Record -> bool): nat {
    if answered == [] then 0
    else CountAnswered(answered[..|answered| - 1], p) + if p(answered[|answered| - 1].rec) then 1 else 0
  }

  ghost function CountInFlight(s: State, p: Record -> bool): nat
    requires |s.chan| == SERVERS_NUM
  {
    Count(InFlight(s, 0), p) + Count(InFlight(s, 1), p) + Count(InFlight(s, 2), p) + Count(InFlight(s, 3), p)
  }

  lemma {:induction false} CountConcat(a: seq<Record>, b: seq<Record>, p: Record -> bool)
    ensures Count(a + b, p) == Count(a, p) + Count(b, p)
  {
    if b == [] {
      assert a + b == a;
    } else {
      var n := |b| - 1;
      CountConcat(a, b[..n], p);
      assert (a + b)[..|a + b| - 1] == a + b[..n];
    }
  }

  lemma CountSnoc(rs: seq<Record>, tail: seq<Record>, p: Record -> bool)
    requires |tail| <= 1
    ensures Count(rs + tail, p) == Count(rs, p) + if tail != [] && p(tail[0]) then 1 else 0
  {
    CountConcat(rs, tail, p);
    assert tail != [] ==> tail[..0] == [];
  }

  lemma {:induction false} CountSentSplits(sent: seq<Forwarded>, p: Record -> bool)
    requires forall i :: 0 <= i < |sent| ==> sent[i].server < SERVERS_NUM
    ensures CountSent(sent, p) == Count(SentTo(sent, 0), p) + Count(SentTo(sent, 1), p)
                                + Count(SentTo(sent, 2), p) + Count(SentTo(sent, 3), p)
  {
    if sent != [] {
      var init, last := sent[..|sent| - 1], sent[|sent| - 1];
      CountSentSplits(init, p);
      CountSnoc(SentTo(init, 0), if last.server == 0 then [last.rec] else [], p);
      CountSnoc(SentTo(init, 1), if last.server == 1 then [last.rec] else [], p);
      CountSnoc(SentTo(init, 2), if last.server == 2 then [last.rec] else [], p);
      CountSnoc(SentTo(init, 3), if last.server == 3 then [last.rec] else [], p);
    }
  }

  lemma {:induction false} CountAnsweredSplits(answered: seq<Answer>, p: Record -> bool)
    requires forall i :: 0 <= i < |answered| ==> answered[i].server < SERVERS_NUM
    ensures CountAnswered(answered, p) == Count(DoneBy(answered, 0), p) + Count(DoneBy(answered, 1), p)
                                        + Count(DoneBy(answered, 2), p) + Count(DoneBy(answered, 3), p)
  {
    if answered != [] {
      var init, last := answered[..|answered| - 1], answered[|answered| - 1];
      CountAnsweredSplits(init, p);
      CountSnoc(DoneBy(init, 0), if last.server == 0 then [last.rec] else [], p);
      CountSnoc(DoneBy(init, 1), if last.server == 1 then [last.rec] else [], p);
      CountSnoc(DoneBy(init, 2), if last.server == 2 then [last.rec] else [], p);
      CountSnoc(DoneBy(init, 3), if last.server == 3 then [last.rec] else [], p);
    }
  }

  /** Whatever one counts, forwards are answers plus what is still under way. */
  lemma CountsBalance(cfg: Config, s: State, p: Record -> bool)
    requires Inv(cfg, s)
    ensures CountSent(s.sent, p) == CountAnswered(s.answered, p) + CountInFlight(s, p)
  {
    CountSentSplits(s.sent, p);
    CountAnsweredSplits(s.answered, p);
    forall k | 0 <= k < SERVERS_NUM
      ensures Count(SentTo(s.sent, k), p) == Count(DoneBy(s.answered, k), p) + Count(InFlight(s, k), p)
    {
      assert Conserved(s, k);
      CountConcat(DoneBy(s.answered, k), InFlight(s, k), p);
    }
  }

  ghost function HasId(id: nat): Record -> bool {
    (r: Record) => r.id == id
  }

  /** The requests of connection c. */
  ghost function From(c: nat): Record -> bool {
    (r: Record) => r.origin == c
  }

  lemma {:induction false} CountIds(sent: seq<Forwarded>, id: nat)
    requires forall i :: 0 <= i < |sent| ==> sent[i].rec.id == i
    ensures CountSent(sent, HasId(id)) == if id < |sent| then 1 else 0
  {
    if sent != [] {
      CountIds(sent[..|sent| - 1], id);
    }
  }

  /** In every reachable state each request forwarded so far is in exactly one place: once
      among the answers, or once in one server's reply stream, hands or request stream, or
      in the distributor's hands; and it is the record that was forwarded, unaltered. */
  lemma ExactlyOnePlace(cfg: Config, ls: seq<Label>, id: nat)
    requires CanRun(cfg, Init(cfg), ls) && id < |Run(cfg, Init(cfg), ls).sent|
    ensures var s := Run(cfg, Init(cfg), ls);
      && CountAnswered(s.answered, HasId(id)) + CountInFlight(s, HasId(id)) == 1
      && (forall k, rec :: 0 <= k < SERVERS_NUM && rec in InFlight(s, k) && rec.id == id ==>
            s.sent[id] == Forwarded(k, rec))
      && (forall i :: 0 <= i < |s.answered| && s.answered[i].rec.id == id ==>
            s.sent[id] == Forwarded(s.answered[i].server, s.answered[i].rec))
  {
    var s := Run(cfg, Init(cfg), ls);
    InvFromStart(cfg, ls);
    CountsBalance(cfg, s, HasId(id));
    CountIds(s.sent, id);
    forall k, rec | 0 <= k < SERVERS_NUM && rec in InFlight(s, k) && rec.id == id
      ensures s.sent[id] == Forwarded(k, rec)
    {
      InFlightOk(cfg, s, k, rec);
    }
    forall i | 0 <= i < |s.answered| && s.answered[i].rec.id == id
      ensures s.sent[id] == Forwarded(s.answered[i].server, s.answered[i].rec)
    {
      AnsweredOrigin(cfg, s, i);
    }
  }
}
