/** The whole distributor: request routing and the feedback loop interleaved, tied together
    in the one step they share, the draw of a server. The draw and the write that follows it
    are two system calls, so a publication can fall between them; what that costs is stated
    exactly. */
module Composition {
  import opened Common
  import Wire
  import Routing
  import RoutingSafety
  import RoutingStartup
  import Feedback
  import opened Selection

  /** Which draw sent a request on its way, and how many rounds were published when it was
      written to its server. */
  datatype Origin = Origin(pick: nat, round: nat)

  /** `current` is the draw of the request in the distributor's hands, `origins` are those
      of the requests forwarded. */
  datatype State = State(route: Routing.State, feed: Feedback.State, current: nat, origins: seq<Origin>)

  datatype Label = Route(r: Routing.Label) | Feed(f: Feedback.Label) | Draw(ticket: real)

  function Init(cfg: Routing.Config): State {
    State(Routing.Init(cfg), Feedback.Init(), 0, [])
  }

  predicate Shape(s: State) {
    |s.route.chan| == SERVERS_NUM && Feedback.Shape(s.feed)
  }

  predicate Enabled(cfg: Routing.Config, s: State, l: Label)
    requires Shape(s)
  {
    match l
    case Route(r) => !r.Pick? && Routing.Enabled(cfg, s.route, r)
    case Feed(f) => !f.Pick? && Feedback.Enabled(s.feed, f)
    case Draw(ticket) =>
      && Feedback.Enabled(s.feed, Feedback.Pick(ticket))
      && Routing.Enabled(cfg, s.route, Routing.Pick(Select(s.feed.d, ticket)))
  }

  function Apply(cfg: Routing.Config, s: State, l: Label): (t: State)
    requires Shape(s) && Enabled(cfg, s, l)
    ensures Shape(t)
  {
    match l
    case Route(r) =>
      s.(route := Routing.Apply(cfg, s.route, r),
         origins := s.origins + if r == Routing.Forward(true) then [Origin(s.current, s.feed.rounds)] else [])
    case Feed(f) => s.(feed := Feedback.Apply(s.feed, f))
    case Draw(ticket) =>
      s.(route := Routing.Apply(cfg, s.route, Routing.Pick(Select(s.feed.d, ticket))),
         feed := Feedback.Apply(s.feed, Feedback.Pick(ticket)),
         current := |s.feed.picks|)
  }

  ghost predicate CanRun(cfg: Routing.Config, s: State, ls: seq<Label>)
    requires Shape(s)
    decreases |ls|
  {
    ls == [] || (Enabled(cfg, s, ls[0]) && CanRun(cfg, Apply(cfg, s, ls[0]), ls[1..]))
  }

  ghost function Run(cfg: Routing.Config, s: State, ls: seq<Label>): (t: State)
    requires Shape(s) && CanRun(cfg, s, ls)
    ensures Shape(t)
    decreases |ls|
  {
    if ls == [] then s else Run(cfg, Apply(cfg, s, ls[0]), ls[1..])
  }

  // ----- every forward has its own draw -----

  /** Request i went to the server of its own draw, which was made before it was written. */
  ghost predicate OriginOk(s: State, i: nat)
    requires i < |s.origins| == |s.route.sent|
  {
    var o := s.origins[i];
    && o.pick < |s.feed.picks| && s.feed.picks[o.pick].server == s.route.sent[i].server
    && s.feed.picks[o.pick].round <= o.round <= s.feed.rounds
  }

  /** The draw of index `pick` was made after request i had been written. */
  ghost predicate DrawnAfter(s: State, i: nat, pick: nat)
    requires i < |s.origins|
  {
    pick < |s.feed.picks| && s.origins[i].pick < pick && s.origins[i].round <= s.feed.picks[pick].round
  }

  ghost predicate OriginsOk(s: State) {
    && |s.origins| == |s.route.sent|
    && (forall i :: 0 <= i < |s.origins| ==> OriginOk(s, i))
    && (forall i, j :: 0 <= i < j < |s.origins| ==> DrawnAfter(s, i, s.origins[j].pick))
  }

  /** The server in the distributor's hands is that of the last draw. */
  ghost predicate CurrentOk(s: State) {
    s.route.hand.Routed? ==>
      && s.current + 1 == |s.feed.picks| && s.feed.picks[s.current].server == s.route.hand.server
      && forall i :: 0 <= i < |s.origins| ==> DrawnAfter(s, i, s.current)
  }

  ghost predicate Inv(cfg: Routing.Config, s: State) {
    RoutingSafety.Inv(cfg, s.route) && Feedback.Inv(s.feed) && OriginsOk(s) && CurrentOk(s)
  }

  /** What the routing steps other than the draw do to the histories. */
  lemma RouteStep(cfg: Routing.Config, s: Routing.State, r: Routing.Label)
    requires |s.chan| == SERVERS_NUM && Routing.Enabled(cfg, s, r) && !r.Pick?
    ensures var t := Routing.Apply(cfg, s, r);
      && (r == Routing.Forward(true) ==>
            s.hand.Routed? && !t.hand.Routed? && |t.sent| == |s.sent| + 1 && t.sent[..|s.sent|] == s.sent
            && t.sent[|s.sent|].server == s.hand.server)
      && (r != Routing.Forward(true) ==> t.sent == s.sent && (t.hand.Routed? ==> t.hand == s.hand))
  {
  }

  lemma FeedStep(s: Feedback.State, f: Feedback.Label)
    requires Feedback.Shape(s) && Feedback.Enabled(s, f) && !f.Pick?
    ensures var t := Feedback.Apply(s, f);
      t.picks == s.picks && t.rounds == s.rounds + if f.Publish? then 1 else 0
  {
  }

  lemma RouteOrigins(cfg: Routing.Config, s: State, r: Routing.Label)
    requires Shape(s) && Enabled(cfg, s, Route(r)) && OriginsOk(s) && CurrentOk(s)
    requires Feedback.HistOk(s.feed) && Feedback.PicksOk(s.feed)
    ensures OriginsOk(Apply(cfg, s, Route(r))) && CurrentOk(Apply(cfg, s, Route(r)))
  {
    RouteStep(cfg, s.route, r);
    var t := Apply(cfg, s, Route(r));
    forall i | 0 <= i < |t.origins| ensures OriginOk(t, i) {
      if i < |s.origins| {
        assert OriginOk(s, i) && t.route.sent[..|s.route.sent|][i] == s.route.sent[i];
      } else {
        assert Feedback.PickOk(s.feed, s.feed.picks[s.current]);
      }
    }
    forall i, j | 0 <= i < j < |t.origins| ensures DrawnAfter(t, i, t.origins[j].pick) {
      if j < |s.origins| {
        assert DrawnAfter(s, i, s.origins[j].pick);
      } else {
        assert DrawnAfter(s, i, s.current);
      }
    }
    forall i | 0 <= i < |t.origins| && t.route.hand.Routed? ensures DrawnAfter(t, i, t.current) {
      assert DrawnAfter(s, i, s.current);
    }
  }

  lemma DrawOrigins(cfg: Routing.Config, s: State, ticket: real)
    requires Shape(s) && Enabled(cfg, s, Draw(ticket)) && OriginsOk(s)
    ensures OriginsOk(Apply(cfg, s, Draw(ticket))) && CurrentOk(Apply(cfg, s, Draw(ticket)))
  {
    var t := Apply(cfg, s, Draw(ticket));
    assert t.feed.picks[..|s.feed.picks|] == s.feed.picks;
    forall i | 0 <= i < |t.origins| ensures OriginOk(t, i) && DrawnAfter(t, i, t.current) {
      assert OriginOk(s, i);
    }
    forall i, j | 0 <= i < j < |t.origins| ensures DrawnAfter(t, i, t.origins[j].pick) {
      assert DrawnAfter(s, i, s.origins[j].pick);
    }
  }

  lemma FeedOrigins(cfg: Routing.Config, s: State, f: Feedback.Label)
    requires Shape(s) && Enabled(cfg, s, Feed(f)) && OriginsOk(s) && CurrentOk(s)
    ensures OriginsOk(Apply(cfg, s, Feed(f))) && CurrentOk(Apply(cfg, s, Feed(f)))
  {
    FeedStep(s.feed, f);
    var t := Apply(cfg, s, Feed(f));
    forall i | 0 <= i < |t.origins| ensures OriginOk(t, i) {
      assert OriginOk(s, i);
    }
    forall i, j | 0 <= i < j < |t.origins| ensures DrawnAfter(t, i, t.origins[j].pick) {
      assert DrawnAfter(s, i, s.origins[j].pick);
    }
    forall i | 0 <= i < |t.origins| && t.route.hand.Routed? ensures DrawnAfter(t, i, t.current) {
      assert DrawnAfter(s, i, s.current);
    }
  }

  lemma InvStep(cfg: Routing.Config, s: State, l: Label)
    requires Shape(s) && Inv(cfg, s) && Enabled(cfg, s, l)
    ensures Inv(cfg, Apply(cfg, s, l))
  {
    match l
    case Route(r) =>
      RoutingSafety.InvStep(cfg, s.route, r);
      RouteOrigins(cfg, s, r);
    case Feed(f) =>
      Feedback.InvStep(s.feed, f);
      FeedOrigins(cfg, s, f);
    case Draw(ticket) =>
      Feedback.InvStep(s.feed, Feedback.Pick(ticket));
      RoutingSafety.InvStep(cfg, s.route, Routing.Pick(Select(s.feed.d, ticket)));
      DrawOrigins(cfg, s, ticket);
  }

  lemma {:induction false} InvRun(cfg: Routing.Config, s: State, ls: seq<Label>)
    requires Shape(s) && Inv(cfg, s) && CanRun(cfg, s, ls)
    ensures Inv(cfg, Run(cfg, s, ls))
    decreases |ls|
  {
    if ls != [] {
      InvStep(cfg, s, ls[0]);
      InvRun(cfg, Apply(cfg, s, ls[0]), ls[1..]);
    }
  }

  lemma InvFromStart(cfg: Routing.Config, ls: seq<Label>)
    requires CanRun(cfg, Init(cfg), ls)
    ensures Inv(cfg, Run(cfg, Init(cfg), ls))
  {
    RoutingSafety.InitInv(cfg);
    InvRun(cfg, Init(cfg), ls);
  }

  /** Under every interleaving of routing, polling, ticking and publishing, each forwarded
      request went to the server of its own draw, the draws of successive requests are
      successive, and each used the weights of one whole round in which that server was
      below 95 in every respect (or the uniform ones). */
  lemma RequestsFollowDraws(cfg: Routing.Config, ls: seq<Label>, i: nat)
    requires CanRun(cfg, Init(cfg), ls) && i < |Run(cfg, Init(cfg), ls).route.sent|
    ensures var s := Run(cfg, Init(cfg), ls);
      && |s.origins| == |s.route.sent| && s.origins[i].pick < |s.feed.picks|
      && s.feed.picks[s.origins[i].pick].server == s.route.sent[i].server
      && Justified(s.feed, s.feed.picks[s.origins[i].pick])
      && (forall j :: i < j < |s.origins| ==> s.origins[i].pick < s.origins[j].pick)
  {
    InvFromStart(cfg, ls);
    var s := Run(cfg, Init(cfg), ls);
    assert OriginOk(s, i);
    JustifiedPick(s.feed, s.origins[i].pick);
    forall j | i < j < |s.origins| ensures s.origins[i].pick < s.origins[j].pick {
      assert DrawnAfter(s, i, s.origins[j].pick);
    }
  }

  /** The draw used one whole finished round, in which the server was not overloaded. */
  ghost predicate Justified(f: Feedback.State, pick: Feedback.Picked) {
    && Feedback.Shape(f) && pick.server < SERVERS_NUM
    && (forall k :: 0 <= k < SERVERS_NUM ==> pick.round <= |f.hist[k]|)
    && pick.weights == Feedback.WeightsAfter(f.hist, pick.round)
    && (pick.round > 0 ==> !Overloaded(f.hist[pick.server][pick.round - 1].reading.sample))
  }

  lemma JustifiedPick(f: Feedback.State, j: nat)
    requires Feedback.Inv(f) && j < |f.picks|
    ensures Justified(f, f.picks[j])
  {
    var pick := f.picks[j];
    assert Feedback.PickOk(f, pick);
    if pick.round > 0 {
      WeightBounds(f.hist[pick.server][pick.round - 1].reading.sample);
    }
  }

  // ----- overload exclusion, and exactly when it fails -----

  /** Request i was written to a server that was overloaded in the round published last. */
  ghost predicate ToOverloaded(s: State, i: nat)
    requires Shape(s) && i < |s.origins| == |s.route.sent|
  {
    var k, n := s.route.sent[i].server, s.origins[i].round;
    k < SERVERS_NUM && 0 < n <= |s.feed.hist[k]| && Overloaded(s.feed.hist[k][n - 1].reading.sample)
  }

  /** A later publication than the one request i was drawn from came before its write, and
      the last one before the write left its server without weight. */
  ghost predicate Overtaken(s: State, i: nat)
    requires Shape(s) && Feedback.HistLengths(s.feed) && i < |s.origins| == |s.route.sent|
    requires OriginOk(s, i)
  {
    var k, o := s.route.sent[i].server, s.origins[i];
    && s.feed.picks[o.pick].round < o.round
    && k < SERVERS_NUM && Feedback.WeightsAfter(s.feed.hist, o.round)[k] == 0.0
  }

  lemma OverloadAt(s: State, i: nat)
    requires Shape(s) && Feedback.HistOk(s.feed) && Feedback.PicksOk(s.feed)
    requires i < |s.origins| == |s.route.sent| && OriginOk(s, i)
    ensures ToOverloaded(s, i) <==> Overtaken(s, i)
  {
    var k, o := s.route.sent[i].server, s.origins[i];
    assert Feedback.PickOk(s.feed, s.feed.picks[o.pick]);
    if o.round > 0 {
      WeightBounds(s.feed.hist[k][o.round - 1].reading.sample);
    }
  }

  /** Over all runs: a request goes to a server that is overloaded in the last published
      round if and only if a publication that takes that server's weight away falls between
      its draw and its write. Then it is the first request written after that publication,
      so no publication is followed by two of them. */
  lemma OverloadExact(cfg: Routing.Config, ls: seq<Label>, i: nat)
    requires CanRun(cfg, Init(cfg), ls) && i < |Run(cfg, Init(cfg), ls).route.sent|
    ensures var s := Run(cfg, Init(cfg), ls);
      && Feedback.HistLengths(s.feed) && |s.origins| == |s.route.sent| && OriginOk(s, i)
      && (ToOverloaded(s, i) <==> Overtaken(s, i))
      && (ToOverloaded(s, i) ==> forall j :: 0 <= j < i ==> s.origins[j].round < s.origins[i].round)
  {
    InvFromStart(cfg, ls);
    var s := Run(cfg, Init(cfg), ls);
    OverloadAt(s, i);
    forall j | 0 <= j < i && ToOverloaded(s, i) ensures s.origins[j].round < s.origins[i].round {
      assert DrawnAfter(s, j, s.origins[i].pick);
    }
  }

  ghost predicate FitNow(s: State, k: nat)
    requires Shape(s) && k < SERVERS_NUM
  {
    s.feed.rounds == 0 || Feedback.Fit(s.feed, k)
  }

  /** Since request n, everything written went, and what is in hand will go, to a server that
      was fit in the last published round. */
  ghost predicate FitSince(s: State, n: nat)
    requires Shape(s)
  {
    && (s.route.hand.Routed? ==> s.route.hand.server < SERVERS_NUM && FitNow(s, s.route.hand.server))
    && forall i :: n <= i < |s.route.sent| ==> s.route.sent[i].server < SERVERS_NUM && FitNow(s, s.route.sent[i].server)
  }

  lemma FitStays(s: Feedback.State, f: Feedback.Label, k: nat)
    requires Feedback.Shape(s) && Feedback.HistLengths(s) && Feedback.Enabled(s, f) && !f.Publish? && k < SERVERS_NUM
    ensures var t := Feedback.Apply(s, f);
      t.rounds == s.rounds && (Feedback.Fit(s, k) ==> Feedback.Fit(t, k))
  {
  }

  lemma DrawsFit(s: Feedback.State, ticket: real)
    requires Feedback.Inv(s) && Feedback.Enabled(s, Feedback.Pick(ticket))
    ensures var k := Select(s.d, ticket); k < SERVERS_NUM && (s.rounds == 0 || Feedback.Fit(s, k))
  {
    Feedback.DrawWeights(s);
    SelectedHasWeight(s.d, ticket);
  }

  lemma FitRoute(cfg: Routing.Config, s: State, r: Routing.Label, n: nat)
    requires Shape(s) && Enabled(cfg, s, Route(r)) && FitSince(s, n) && n <= |s.route.sent|
    ensures FitSince(Apply(cfg, s, Route(r)), n) && n <= |Apply(cfg, s, Route(r)).route.sent|
    ensures Apply(cfg, s, Route(r)).feed == s.feed
  {
    RouteStep(cfg, s.route, r);
    var t := Apply(cfg, s, Route(r));
    if r == Routing.Forward(true) {
      forall i | n <= i < |t.route.sent|
        ensures t.route.sent[i].server < SERVERS_NUM && FitNow(t, t.route.sent[i].server)
      {
        assert i < |s.route.sent| ==> t.route.sent[..|s.route.sent|][i] == s.route.sent[i];
      }
    }
  }

  lemma FitFeed(cfg: Routing.Config, s: State, f: Feedback.Label, n: nat)
    requires Shape(s) && Feedback.HistLengths(s.feed) && Enabled(cfg, s, Feed(f)) && !f.Publish? && FitSince(s, n)
    ensures FitSince(Apply(cfg, s, Feed(f)), n)
    ensures Apply(cfg, s, Feed(f)).route == s.route && Apply(cfg, s, Feed(f)).feed.rounds == s.feed.rounds
  {
    forall k | 0 <= k < SERVERS_NUM ensures FitNow(s, k) ==> FitNow(Apply(cfg, s, Feed(f)), k) {
      FitStays(s.feed, f, k);
    }
  }

  lemma FitDraw(cfg: Routing.Config, s: State, ticket: real, n: nat)
    requires Shape(s) && Feedback.Inv(s.feed) && Enabled(cfg, s, Draw(ticket)) && FitSince(s, n)
    ensures FitSince(Apply(cfg, s, Draw(ticket)), n)
    ensures Apply(cfg, s, Draw(ticket)).route.sent == s.route.sent
    ensures Apply(cfg, s, Draw(ticket)).feed.rounds == s.feed.rounds
  {
    DrawsFit(s.feed, ticket);
    forall k | 0 <= k < SERVERS_NUM ensures FitNow(s, k) ==> FitNow(Apply(cfg, s, Draw(ticket)), k) {
      FitStays(s.feed, Feedback.Pick(ticket), k);
    }
  }

  lemma FitStep(cfg: Routing.Config, s: State, l: Label, n: nat)
    requires Shape(s) && Feedback.Inv(s.feed) && Enabled(cfg, s, l) && l != Feed(Feedback.Publish)
    requires FitSince(s, n) && n <= |s.route.sent|
    ensures FitSince(Apply(cfg, s, l), n) && n <= |Apply(cfg, s, l).route.sent|
    ensures Apply(cfg, s, l).feed.rounds == s.feed.rounds
  {
    match l
    case Route(r) => FitRoute(cfg, s, r, n);
    case Feed(f) => FitFeed(cfg, s, f, n);
    case Draw(ticket) => FitDraw(cfg, s, ticket, n);
  }

  /** Between two publications no request goes to a server that was overloaded in the round
      published last, if none was drawn but not yet written when the stretch began. */
  lemma {:induction false} BetweenPublications(cfg: Routing.Config, s: State, ls: seq<Label>, n: nat)
    requires Shape(s) && Inv(cfg, s) && CanRun(cfg, s, ls)
    requires forall i :: 0 <= i < |ls| ==> ls[i] != Feed(Feedback.Publish)
    requires FitSince(s, n) && n <= |s.route.sent|
    ensures FitSince(Run(cfg, s, ls), n) && Run(cfg, s, ls).feed.rounds == s.feed.rounds
    decreases |ls|
  {
    if ls != [] {
      FitStep(cfg, s, ls[0], n);
      InvStep(cfg, s, ls[0]);
      BetweenPublications(cfg, Apply(cfg, s, ls[0]), ls[1..], n);
    }
  }

  lemma NoneToOverloaded(cfg: Routing.Config, s: State, ls: seq<Label>, i: nat)
    requires Shape(s) && Inv(cfg, s) && CanRun(cfg, s, ls) && !s.route.hand.Routed?
    requires forall j :: 0 <= j < |ls| ==> ls[j] != Feed(Feedback.Publish)
    requires |s.route.sent| <= i < |Run(cfg, s, ls).route.sent|
    ensures var t := Run(cfg, s, ls); var k := t.route.sent[i].server;
      t.feed.rounds == s.feed.rounds && k < SERVERS_NUM && (t.feed.rounds == 0 || Feedback.Fit(t.feed, k))
  {
    BetweenPublications(cfg, s, ls, |s.route.sent|);
  }

  // ----- the failing run -----

  ghost predicate Reaches(cfg: Routing.Config, ls: seq<Label>, s: State) {
    CanRun(cfg, Init(cfg), ls) && Run(cfg, Init(cfg), ls) == s
  }

  lemma {:induction false} RunAppend(cfg: Routing.Config, s: State, ls: seq<Label>, l: Label)
    requires Shape(s) && CanRun(cfg, s, ls) && Enabled(cfg, Run(cfg, s, ls), l)
    ensures CanRun(cfg, s, ls + [l]) && Run(cfg, s, ls + [l]) == Apply(cfg, Run(cfg, s, ls), l)
    decreases |ls|
  {
    if ls == [] {
      assert [l][1..] == [];
    } else {
      RunAppend(cfg, Apply(cfg, s, ls[0]), ls[1..], l);
      assert (ls + [l])[1..] == ls[1..] + [l];
    }
  }

  lemma Extend(cfg: Routing.Config, ls: seq<Label>, s: State, l: Label) returns (ls': seq<Label>, t: State)
    requires Reaches(cfg, ls, s) && Enabled(cfg, s, l)
    ensures Reaches(cfg, ls', t) && t == Apply(cfg, s, l)
  {
    RunAppend(cfg, Init(cfg), ls, l);
    ls', t := ls + [l], Apply(cfg, s, l);
  }

  /** A run of the routing protocol alone, without draws and forwards. */
  lemma {:induction false} LiftRoute(cfg: Routing.Config, ls: seq<Label>, s: State, rs: seq<Routing.Label>)
    returns (ls': seq<Label>, t: State)
    requires Reaches(cfg, ls, s) && Routing.CanRun(cfg, s.route, rs)
    requires forall i :: 0 <= i < |rs| ==> !rs[i].Pick? && !rs[i].Forward?
    ensures Reaches(cfg, ls', t) && t == s.(route := Routing.Run(cfg, s.route, rs))
    decreases |rs|
  {
    ls', t := ls, s;
    if rs != [] {
      ls', t := Extend(cfg, ls, s, Route(rs[0]));
      assert t == s.(route := Routing.Apply(cfg, s.route, rs[0]));
      ls', t := LiftRoute(cfg, ls', t, rs[1..]);
    }
  }

  /** A run of the feedback loop alone, without draws. */
  lemma {:induction false} LiftFeed(cfg: Routing.Config, ls: seq<Label>, s: State, fs: seq<Feedback.Label>)
    returns (ls': seq<Label>, t: State)
    requires Reaches(cfg, ls, s) && Feedback.CanRun(s.feed, fs)
    requires forall i :: 0 <= i < |fs| ==> !fs[i].Pick?
    ensures Reaches(cfg, ls', t) && t == s.(feed := Feedback.Run(s.feed, fs))
    decreases |fs|
  {
    ls', t := ls, s;
    if fs != [] {
      ls', t := Extend(cfg, ls, s, Feed(fs[0]));
      ls', t := LiftFeed(cfg, ls', t, fs[1..]);
    }
  }

  lemma {:induction false} UniformPrefix(n: nat)
    requires n <= SERVERS_NUM
    ensures Prefix(Feedback.Init().d, n) == 25.0 * n as real
  {
    if n > 0 {
      UniformPrefix(n - 1);
    }
  }

  lemma UniformDraw(k: nat)
    requires k < SERVERS_NUM
    ensures 0.0 <= 25.0 * k as real < Total(Feedback.Init().d)
    ensures Select(Feedback.Init().d, 25.0 * k as real) == k
  {
    UniformPrefix(k);
    UniformPrefix(k + 1);
    UniformPrefix(SERVERS_NUM);
    SelectExact(Feedback.Init().d, 25.0 * k as real, k);
  }

  /** One client's request has been read and drawn for server k, and the feedback loop has
      not begun. */
  lemma DrawnFor(cfg: Routing.Config, fd: Wire.int32, data: Wire.Payload, k: nat) returns (ls: seq<Label>, s: State)
    requires RoutingStartup.FreeFd(cfg, fd) && k < SERVERS_NUM
    ensures Reaches(cfg, ls, s) && s.origins == []
    ensures s.feed == Feedback.Init().(picks := [Feedback.Picked(k, Feedback.Init().d, 0)])
    ensures s.route.hand == Routing.Routed(Wire.Message(fd, data), 0, k)
    ensures s.route.sent == [] && s.route.chan == Routing.Init(cfg).chan
  {
    var rs, r := RoutingStartup.OneHeld(cfg, fd, data);
    ls, s := LiftRoute(cfg, [], Init(cfg), rs);
    UniformDraw(k);
    ls, s := Extend(cfg, ls, s, Draw(25.0 * k as real));
  }

  /** It is written now. */
  lemma WriteNow(cfg: Routing.Config, ls: seq<Label>, s: State, k: nat) returns (ls': seq<Label>, t: State)
    requires Reaches(cfg, ls, s) && k < SERVERS_NUM && s.route.hand.Routed? && s.route.hand.server == k
    requires s.route.chan == Routing.Init(cfg).chan && s.route.sent == [] && s.origins == []
    ensures Reaches(cfg, ls', t) && t.feed == s.feed
    ensures |t.route.sent| == 1 && t.route.sent[0].server == k && t.origins == [Origin(s.current, s.feed.rounds)]
  {
    assert s.route.chan[k].req == [];
    ls', t := Extend(cfg, ls, s, Route(Routing.Forward(true)));
  }

  /** For every server and every request a run in which the request is drawn for that server,
      the next round finds it overloaded and is published, and the request is written to it
      all the same. */
  lemma StaleForward(cfg: Routing.Config, fd: Wire.int32, data: Wire.Payload, k: nat, samples: seq<Usage>)
    returns (ls: seq<Label>)
    requires RoutingStartup.FreeFd(cfg, fd) && k < SERVERS_NUM == |samples| && Overloaded(samples[k])
    ensures CanRun(cfg, Init(cfg), ls)
    ensures var s := Run(cfg, Init(cfg), ls);
      && |s.route.sent| == 1 == |s.origins| && s.route.sent[0].server == k && ToOverloaded(s, 0)
      && s.feed.rounds == 1 && s.feed.hist[k][0].reading.sample == samples[k]
  {
    var s;
    ls, s := DrawnFor(cfg, fd, data, k);
    var fs, f := Feedback.PollRound(s.feed, samples);
    ls, s := LiftFeed(cfg, ls, s, fs);
    ls, s := WriteNow(cfg, ls, s, k);
  }
}
