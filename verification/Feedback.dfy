/** The feedback loop: the distributor's polling thread, its worker thread drawing servers,
    each server's monitor thread and the ticking thread behind it, interleaved step by step.
    `p` is overwritten one server at a time; only the publication of `d` and the draw are
    under the distributor's lock. The three `cur_` fields behind `getStat` are stored and
    copied one by one, each time under the monitor's lock. */
module Feedback {
  import opened Common
  import opened Selection

  const UNIFORM := 25.0

  /** A triple handed out by `getStat`, and how many ticks had been finished by then. */
  datatype Reading = Reading(sample: Usage, tick: nat)

  /** A reading used by the polling thread, and how many ticks had been finished when the
      poll was sent. */
  datatype Entry = Entry(reading: Reading, since: nat)

  /** The monitor thread; `copy` is the tuple under construction, n of its fields filled. */
  datatype MonitorPc = Listening | Polled | Copying(copy: Usage, n: nat) | Got(reading: Reading)

  /** The ticking thread; n fields of the new sample have been stored. */
  datatype TickerPc = Sleeping | Storing(sample: Usage, n: nat)

  datatype Holder = Nobody | Ticker | Server

  /** `polls`: bytes on their way to the monitor; `replies`: triples on their way back;
      `ticks`: the history of finished ticks; `cur`: the three shared fields. */
  datatype Monitor = Monitor(
    polls: nat, pc: MonitorPc, replies: seq<Reading>,
    ticks: seq<Usage>, ticker: TickerPc, lock: Holder, cur: Usage)

  datatype MonitorLabel =
    | Hear | LockToCopy | CopyField | UnlockCopy | Respond
    | LockToStore(sample: Usage) | StoreField | UnlockStore

  datatype MainPc = Sending(i: nat) | Awaiting(i: nat, since: nat) | Publishing | Reporting | Finished

  datatype Picked = Picked(server: nat, weights: seq<real>, round: nat)

  datatype State = State(
    p: seq<real>, d: seq<real>, main: MainPc, rounds: nat,
    mon: seq<Monitor>, hist: seq<seq<Entry>>, picks: seq<Picked>)

  datatype Label =
    | Send | Recv | Publish | Quit
    | Pick(ticket: real)
    | Mon(k: nat, m: MonitorLabel)

  function Init(): State {
    var p := seq(SERVERS_NUM, k => UNIFORM);
    State(p, p, Sending(0), 0,
          seq(SERVERS_NUM, k => Monitor(0, Listening, [], [], Sleeping, Nobody, ZERO)), seq(SERVERS_NUM, k => []), [])
  }

  /** The values of the n-th tick, and the zeros before the first. */
  function Published(ticks: seq<Usage>, n: nat): Usage
    requires n <= |ticks|
  {
    if n == 0 then ZERO else ticks[n - 1]
  }

  predicate MonitorEnabled(m: Monitor, l: MonitorLabel) {
    match l
    case Hear => m.pc.Listening? && m.polls > 0
    case LockToCopy => m.pc.Polled? && m.lock.Nobody?
    case CopyField => m.pc.Copying? && m.pc.n < 3
    case UnlockCopy => m.pc.Copying? && m.pc.n == 3
    case Respond => m.pc.Got?
    case LockToStore(_) => m.ticker.Sleeping? && m.lock.Nobody?
    case StoreField => m.ticker.Storing? && m.ticker.n < 3
    case UnlockStore => m.ticker.Storing? && m.ticker.n == 3
  }

  /** `getStat` fills its tuple in the order CPU, memory, I/O. */
  function CopyOne(copy: Usage, n: nat, cur: Usage): Usage {
    if n == 0 then copy.(cpu := cur.cpu) else if n == 1 then copy.(mem := cur.mem) else copy.(io := cur.io)
  }

  /** `tick` stores in the order memory, I/O, CPU. */
  function StoreOne(cur: Usage, n: nat, sample: Usage): Usage {
    if n == 0 then cur.(mem := sample.mem) else if n == 1 then cur.(io := sample.io) else cur.(cpu := sample.cpu)
  }

  function MonitorApply(m: Monitor, l: MonitorLabel): Monitor
    requires MonitorEnabled(m, l)
  {
    match l
    case Hear => m.(polls := m.polls - 1, pc := Polled)
    case LockToCopy => m.(lock := Server, pc := Copying(ZERO, 0))
    case CopyField => m.(pc := Copying(CopyOne(m.pc.copy, m.pc.n, m.cur), m.pc.n + 1))
    case UnlockCopy => m.(lock := Nobody, pc := Got(Reading(m.pc.copy, |m.ticks|)))
    case Respond => m.(pc := Listening, replies := m.replies + [m.pc.reading])
    case LockToStore(sample) => m.(lock := Ticker, ticker := Storing(sample, 0))
    case StoreField =>
      m.(cur := StoreOne(m.cur, m.ticker.n, m.ticker.sample), ticker := Storing(m.ticker.sample, m.ticker.n + 1))
    case UnlockStore => m.(lock := Nobody, ticker := Sleeping, ticks := m.ticks + [m.ticker.sample])
  }

  predicate Shape(s: State) {
    |s.p| == |s.d| == |s.mon| == |s.hist| == SERVERS_NUM
    && (s.main.Sending? || s.main.Awaiting? ==> s.main.i < SERVERS_NUM)
  }

  predicate Enabled(s: State, l: Label)
    requires Shape(s)
  {
    match l
    case Send => s.main.Sending?
    case Recv => s.main.Awaiting? && s.mon[s.main.i].replies != []
    case Publish => s.main.Publishing?
    case Quit => s.main.Reporting?
    case Pick(ticket) => !s.main.Finished? && 0.0 <= ticket < Total(s.d)
    case Mon(k, m) => k < SERVERS_NUM && MonitorEnabled(s.mon[k], m)
  }

  function Apply(s: State, l: Label): (t: State)
    requires Shape(s) && Enabled(s, l)
    ensures Shape(t)
  {
    match l
    case Send =>
      var i := s.main.i;
      s.(main := Awaiting(i, |s.mon[i].ticks|), mon := s.mon[i := s.mon[i].(polls := s.mon[i].polls + 1)])
    case Recv =>
      var i, m := s.main.i, s.mon[s.main.i];
      s.(p := s.p[i := Weight(m.replies[0].sample)],
         hist := s.hist[i := s.hist[i] + [Entry(m.replies[0], s.main.since)]],
         mon := s.mon[i := m.(replies := m.replies[1..])],
         main := if i + 1 < SERVERS_NUM then Sending(i + 1) else Publishing)
    case Publish =>
      s.(d := s.p, rounds := s.rounds + 1,
         main := if |s.hist[0]| >= ROUNDS then Reporting else Sending(0))
    case Quit => s.(main := Finished)
    case Pick(ticket) => s.(picks := s.picks + [Picked(Select(s.d, ticket), s.d, s.rounds)])
    case Mon(k, m) => s.(mon := s.mon[k := MonitorApply(s.mon[k], m)])
  }

  ghost predicate CanRun(s: State, ls: seq<Label>)
    requires Shape(s)
    decreases |ls|
  {
    ls == [] || (Enabled(s, ls[0]) && CanRun(Apply(s, ls[0]), ls[1..]))
  }

  ghost function Run(s: State, ls: seq<Label>): (t: State)
    requires Shape(s) && CanRun(s, ls)
    ensures Shape(t)
    decreases |ls|
  {
    if ls == [] then s else Run(Apply(s, ls[0]), ls[1..])
  }

  // ----- invariants -----

  /** Polls, work and replies under way on a monitor's connection. */
  ghost function Outstanding(m: Monitor): nat {
    m.polls + (if m.pc.Listening? then 0 else 1) + |m.replies|
  }

  /** At most one exchange is open, and it is the one the polling thread waits for. */
  ghost predicate Lockstep(s: State)
    requires Shape(s)
  {
    forall k :: 0 <= k < SERVERS_NUM ==>
      Outstanding(s.mon[k]) == if s.main.Awaiting? && s.main.i == k then 1 else 0
  }

  /** The shared fields between `was` and the new sample, n stores on. */
  ghost predicate Stored(cur: Usage, was: Usage, sample: Usage, n: nat) {
    && n <= 3
    && cur.mem == (if n >= 1 then sample.mem else was.mem)
    && cur.io == (if n >= 2 then sample.io else was.io)
    && cur.cpu == (if n >= 3 then sample.cpu else was.cpu)
  }

  /** n fields of the tuple are those of `whole`. */
  ghost predicate Copied(copy: Usage, whole: Usage, n: nat) {
    && n <= 3
    && (n >= 1 ==> copy.cpu == whole.cpu)
    && (n >= 2 ==> copy.mem == whole.mem)
    && (n >= 3 ==> copy.io == whole.io)
  }

  /** The lock is held exactly by the thread inside its critical section. The fields are
      those of the last finished tick unless the ticking thread is storing, and whatever
      has been copied is of that tick. */
  ghost predicate LockOk(m: Monitor) {
    var whole := Published(m.ticks, |m.ticks|);
    && (m.lock.Ticker? <==> m.ticker.Storing?)
    && (m.lock.Server? <==> m.pc.Copying?)
    && (if m.ticker.Storing? then Stored(m.cur, whole, m.ticker.sample, m.ticker.n) else m.cur == whole)
    && (m.pc.Copying? ==> Copied(m.pc.copy, whole, m.pc.n))
  }

  ghost predicate LocksOk(s: State)
    requires Shape(s)
  {
    forall k :: 0 <= k < SERVERS_NUM ==> LockOk(s.mon[k])
  }

  /** The triple is what one single tick of that server published, or the initial zeros. */
  ghost predicate Genuine(m: Monitor, r: Reading) {
    r.tick <= |m.ticks| && r.sample == Published(m.ticks, r.tick)
  }

  /** The triple is genuine and not older than the last tick before the poll was sent. */
  ghost predicate FreshReading(m: Monitor, since: nat, r: Reading) {
    Genuine(m, r) && since <= r.tick
  }

  ghost predicate Fresh(m: Monitor, since: nat) {
    && since <= |m.ticks|
    && (m.pc.Got? ==> FreshReading(m, since, m.pc.reading))
    && forall j :: 0 <= j < |m.replies| ==> FreshReading(m, since, m.replies[j])
  }

  ghost predicate InTransit(s: State)
    requires Shape(s)
  {
    s.main.Awaiting? ==> Fresh(s.mon[s.main.i], s.main.since)
  }

  /** Servers already polled in the current round. */
  ghost function Done(s: State): nat {
    match s.main
    case Sending(i) => i
    case Awaiting(i, _) => i
    case Publishing => SERVERS_NUM
    case Reporting => 0
    case Finished => 0
  }

  ghost predicate HistLengths(s: State)
    requires Shape(s)
  {
    forall k :: 0 <= k < SERVERS_NUM ==> |s.hist[k]| == s.rounds + if k < Done(s) then 1 else 0
  }

  /** Every triple used for server k is one tick of server k, not older than the last tick
      before that poll was sent. */
  ghost predicate HistGenuine(s: State)
    requires Shape(s)
  {
    forall k, j :: 0 <= k < SERVERS_NUM && 0 <= j < |s.hist[k]| ==>
      Genuine(s.mon[k], s.hist[k][j].reading) && s.hist[k][j].since <= s.hist[k][j].reading.tick
  }

  /** No poll of server k returns anything older than an earlier poll did. */
  ghost predicate HistOrdered(s: State)
    requires Shape(s)
  {
    && (forall k, i, j :: 0 <= k < SERVERS_NUM && 0 <= i < j < |s.hist[k]| ==>
          s.hist[k][i].reading.tick <= s.hist[k][j].since)
    && (s.main.Awaiting? ==> forall j :: 0 <= j < |s.hist[s.main.i]| ==>
          s.hist[s.main.i][j].reading.tick <= s.main.since)
  }

  ghost predicate HistOk(s: State)
    requires Shape(s)
  {
    HistLengths(s) && HistGenuine(s) && HistOrdered(s)
  }

  /** The weights that the first n rounds leave behind: uniform before the first round,
      else those of all four samples of round n - 1. */
  ghost function WeightsAfter(hist: seq<seq<Entry>>, n: nat): seq<real>
    requires |hist| == SERVERS_NUM && forall k :: 0 <= k < SERVERS_NUM ==> n <= |hist[k]|
  {
    if n == 0 then seq(SERVERS_NUM, k => UNIFORM)
    else seq(SERVERS_NUM, k requires 0 <= k < SERVERS_NUM => Weight(hist[k][n - 1].reading.sample))
  }

  /** `d` was built from one finished round. */
  ghost predicate DrawWeightsOk(s: State)
    requires Shape(s) && HistLengths(s)
  {
    s.d == WeightsAfter(s.hist, s.rounds)
  }

  /** `p` holds each server's latest sample, whatever round that belongs to. */
  ghost predicate LatestOk(s: State)
    requires Shape(s)
  {
    forall k :: 0 <= k < SERVERS_NUM ==>
      s.p[k] == if s.hist[k] == [] then UNIFORM else Weight(s.hist[k][|s.hist[k]| - 1].reading.sample)
  }

  ghost predicate PickOk(s: State, pick: Picked)
    requires Shape(s) && HistOk(s)
  {
    && pick.round <= s.rounds && pick.server < SERVERS_NUM
    && pick.weights == WeightsAfter(s.hist, pick.round)
    && pick.weights[pick.server] > 0.0
  }

  ghost predicate PicksOk(s: State)
    requires Shape(s) && HistOk(s)
  {
    forall i :: 0 <= i < |s.picks| ==> PickOk(s, s.picks[i])
  }

  ghost predicate RoundsOk(s: State) {
    s.rounds <= ROUNDS && (s.main.Reporting? || s.main.Finished? <==> s.rounds == ROUNDS)
  }

  ghost predicate Inv(s: State) {
    && Shape(s) && Lockstep(s) && LocksOk(s) && InTransit(s)
    && HistOk(s) && DrawWeightsOk(s) && LatestOk(s) && PicksOk(s) && RoundsOk(s)
  }

  lemma LockstepStep(s: State, l: Label)
    requires Shape(s) && Lockstep(s) && Enabled(s, l)
    ensures Lockstep(Apply(s, l))
  {
  }

  /** Stores and copies exclude each other, so no tuple mixes two ticks. */
  lemma LockStep(m: Monitor, l: MonitorLabel)
    requires LockOk(m) && MonitorEnabled(m, l)
    ensures LockOk(MonitorApply(m, l))
    ensures l.UnlockCopy? ==> Genuine(m, MonitorApply(m, l).pc.reading)
  {
  }

  lemma LocksStep(s: State, l: Label)
    requires Shape(s) && LocksOk(s) && Enabled(s, l)
    ensures LocksOk(Apply(s, l))
  {
    if l.Mon? {
      LockStep(s.mon[l.k], l.m);
    }
  }

  lemma FreshStep(m: Monitor, l: MonitorLabel, since: nat)
    requires LockOk(m) && MonitorEnabled(m, l) && Fresh(m, since)
    ensures Fresh(MonitorApply(m, l), since)
  {
    LockStep(m, l);
  }

  lemma InTransitStep(s: State, l: Label)
    requires Shape(s) && Lockstep(s) && LocksOk(s) && InTransit(s) && Enabled(s, l)
    ensures InTransit(Apply(s, l))
  {
    if l.Mon? && s.main.Awaiting? && s.main.i == l.k {
      FreshStep(s.mon[l.k], l.m, s.main.since);
    }
  }

  lemma HistLengthsStep(s: State, l: Label)
    requires Shape(s) && HistLengths(s) && Enabled(s, l)
    ensures HistLengths(Apply(s, l))
  {
  }

  lemma HistGenuineStep(s: State, l: Label)
    requires Shape(s) && InTransit(s) && HistGenuine(s) && Enabled(s, l)
    ensures HistGenuine(Apply(s, l))
  {
  }

  lemma HistOrderedStep(s: State, l: Label)
    requires Shape(s) && HistGenuine(s) && HistOrdered(s) && Enabled(s, l)
    ensures HistOrdered(Apply(s, l))
  {
  }

  /** Histories only grow at the end, so what a finished round left behind stays. */
  lemma WeightsAfterStable(s: State, l: Label, n: nat)
    requires Shape(s) && HistLengths(s) && Enabled(s, l) && n <= s.rounds
    ensures HistLengths(Apply(s, l)) && n <= Apply(s, l).rounds
    ensures WeightsAfter(Apply(s, l).hist, n) == WeightsAfter(s.hist, n)
  {
    HistLengthsStep(s, l);
    var t := Apply(s, l);
    forall k | 0 <= k < SERVERS_NUM && n > 0 ensures t.hist[k][n - 1] == s.hist[k][n - 1] {
    }
  }

  lemma LatestStep(s: State, l: Label)
    requires Shape(s) && LatestOk(s) && Enabled(s, l)
    ensures LatestOk(Apply(s, l))
  {
  }

  lemma DrawWeightsStep(s: State, l: Label)
    requires Shape(s) && HistLengths(s) && DrawWeightsOk(s) && LatestOk(s) && Enabled(s, l)
    ensures HistLengths(Apply(s, l)) && DrawWeightsOk(Apply(s, l))
  {
    WeightsAfterStable(s, l, s.rounds);
    if l.Publish? {
      var t := Apply(s, l);
      assert |t.d| == |WeightsAfter(t.hist, t.rounds)|;
    }
  }

  lemma WeightsAreWeights(s: State, n: nat)
    requires Shape(s) && HistOk(s) && n <= s.rounds
    ensures Weights(WeightsAfter(s.hist, n))
  {
    forall k | 0 <= k < SERVERS_NUM && n > 0 ensures Weight(s.hist[k][n - 1].reading.sample) >= 0.0 {
      WeightBounds(s.hist[k][n - 1].reading.sample);
    }
  }

  lemma PicksStep(s: State, l: Label)
    requires Inv(s) && Enabled(s, l) && HistOk(Apply(s, l))
    ensures PicksOk(Apply(s, l))
  {
    var t := Apply(s, l);
    forall i | 0 <= i < |t.picks| ensures PickOk(t, t.picks[i]) {
      if i < |s.picks| {
        assert PickOk(s, s.picks[i]);
        WeightsAfterStable(s, l, s.picks[i].round);
      } else {
        WeightsAreWeights(s, s.rounds);
        SelectedHasWeight(s.d, l.ticket);
      }
    }
  }

  lemma RoundsStep(s: State, l: Label)
    requires Shape(s) && HistLengths(s) && RoundsOk(s) && Enabled(s, l)
    ensures RoundsOk(Apply(s, l))
  {
  }

  lemma InvStep(s: State, l: Label)
    requires Inv(s) && Enabled(s, l)
    ensures Inv(Apply(s, l))
  {
    LockstepStep(s, l);
    LocksStep(s, l);
    InTransitStep(s, l);
    HistLengthsStep(s, l);
    HistGenuineStep(s, l);
    HistOrderedStep(s, l);
    LatestStep(s, l);
    DrawWeightsStep(s, l);
    PicksStep(s, l);
    RoundsStep(s, l);
  }

  lemma {:induction false} InvRun(s: State, ls: seq<Label>)
    requires Inv(s) && CanRun(s, ls)
    ensures Inv(Run(s, ls))
    decreases |ls|
  {
    if ls != [] {
      InvStep(s, ls[0]);
      InvRun(Apply(s, ls[0]), ls[1..]);
    }
  }

  lemma InvFromStart(ls: seq<Label>)
    requires CanRun(Init(), ls)
    ensures Inv(Run(Init(), ls))
  {
    InvRun(Init(), ls);
  }

  // ----- what it means over every interleaving -----

  /** Although `p` is overwritten server by server and without the lock, every draw uses
      either the uniform weights or the weights of all four samples of one finished round;
      it draws a server that in that round was below 95 in every respect. */
  lemma WholeRounds(ls: seq<Label>, i: nat)
    requires CanRun(Init(), ls) && i < |Run(Init(), ls).picks|
    ensures var s := Run(Init(), ls); var pick := s.picks[i];
      && (forall k :: 0 <= k < SERVERS_NUM ==> pick.round <= s.rounds <= |s.hist[k]|)
      && pick.weights == WeightsAfter(s.hist, pick.round)
      && pick.server < SERVERS_NUM
      && (pick.round > 0 ==> !Overloaded(s.hist[pick.server][pick.round - 1].reading.sample))
      && (pick.round == 0 ==> pick.weights == [25.0, 25.0, 25.0, 25.0])
  {
    InvFromStart(ls);
    var s := Run(Init(), ls);
    assert PickOk(s, s.picks[i]);
    if s.picks[i].round > 0 {
      WeightBounds(s.hist[s.picks[i].server][s.picks[i].round - 1].reading.sample);
    }
  }

  /** Server k took part in the last finished round and was below 95 in every respect. */
  ghost predicate Fit(s: State, k: nat)
    requires Shape(s) && k < SERVERS_NUM
  {
    0 < s.rounds <= |s.hist[k]| && !Overloaded(s.hist[k][s.rounds - 1].reading.sample)
  }

  lemma DrawWeights(s: State)
    requires Inv(s)
    ensures Weights(s.d)
    ensures forall k :: 0 <= k < SERVERS_NUM ==> (s.d[k] > 0.0 <==> (s.rounds == 0 || Fit(s, k)))
  {
    WeightsAreWeights(s, s.rounds);
    forall k | 0 <= k < SERVERS_NUM && s.rounds > 0 ensures s.d[k] > 0.0 <==> Fit(s, k) {
      WeightBounds(s.hist[k][s.rounds - 1].reading.sample);
    }
  }

  /** A draw is always of the last finished round: between two publications no request
      goes to a server that was overloaded in the round published last. */
  lemma PickIsCurrent(ls: seq<Label>, ticket: real)
    requires CanRun(Init(), ls) && Enabled(Run(Init(), ls), Pick(ticket))
    ensures var s := Run(Init(), ls); var k := Select(s.d, ticket);
      k < SERVERS_NUM && (s.rounds == 0 || Fit(s, k))
  {
    InvFromStart(ls);
    var s := Run(Init(), ls);
    DrawWeights(s);
    SelectedHasWeight(s.d, ticket);
  }

  lemma SomethingToDraw(s: State)
    requires Shape(s) && Weights(s.d) && !s.main.Finished?
    ensures (exists ticket :: Enabled(s, Pick(ticket))) <==> exists k :: 0 <= k < SERVERS_NUM && s.d[k] > 0.0
  {
    TotalPositive(s.d, SERVERS_NUM);
    assert Enabled(s, Pick(0.0)) <==> Total(s.d) > 0.0;
  }

  /** A draw is defined exactly when some server was not overloaded in the last finished
      round; with all four overloaded the weights sum to zero and there is nothing to draw. */
  lemma DrawDefined(ls: seq<Label>)
    requires CanRun(Init(), ls) && !Run(Init(), ls).main.Finished?
    ensures var s := Run(Init(), ls);
      (exists ticket :: Enabled(s, Pick(ticket))) <==> (s.rounds == 0 || exists k :: 0 <= k < SERVERS_NUM && Fit(s, k))
  {
    InvFromStart(ls);
    var s := Run(Init(), ls);
    DrawWeights(s);
    SomethingToDraw(s);
    assert s.rounds == 0 ==> s.d[0] > 0.0;
  }

  /** The exchange with a monitor is in lockstep. The i-th triple of a round is server i's own
      and stems from one single tick of that server (or is the initial zeros), although its
      fields are stored and copied one by one. It is never older than the last tick before
      the poll was sent, and never older than an earlier round's. */
  lemma MonitorSnapshots(ls: seq<Label>, k: nat)
    requires CanRun(Init(), ls) && k < SERVERS_NUM
    ensures var s := Run(Init(), ls); var ticks := s.mon[k].ticks;
      && Outstanding(s.mon[k]) <= 1
      && (forall j :: 0 <= j < |s.hist[k]| ==> var e := s.hist[k][j];
            && e.since <= e.reading.tick <= |ticks|
            && e.reading.sample == if e.reading.tick == 0 then Usage(0.0, 0.0, 0.0) else ticks[e.reading.tick - 1])
      && (forall i, j :: 0 <= i < j < |s.hist[k]| ==> s.hist[k][i].reading.tick <= s.hist[k][j].since)
  {
    InvFromStart(ls);
    var s := Run(Init(), ls);
    forall j | 0 <= j < |s.hist[k]| ensures Genuine(s.mon[k], s.hist[k][j].reading) {
    }
  }

  /** The polling thread ends exactly after the hundredth publication, with a hundred
      samples of every server. */
  lemma HundredRounds(ls: seq<Label>)
    requires CanRun(Init(), ls)
    ensures var s := Run(Init(), ls);
      && s.rounds <= 100 && (s.main.Reporting? || s.main.Finished? <==> s.rounds == 100)
      && |s.hist| == 4 && (s.main.Finished? ==> forall k :: 0 <= k < 4 ==> |s.hist[k]| == 100)
  {
    InvFromStart(ls);
  }

  // ----- a round in which every server is overloaded -----

  lemma {:induction false} RunAppend(s: State, ls: seq<Label>, l: Label)
    requires Shape(s) && CanRun(s, ls) && Enabled(Run(s, ls), l)
    ensures CanRun(s, ls + [l]) && Run(s, ls + [l]) == Apply(Run(s, ls), l)
    decreases |ls|
  {
    if ls == [] {
      assert [l][1..] == [];
    } else {
      RunAppend(Apply(s, ls[0]), ls[1..], l);
      assert (ls + [l])[1..] == ls[1..] + [l];
    }
  }

  /** The run ls leads from a to s and draws nothing. */
  ghost predicate Leads(a: State, ls: seq<Label>, s: State) {
    Shape(a) && CanRun(a, ls) && Run(a, ls) == s && forall i :: 0 <= i < |ls| ==> !ls[i].Pick?
  }

  lemma Extend(a: State, ls: seq<Label>, s: State, l: Label) returns (ls': seq<Label>, t: State)
    requires Leads(a, ls, s) && Enabled(s, l) && !l.Pick?
    ensures Leads(a, ls', t) && t == Apply(s, l)
  {
    RunAppend(a, ls, l);
    ls', t := ls + [l], Apply(s, l);
  }

  ghost function With(s: State, k: nat, m: Monitor): State
    requires Shape(s) && k < SERVERS_NUM
  {
    s.(mon := s.mon[k := m])
  }

  lemma MonitorExtend(a: State, ls: seq<Label>, s: State, k: nat, m: Monitor, l: MonitorLabel)
    returns (ls': seq<Label>, n: Monitor)
    requires Shape(s) && k < SERVERS_NUM && Leads(a, ls, With(s, k, m)) && MonitorEnabled(m, l)
    ensures n == MonitorApply(m, l) && Leads(a, ls', With(s, k, n))
  {
    var t;
    ls', t := Extend(a, ls, With(s, k, m), Mon(k, l));
    n := MonitorApply(m, l);
    assert s.mon[k := m][k := n] == s.mon[k := n];
  }

  ghost predicate AtRest(m: Monitor) {
    m.polls == 0 && m.pc.Listening? && m.replies == [] && m.ticker.Sleeping? && m.lock.Nobody?
  }

  lemma TickOne(a: State, ls: seq<Label>, s: State, k: nat, sample: Usage) returns (ls': seq<Label>, n: Monitor)
    requires Leads(a, ls, s) && Shape(s) && k < SERVERS_NUM && AtRest(s.mon[k])
    ensures Leads(a, ls', With(s, k, n)) && n == s.mon[k].(ticks := s.mon[k].ticks + [sample], cur := sample)
  {
    assert s.mon[k := s.mon[k]] == s.mon;
    ls', n := MonitorExtend(a, ls, s, k, s.mon[k], LockToStore(sample));
    ls', n := MonitorExtend(a, ls', s, k, n, StoreField);
    ls', n := MonitorExtend(a, ls', s, k, n, StoreField);
    ls', n := MonitorExtend(a, ls', s, k, n, StoreField);
    ls', n := MonitorExtend(a, ls', s, k, n, UnlockStore);
  }

  lemma AnswerOne(a: State, ls: seq<Label>, s: State, k: nat) returns (ls': seq<Label>, n: Monitor)
    requires Leads(a, ls, s) && Shape(s) && k < SERVERS_NUM
    requires s.mon[k].polls == 1 && AtRest(s.mon[k].(polls := 0))
    ensures Leads(a, ls', With(s, k, n))
    ensures n == s.mon[k].(polls := 0, replies := [Reading(s.mon[k].cur, |s.mon[k].ticks|)])
  {
    assert s.mon[k := s.mon[k]] == s.mon;
    ls', n := MonitorExtend(a, ls, s, k, s.mon[k], Hear);
    ls', n := MonitorExtend(a, ls', s, k, n, LockToCopy);
    ls', n := MonitorExtend(a, ls', s, k, n, CopyField);
    ls', n := MonitorExtend(a, ls', s, k, n, CopyField);
    ls', n := MonitorExtend(a, ls', s, k, n, CopyField);
    assert n.pc.copy == s.mon[k].cur;
    ls', n := MonitorExtend(a, ls', s, k, n, UnlockCopy);
    ls', n := MonitorExtend(a, ls', s, k, n, Respond);
  }

  /** Between two polls: server i is next, all monitors are at rest, and the servers
      polled in this round reported these usages. */
  ghost predicate Halfway(a: State, s: State, i: nat, samples: seq<Usage>) {
    && Shape(a) && Shape(s) && i <= SERVERS_NUM == |samples|
    && s.main == (if i < SERVERS_NUM then Sending(i) else Publishing)
    && s.d == a.d && s.picks == a.picks && s.rounds == a.rounds
    && (forall k :: 0 <= k < SERVERS_NUM ==> AtRest(s.mon[k]))
    && (forall k :: 0 <= k < i ==>
          && s.p[k] == Weight(samples[k]) && |s.hist[k]| == |a.hist[k]| + 1
          && s.hist[k][|a.hist[k]|].reading.sample == samples[k])
    && (forall k :: i <= k < SERVERS_NUM ==> |s.hist[k]| == |a.hist[k]|)
  }

  lemma PollOne(a: State, ls: seq<Label>, s: State, i: nat, samples: seq<Usage>) returns (ls': seq<Label>, t: State)
    requires Leads(a, ls, s) && i < SERVERS_NUM && Halfway(a, s, i, samples)
    ensures Leads(a, ls', t) && Halfway(a, t, i + 1, samples)
  {
    var n;
    ls', n := TickOne(a, ls, s, i, samples[i]);
    ls', t := Extend(a, ls', With(s, i, n), Send);
    ls', n := AnswerOne(a, ls', t, i);
    ls', t := Extend(a, ls', With(t, i, n), Recv);
  }

  /** A whole round in which the four servers report these usages, without a draw. */
  lemma PollRound(a: State, samples: seq<Usage>) returns (ls: seq<Label>, t: State)
    requires |samples| == SERVERS_NUM && Halfway(a, a, 0, samples) && a.rounds + 1 < ROUNDS && HistLengths(a)
    ensures Leads(a, ls, t) && t.main.Sending? && t.rounds == a.rounds + 1 && t.picks == a.picks
    ensures HistLengths(t) && |t.d| == SERVERS_NUM && forall k :: 0 <= k < SERVERS_NUM ==> t.d[k] == Weight(samples[k])
    ensures forall k :: 0 <= k < SERVERS_NUM ==> t.hist[k][a.rounds].reading.sample == samples[k]
  {
    ls, t := PollOne(a, [], a, 0, samples);
    ls, t := PollOne(a, ls, t, 1, samples);
    ls, t := PollOne(a, ls, t, 2, samples);
    ls, t := PollOne(a, ls, t, 3, samples);
    ls, t := Extend(a, ls, t, Publish);
  }

  /** One round with all four servers overloaded, and there is nothing to draw from: the
      polling thread goes on, but no ticket lies below the sum of the weights. */
  lemma NothingToDraw(samples: seq<Usage>) returns (ls: seq<Label>)
    requires |samples| == SERVERS_NUM && forall k :: 0 <= k < SERVERS_NUM ==> Overloaded(samples[k])
    ensures CanRun(Init(), ls) && Run(Init(), ls).main.Sending? && Run(Init(), ls).rounds == 1
    ensures forall ticket :: !Enabled(Run(Init(), ls), Pick(ticket))
  {
    var t;
    ls, t := PollRound(Init(), samples);
    assert Total(t.d) == 0.0 by {
      assert forall k :: 0 <= k < SERVERS_NUM ==> t.d[k] == 0.0;
      TotalPositive(t.d, SERVERS_NUM);
    }
  }
}
