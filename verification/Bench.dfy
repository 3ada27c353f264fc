/** The benchmark's counting: one child's loop over its attempts, and the parent's sums over
    the children's reports. */
module Bench {

  /** What came of one attempt; `Served` and `CloseFailed` carry the measured time. The timer's
      signal makes the system call it interrupts fail, so an attempt cut short is a failure. */
  datatype Attempt =
    | NoConnection | WriteShort | ShutdownFailed | ReadShort
    | WrongReply | CloseFailed(time: nat) | CutShort | Served(time: nat)

  datatype Report = Report(speed: int, failed: int, diff: int)

  ghost function CountServed(attempts: seq<Attempt>): nat {
    if attempts == [] then 0
    else CountServed(attempts[..|attempts| - 1]) + if attempts[|attempts| - 1].Served? then 1 else 0
  }

  ghost function TimeServed(attempts: seq<Attempt>): nat {
    if attempts == [] then 0
    else
      var a := attempts[|attempts| - 1];
      TimeServed(attempts[..|attempts| - 1]) + if a.Served? then a.time else 0
  }

  ghost function CountLost(attempts: seq<Attempt>): nat {
    if attempts == [] then 0
    else CountLost(attempts[..|attempts| - 1]) + if attempts[|attempts| - 1].Served? then 0 else 1
  }

  /** The report of these attempts. */
  ghost function ReportOf(attempts: seq<Attempt>): Report {
    var lost := CountLost(attempts);
    Report(CountServed(attempts), if lost > 0 then lost - 1 else 0, TimeServed(attempts))
  }

  /** Every attempt is served or lost. */
  lemma {:induction false} ServedOrLost(attempts: seq<Attempt>)
    ensures CountServed(attempts) + CountLost(attempts) == |attempts|
  {
    if attempts != [] {
      ServedOrLost(attempts[..|attempts| - 1]);
    }
  }

  /** Counts and times of attempts made one after the other add up. */
  lemma {:induction false} AttemptsAdd(a: seq<Attempt>, b: seq<Attempt>)
    ensures CountServed(a + b) == CountServed(a) + CountServed(b)
    ensures CountLost(a + b) == CountLost(a) + CountLost(b)
    ensures TimeServed(a + b) == TimeServed(a) + TimeServed(b)
    decreases |b|
  {
    if b == [] {
      assert a + b == a;
    } else {
      var init := b[..|b| - 1];
      AttemptsAdd(a, init);
      assert (a + b)[..|a + b| - 1] == a + init;
    }
  }

  /** A single attempt: a success counts as one and with its time, anything else as a failure
      without any, even if its time was taken. */
  lemma OneAttempt(a: Attempt, time: nat)
    ensures a == Served(time) ==> CountServed([a]) == 1 && CountLost([a]) == 0 && TimeServed([a]) == time
    ensures !a.Served? ==> CountServed([a]) == 0 && CountLost([a]) == 1 && TimeServed([a]) == 0
  {
    assert [a][..0] == [];
  }

  /** `benchcore`: the attempts made before the timer expires. One failure is taken back at
      the end, if there are any. Every other attempt is counted once, and the times of the
      successes only are summed. */
  method BenchCore(attempts: seq<Attempt>) returns (r: Report)
    ensures r == ReportOf(attempts)
    ensures r.speed + r.failed == |attempts| - if CountLost(attempts) > 0 then 1 else 0
  {
    var speed, failed, diff := 0, 0, 0;
    for i := 0 to |attempts|
      invariant speed == CountServed(attempts[..i]) && failed == CountLost(attempts[..i])
      invariant diff == TimeServed(attempts[..i])
    {
      assert attempts[..i + 1][..i] == attempts[..i];
      match attempts[i]
      case Served(time) =>
        speed := speed + 1;
        diff := diff + time;
      case _ =>
        failed := failed + 1;
    }
    assert attempts[..|attempts|] == attempts;
    ServedOrLost(attempts);
    if failed > 0 {
      failed := failed - 1;
    }
    r := Report(speed, failed, diff);
  }

  /** An attempt that failed for a reason other than the timer. */
  ghost predicate Genuine(a: Attempt) {
    !a.Served? && !a.CutShort?
  }

  ghost function GenuineFailures(attempts: seq<Attempt>): nat {
    if attempts == [] then 0
    else GenuineFailures(attempts[..|attempts| - 1]) + if Genuine(attempts[|attempts| - 1]) then 1 else 0
  }

  /** The timer expires once, and no attempt is begun after that. */
  ghost predicate TimedOnce(attempts: seq<Attempt>) {
    forall i :: 0 <= i < |attempts| - 1 ==> !attempts[i].CutShort?
  }

  lemma {:induction false} LostIsGenuine(attempts: seq<Attempt>)
    requires forall i :: 0 <= i < |attempts| ==> !attempts[i].CutShort?
    ensures GenuineFailures(attempts) == CountLost(attempts)
  {
    if attempts != [] {
      LostIsGenuine(attempts[..|attempts| - 1]);
    }
  }

  /** The failure taken back is the right thing exactly when the timer did cut the last
      attempt short, or when there was nothing to take back. */
  lemma TakenBackExact(attempts: seq<Attempt>)
    requires TimedOnce(attempts)
    ensures ReportOf(attempts).failed == GenuineFailures(attempts)
       <==> (attempts != [] && attempts[|attempts| - 1].CutShort?) || CountLost(attempts) == 0
  {
    if attempts != [] {
      LostIsGenuine(attempts[..|attempts| - 1]);
    }
  }

  /** A connection is refused, the next attempt succeeds, the timer expires: the report knows
      of no failure. */
  lemma FailureForgotten(time: nat)
    ensures var attempts := [NoConnection, Served(time)];
      ReportOf(attempts) == Report(1, 0, time) && GenuineFailures(attempts) == 1
  {
    var attempts := [NoConnection, Served(time)];
    assert attempts[..1] == [NoConnection] && [NoConnection][..0] == [];
    assert CountLost([NoConnection]) == 1 && CountServed([NoConnection]) == 0 && TimeServed([NoConnection]) == 0;
    assert GenuineFailures([NoConnection]) == 1;
  }

  function Plus(a: Report, b: Report): Report {
    Report(a.speed + b.speed, a.failed + b.failed, a.diff + b.diff)
  }

  ghost function Sum(reports: seq<Report>): Report {
    if reports == [] then Report(0, 0, 0) else Plus(Sum(reports[..|reports| - 1]), reports[|reports| - 1])
  }

  ghost function Total(xs: seq<int>): int {
    if xs == [] then 0 else xs[0] + Total(xs[1..])
  }

  ghost function Speeds(rs: seq<Report>): seq<int> {
    seq(|rs|, i requires 0 <= i < |rs| => rs[i].speed)
  }

  ghost function Failures(rs: seq<Report>): seq<int> {
    seq(|rs|, i requires 0 <= i < |rs| => rs[i].failed)
  }

  ghost function Times(rs: seq<Report>): seq<int> {
    seq(|rs|, i requires 0 <= i < |rs| => rs[i].diff)
  }

  lemma {:induction false} TotalSnoc(xs: seq<int>, x: int)
    ensures Total(xs + [x]) == Total(xs) + x
    decreases |xs|
  {
    if xs == [] {
      assert [x][1..] == [];
    } else {
      TotalSnoc(xs[1..], x);
      assert (xs + [x])[1..] == xs[1..] + [x];
    }
  }

  /** Field by field: the sum of the speeds, of the failures and of the times. */
  lemma {:induction false} SumFields(reports: seq<Report>)
    ensures Sum(reports).speed == Total(Speeds(reports))
    ensures Sum(reports).failed == Total(Failures(reports))
    ensures Sum(reports).diff == Total(Times(reports))
    decreases |reports|
  {
    if reports != [] {
      var init, last := reports[..|reports| - 1], reports[|reports| - 1];
      SumFields(init);
      TotalSnoc(Speeds(init), last.speed);
      TotalSnoc(Failures(init), last.failed);
      TotalSnoc(Times(init), last.diff);
      assert Speeds(reports) == Speeds(init) + [last.speed];
      assert Failures(reports) == Failures(init) + [last.failed];
      assert Times(reports) == Times(init) + [last.diff];
    }
  }

  lemma SumSnoc(reports: seq<Report>, r: Report)
    ensures Sum(reports + [r]) == Plus(Sum(reports), r)
  {
    assert (reports + [r])[..|reports|] == reports;
  }

  /** A report may be taken out of the middle and added at the end. */
  lemma {:induction false} SumMoves(a: seq<Report>, r: Report, b: seq<Report>)
    ensures Sum(a + [r] + b) == Plus(Sum(a + b), r)
    decreases |b|
  {
    if b == [] {
      assert a + [r] + b == a + [r] && a + b == a;
      SumSnoc(a, r);
    } else {
      var init, last := b[..|b| - 1], b[|b| - 1];
      SumMoves(a, r, init);
      assert a + [r] + b == (a + [r] + init) + [last] && a + b == (a + init) + [last];
      SumSnoc(a + [r] + init, last);
      SumSnoc(a + init, last);
    }
  }

  /** A report of one sequence is found, and taken out, in any rearrangement of it. */
  lemma TakeOut(init: seq<Report>, last: Report, b: seq<Report>) returns (before: seq<Report>, after: seq<Report>)
    requires multiset(init + [last]) == multiset(b)
    ensures b == before + [last] + after && multiset(init) == multiset(before + after)
  {
    assert last in multiset(b);
    var i :| 0 <= i < |b| && b[i] == last;
    before, after := b[..i], b[i + 1..];
    assert b == before + [last] + after;
    assert multiset(init) == multiset(init + [last]) - multiset{last};
    assert multiset(before + after) == multiset(before + [last] + after) - multiset{last};
  }

  /** The totals do not depend on the order in which the reports arrive. */
  lemma {:induction false} SumPermutes(a: seq<Report>, b: seq<Report>)
    requires multiset(a) == multiset(b)
    ensures Sum(a) == Sum(b)
    decreases |a|
  {
    if a == [] {
      assert |multiset(b)| == 0;
    } else {
      var init, last := a[..|a| - 1], a[|a| - 1];
      assert a == init + [last];
      var before, after := TakeOut(init, last, b);
      SumPermutes(init, before + after);
      SumSnoc(init, last);
      SumMoves(before, last, after);
    }
  }

  /** The parent's loop: it stops after `clients` reports, or when no further one arrives. */
  method Collect(clients: nat, arriving: seq<Report>) returns (total: Report)
    requires clients > 0
    ensures total == Sum(arriving[..if |arriving| < clients then |arriving| else clients])
  {
    total := Report(0, 0, 0);
    var left, i := clients, 0;
    while i < |arriving|
      invariant i + left == clients && i <= |arriving| && left > 0
      invariant total == Sum(arriving[..i])
    {
      SumSnoc(arriving[..i], arriving[i]);
      assert arriving[..i + 1] == arriving[..i] + [arriving[i]];
      total := Plus(total, arriving[i]);
      left, i := left - 1, i + 1;
      if left == 0 {
        return;
      }
    }
  }

  /** If every child's report arrives, in whatever order, the parent's totals are the sums
      over the children. */
  lemma AllArrive(children: seq<Report>, arriving: seq<Report>)
    requires multiset(children) == multiset(arriving)
    ensures |arriving| == |children| && Sum(arriving[..|children|]) == Sum(children)
    ensures Sum(arriving[..|children|])
         == Report(Total(Speeds(children)), Total(Failures(children)), Total(Times(children)))
  {
    SumFields(children);
    assert |multiset(arriving)| == |arriving| && |multiset(children)| == |children|;
    assert arriving[..|children|] == arriving;
    SumPermutes(arriving, children);
  }
}
