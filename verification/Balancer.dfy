/** The polling thread's own code: `p` overwritten in place, the distribution published
    once per round, twelve usage histories, and the exit after a hundred rounds. */
module Balancer {
  import opened Common
  import opened Selection

  /** One round's answers, server by server. */
  type Round = r: seq<Usage> | |r| == SERVERS_NUM witness seq(SERVERS_NUM, i => Usage(0.0, 0.0, 0.0))

  function RoundWeights(r: Round): (w: seq<real>)
    ensures |w| == SERVERS_NUM && Weights(w)
  {
    WeightBounds(r[0]); WeightBounds(r[1]); WeightBounds(r[2]); WeightBounds(r[3]);
    [Weight(r[0]), Weight(r[1]), Weight(r[2]), Weight(r[3])]
  }

  /** The length of server i's ticket interval. */
  ghost function Share(w: seq<real>, i: nat): real
    requires i < |w|
  {
    Prefix(w, i + 1) - Prefix(w, i)
  }

  ghost predicate Below95(s: Usage) {
    s.cpu < 95.0 && s.mem < 95.0 && s.io < 95.0
  }

  /** The ticket intervals of one round: none for a server at or above 95 in any respect; those
      of the others differ by what their usages cost, and an idle server's is 100 long. */
  ghost predicate FairShares(w: seq<real>, r: Round) {
    && |w| == 4
    && (forall i :: 0 <= i < 4 && !Below95(r[i]) ==> Share(w, i) == 0.0)
    && (forall i, j :: 0 <= i < 4 && 0 <= j < 4 && Below95(r[i]) && Below95(r[j]) ==>
          Apart(Share(w, i), Share(w, j), r[i], r[j]))
    && (forall i :: 0 <= i < 4 && r[i] == Usage(0.0, 0.0, 0.0) ==> Share(w, i) == 100.0)
  }

  lemma RoundShares(r: Round)
    ensures FairShares(RoundWeights(r), r)
  {
    var w := RoundWeights(r);
    forall i | 0 <= i < 4 ensures Share(w, i) == Weight(r[i]) {
    }
    forall i | 0 <= i < 4 && !Below95(r[i]) ensures Share(w, i) == 0.0 {
      WeightBounds(r[i]);
    }
    forall i, j | 0 <= i < 4 && 0 <= j < 4 && Below95(r[i]) && Below95(r[j])
      ensures Apart(Share(w, i), Share(w, j), r[i], r[j])
    {
      WeightCosts(r[i], r[j]);
    }
  }

  /** The three histories of server i are its samples of these rounds, in order. */
  ghost predicate Recorded(rounds: seq<Round>, i: nat, cpu: seq<real>, memory: seq<real>, io: seq<real>)
    requires i < SERVERS_NUM
  {
    && |cpu| == |memory| == |io| == |rounds|
    && forall j :: 0 <= j < |rounds| ==> Usage(cpu[j], memory[j], io[j]) == rounds[j][i]
  }

  class Balancer {
    const p: array<real>
    var d: seq<real>
    const cpuUsage: array<seq<real>>
    const memoryUsage: array<seq<real>>
    const ioUsage: array<seq<real>>

    ghost predicate Shape()
      reads this
    {
      && p.Length == cpuUsage.Length == memoryUsage.Length == ioUsage.Length == SERVERS_NUM
      && cpuUsage != memoryUsage && cpuUsage != ioUsage && memoryUsage != ioUsage
    }

    /** State between two rounds, `rounds` being those completed so far. */
    ghost predicate Valid(rounds: seq<Round>)
      reads this, p, cpuUsage, memoryUsage, ioUsage
    {
      && Shape()
      && (forall i :: 0 <= i < SERVERS_NUM ==> Recorded(rounds, i, cpuUsage[i], memoryUsage[i], ioUsage[i]))
      && d == p[..]
      && d == if rounds == [] then seq(SERVERS_NUM, i => 25.0) else RoundWeights(rounds[|rounds| - 1])
    }

    constructor ()
      ensures Valid([])
      ensures fresh(p) && fresh(cpuUsage) && fresh(memoryUsage) && fresh(ioUsage)
    {
      p := new real[SERVERS_NUM](i => 100.0 / 4.0);
      d := seq(SERVERS_NUM, i => 25.0);
      cpuUsage := new seq<real>[SERVERS_NUM](i => []);
      memoryUsage := new seq<real>[SERVERS_NUM](i => []);
      ioUsage := new seq<real>[SERVERS_NUM](i => []);
      new;
      assert p[..] == d;
    }

    /** `set_distribution` */
    method SetDistribution()
      modifies this`d
      ensures d == p[..]
    {
      d := p[..];
    }

    /** The body of the loop over the servers, after server i has answered. */
    method Poll(i: nat, answer: Usage)
      requires Shape() && i < SERVERS_NUM
      modifies p, cpuUsage, memoryUsage, ioUsage
      ensures p[i] == Weight(answer)
      ensures cpuUsage[i] == old(cpuUsage[i]) + [answer.cpu]
      ensures memoryUsage[i] == old(memoryUsage[i]) + [answer.mem]
      ensures ioUsage[i] == old(ioUsage[i]) + [answer.io]
      ensures forall k :: 0 <= k < SERVERS_NUM && k != i ==>
        && p[k] == old(p[k]) && cpuUsage[k] == old(cpuUsage[k])
        && memoryUsage[k] == old(memoryUsage[k]) && ioUsage[k] == old(ioUsage[k])
    {
      var cpu, memory, io := answer.cpu, answer.mem, answer.io;
      if cpu >= 95.0 || memory >= 95.0 || io >= 95.0 {
        p[i] := 0.0;
      } else {
        p[i] := 0.6 * (100.0 - cpu) + 0.3 * (100.0 - memory) + 0.1 * (100.0 - io);
      }
      cpuUsage[i] := cpuUsage[i] + [cpu];
      memoryUsage[i] := memoryUsage[i] + [memory];
      ioUsage[i] := ioUsage[i] + [io];
    }

    /** One round: all servers polled in turn, then one publication. Nothing of the
        previous round is left in the distribution. */
    method PollAll(ghost before: seq<Round>, answers: Round)
      requires Valid(before)
      modifies this`d, p, cpuUsage, memoryUsage, ioUsage
      ensures Valid(before + [answers]) && FairShares(d, answers)
    {
      ghost var after := before + [answers];
      for i := 0 to SERVERS_NUM
        invariant Shape() && d == old(d)
        invariant forall k :: 0 <= k < i ==> p[k] == Weight(answers[k])
        invariant forall k :: 0 <= k < i ==> Recorded(after, k, cpuUsage[k], memoryUsage[k], ioUsage[k])
        invariant forall k :: i <= k < SERVERS_NUM ==> Recorded(before, k, cpuUsage[k], memoryUsage[k], ioUsage[k])
      {
        Poll(i, answers[i]);
      }
      SetDistribution();
      assert p[..] == RoundWeights(answers);
      RoundShares(answers);
    }

    /** `mainThreadFunc` against the answers to come: it stops after exactly a hundred
        rounds, with a hundred samples in each of the twelve histories. */
    method MainThread(feed: seq<Round>) returns (rounds: nat)
      requires Valid([]) && |feed| >= 100
      modifies this`d, p, cpuUsage, memoryUsage, ioUsage
      ensures rounds == 100 && Valid(feed[..100]) && FairShares(d, feed[99])
    {
      rounds := 0;
      while true
        invariant rounds < ROUNDS && Valid(feed[..rounds])
        decreases ROUNDS - rounds
      {
        PollAll(feed[..rounds], feed[rounds]);
        assert feed[..rounds + 1] == feed[..rounds] + [feed[rounds]];
        rounds := rounds + 1;
        assert Recorded(feed[..rounds], 0, cpuUsage[0], memoryUsage[0], ioUsage[0]);
        if |cpuUsage[0]| >= ROUNDS {
          return;
        }
      }
    }

    /** `get_curSelectedServer_fd`: the server whose interval holds the ticket. */
    method Draw(ticket: real) returns (index: nat)
      requires Weights(d) && 0.0 <= ticket < Total(d)
      ensures index < |d| && Prefix(d, index) <= ticket < Prefix(d, index + 1) && d[index] > 0.0
    {
      index := Select(d, ticket);
      SelectExact(d, ticket, index);
      SelectedHasWeight(d, ticket);
    }
  }
}
