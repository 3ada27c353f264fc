/** From a server's usage to its share of the requests: the weight formula and the contract
    of `discrete_distribution` as a prefix-sum ticket selector, over exact reals. */
module Selection {
  import opened Common

  predicate Overloaded(s: Usage) {
    s.cpu >= 95.0 || s.mem >= 95.0 || s.io >= 95.0
  }

  function Weight(s: Usage): real {
    if Overloaded(s) then 0.0
    else 0.6 * (100.0 - s.cpu) + 0.3 * (100.0 - s.mem) + 0.1 * (100.0 - s.io)
  }

  /** A server has a share exactly when no usage reached 95, and then a share above 5. */
  lemma WeightBounds(s: Usage)
    ensures Weight(s) > 0.0 <==> !Overloaded(s)
    ensures Overloaded(s) <==> !(s.cpu < 95.0 && s.mem < 95.0 && s.io < 95.0)
    ensures Weight(s) == 0.0 || Weight(s) > 5.0
    ensures s.cpu >= 0.0 && s.mem >= 0.0 && s.io >= 0.0 ==> Weight(s) <= 100.0
  {
  }

  /** The weights of two servers that are not overloaded differ by 0.6, 0.3 and 0.1 times the
      differences of their CPU, memory and I/O usages. */
  ghost predicate Apart(w: real, v: real, s: Usage, t: Usage) {
    w - v == 0.6 * (t.cpu - s.cpu) + 0.3 * (t.mem - s.mem) + 0.1 * (t.io - s.io)
  }

  /** What a point of each usage costs, and what an idle server weighs: this fixes the weight
      of every server that is not overloaded. */
  lemma WeightCosts(s: Usage, t: Usage)
    requires s.cpu < 95.0 && s.mem < 95.0 && s.io < 95.0
    requires t.cpu < 95.0 && t.mem < 95.0 && t.io < 95.0
    ensures Apart(Weight(s), Weight(t), s, t)
    ensures Weight(Usage(0.0, 0.0, 0.0)) == 100.0
  {
  }

  /** x points of CPU cost as much as 2x points of memory and 6x points of I/O. */
  lemma RateOfExchange(s: Usage, x: real)
    requires x >= 0.0 && s.cpu + x < 95.0 && s.mem + 2.0 * x < 95.0 && s.io + 6.0 * x < 95.0
    ensures Weight(s.(cpu := s.cpu + x)) == Weight(s.(mem := s.mem + 2.0 * x)) == Weight(s.(io := s.io + 6.0 * x))
  {
    WeightCosts(s, s.(cpu := s.cpu + x));
    WeightCosts(s, s.(mem := s.mem + 2.0 * x));
    WeightCosts(s, s.(io := s.io + 6.0 * x));
  }

  /** A server that is at least as busy in every respect never has a larger weight. */
  lemma WeightAntitone(s: Usage, t: Usage)
    requires s.cpu <= t.cpu && s.mem <= t.mem && s.io <= t.io
    ensures Weight(t) <= Weight(s)
  {
    WeightBounds(s);
    if !Overloaded(t) {
      assert 0.6 * (100.0 - t.cpu) <= 0.6 * (100.0 - s.cpu);
    }
  }

  predicate Weights(w: seq<real>) {
    forall i :: 0 <= i < |w| ==> w[i] >= 0.0
  }

  /** The sum of the first n weights. */
  function Prefix(w: seq<real>, n: nat): real
    requires n <= |w|
  {
    if n == 0 then 0.0 else Prefix(w, n - 1) + w[n - 1]
  }

  function Total(w: seq<real>): real {
    Prefix(w, |w|)
  }

  lemma {:induction false} PrefixMonotone(w: seq<real>, m: nat, n: nat)
    requires Weights(w) && m <= n <= |w|
    ensures Prefix(w, m) <= Prefix(w, n)
    decreases n
  {
    if m < n {
      PrefixMonotone(w, m, n - 1);
    }
  }

  /** The first server whose prefix sum exceeds the ticket, looked for from server `from`. */
  function SelectFrom(w: seq<real>, from: nat, ticket: real): (i: nat)
    requires from < |w| && ticket < Total(w)
    ensures from <= i < |w| && ticket < Prefix(w, i + 1)
    ensures i == from || Prefix(w, i) <= ticket
    decreases |w| - from
  {
    if ticket < Prefix(w, from + 1) then from else SelectFrom(w, from + 1, ticket)
  }

  function Select(w: seq<real>, ticket: real): (i: nat)
    requires w != [] && ticket < Total(w)
    ensures i < |w|
  {
    SelectFrom(w, 0, ticket)
  }

  /** Server i owns exactly the tickets of one interval as long as its weight: its share of
      all tickets is its weight over the sum. */
  lemma SelectExact(w: seq<real>, ticket: real, i: nat)
    requires Weights(w) && 0.0 <= ticket < Total(w) && i < |w|
    ensures Select(w, ticket) == i <==> Prefix(w, i) <= ticket < Prefix(w, i + 1)
    ensures Prefix(w, i + 1) - Prefix(w, i) == w[i]
  {
    var k := Select(w, ticket);
    if k < i {
      PrefixMonotone(w, k + 1, i);
    } else if i < k {
      PrefixMonotone(w, i + 1, k);
    }
  }

  /** A server without weight is never drawn. */
  lemma SelectedHasWeight(w: seq<real>, ticket: real)
    requires Weights(w) && 0.0 <= ticket < Total(w)
    ensures w[Select(w, ticket)] > 0.0
  {
    SelectExact(w, ticket, Select(w, ticket));
  }

  /** There is something to draw exactly when some weight is positive: the precondition of
      `discrete_distribution` (section 26.5.8.6.1 of ISO/IEC 14882:2011). */
  lemma {:induction false} TotalPositive(w: seq<real>, n: nat)
    requires Weights(w) && n <= |w|
    ensures Prefix(w, n) >= 0.0
    ensures Prefix(w, n) > 0.0 <==> exists i :: 0 <= i < n && w[i] > 0.0
  {
    if n > 0 {
      TotalPositive(w, n - 1);
      assert (exists i :: 0 <= i < n && w[i] > 0.0) <==> (w[n - 1] > 0.0 || exists i :: 0 <= i < n - 1 && w[i] > 0.0);
    }
  }
}
