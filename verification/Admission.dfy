/** Admission control over a shared in-flight gauge, at the edge and in data-plane. */
module Admission {
  import opened Prelude

  datatype EdgeDecision = Accept | Queue | Shed

  function EdgeDecide(inflight: int, soft: nat, hard: nat): (d: EdgeDecision)
    ensures d == Accept <==> inflight <= soft
    ensures d == Shed <==> inflight > soft && inflight > hard
  {
    if inflight <= soft then Accept else if inflight <= hard then Queue else Shed
  }

  /** The two admission rules; both see the gauge after the request's own increment. */
  datatype Rule = EdgeRule(soft: nat, hard: nat) | DataPlaneRule(limit: int)

  predicate Admits(rule: Rule, inflight: int) {
    match rule
    case EdgeRule(soft, hard) => EdgeDecide(inflight, soft, hard) != Shed
    case DataPlaneRule(limit) => inflight < limit
  }

  /** How many requests a rule lets run at once. */
  function Capacity(rule: Rule): nat {
    match rule
    case EdgeRule(soft, hard) => if soft >= hard then soft else hard
    case DataPlaneRule(limit) => if limit <= 0 then 0 else limit - 1
  }

  class Gauge {
    var count: int

    constructor ()
      ensures count == 0
    {
      count := 0;
    }

    method Increment() returns (n: int)
      modifies this
      ensures count == old(count) + 1 && n == count
    {
      count := count + 1;
      n := count;
    }

    method Decrement()
      modifies this
      ensures count == old(count) - 1
    {
      count := count - 1;
    }
  }

  /** Queue proceeds like Accept; a shed request takes its own increment back. */
  method EdgeAdmit(gauge: Gauge, soft: nat, hard: nat) returns (admitted: bool)
    modifies gauge
    ensures admitted <==> old(gauge.count) < Capacity(EdgeRule(soft, hard))
    ensures gauge.count == if admitted then old(gauge.count) + 1 else old(gauge.count)
  {
    var inflight := gauge.Increment();
    match EdgeDecide(inflight, soft, hard)
    case Shed =>
      gauge.Decrement();
      return false;
    case _ =>
      return true;
  }

  method DataPlaneAdmit(gauge: Gauge, limit: int) returns (admitted: bool)
    modifies gauge
    ensures admitted <==> Admits(DataPlaneRule(limit), old(gauge.count) + 1)
    ensures old(gauge.count) >= 0 ==> (admitted <==> old(gauge.count) < Capacity(DataPlaneRule(limit)))
    ensures gauge.count == if admitted then old(gauge.count) + 1 else old(gauge.count)
  {
    var inflight := gauge.Increment();
    if inflight >= limit {
      gauge.Decrement();
      return false;
    }
    return true;
  }

  // ----- Any number of requests, interleaved -----

  datatype Phase =
    | Counted // incremented, not yet decided
    | Running // admitted
    | Shedding // refused, own decrement still to run
    | Releasing // finished, detached decrement still to run

  datatype Request = Request(observed: int, phase: Phase)

  /** `inflight` lists the requests whose decrement has not run, oldest increment first. */
  datatype System = System(gauge: int, inflight: seq<Request>)

  datatype Action = Arrive | Decide(i: nat) | Finish(i: nat) | Leave(i: nat)

  function Apply(rule: Rule, s: System, a: Action): System {
    match a
    case Arrive => System(s.gauge + 1, s.inflight + [Request(s.gauge + 1, Counted)])
    case Decide(i) =>
      if i < |s.inflight| && s.inflight[i].phase == Counted then
        var phase := if Admits(rule, s.inflight[i].observed) then Running else Shedding;
        s.(inflight := s.inflight[i := s.inflight[i].(phase := phase)])
      else s
    case Finish(i) =>
      if i < |s.inflight| && s.inflight[i].phase == Running then
        s.(inflight := s.inflight[i := s.inflight[i].(phase := Releasing)])
      else s
    case Leave(i) =>
      if i < |s.inflight| && (s.inflight[i].phase == Shedding || s.inflight[i].phase == Releasing) then
        System(s.gauge - 1, s.inflight[..i] + s.inflight[i + 1..])
      else s
  }

  const EMPTY := System(0, [])

  function Run(rule: Rule, actions: seq<Action>): System {
    if actions == [] then EMPTY else Apply(rule, Run(rule, actions[..|actions| - 1]), actions[|actions| - 1])
  }

  predicate Holding(r: Request) {
    r.phase == Running || r.phase == Releasing
  }

  function CountHolding(rs: seq<Request>): nat {
    if rs == [] then 0 else CountHolding(rs[..|rs| - 1]) + (if Holding(rs[|rs| - 1]) then 1 else 0)
  }

  /** The i-th oldest request saw at least i + 1 on the gauge, and only observations within the rule got in. */
  ghost predicate Ordered(rule: Rule, s: System) {
    && s.gauge == |s.inflight|
    && forall i | 0 <= i < |s.inflight| ::
         s.inflight[i].observed >= i + 1 && (Holding(s.inflight[i]) ==> Admits(rule, s.inflight[i].observed))
  }

  lemma {:induction false} AlwaysOrdered(rule: Rule, actions: seq<Action>)
    ensures Ordered(rule, Run(rule, actions))
  {
    hide Admits;
    if actions != [] {
      AlwaysOrdered(rule, actions[..|actions| - 1]);
    }
  }

  lemma {:induction false} HoldersAreOld(rs: seq<Request>, cap: nat)
    requires forall i | 0 <= i < |rs| && Holding(rs[i]) :: i < cap
    ensures CountHolding(rs) <= cap && CountHolding(rs) <= |rs|
  {
    if rs != [] {
      var front := rs[..|rs| - 1];
      HoldersAreOld(front, cap);
    }
  }

  /**
   Under every interleaving of increments, decisions and decrements, the gauge counts exactly the requests not
   yet taken back, it is zero when none are left, and never more than the capacity hold a slot at once.
   */
  lemma NeverOverCapacity(rule: Rule, actions: seq<Action>)
    ensures var s := Run(rule, actions);
      && s.gauge == |s.inflight|
      && (s.inflight == [] ==> s.gauge == 0)
      && CountHolding(s.inflight) <= Capacity(rule)
  {
    AlwaysOrdered(rule, actions);
    var s := Run(rule, actions);
    hide Run;
    HoldersAreOld(s.inflight, Capacity(rule));
  }

  /** `n` requests arriving and decided one after another. */
  function Burst(n: nat): seq<Action> {
    if n == 0 then [] else Burst(n - 1) + [Arrive, Decide(n - 1)]
  }

  lemma RunTwo(rule: Rule, actions: seq<Action>, a: Action, b: Action)
    ensures Run(rule, actions + [a, b]) == Apply(rule, Apply(rule, Run(rule, actions), a), b)
  {
    var all := actions + [a, b];
    assert all[..|all| - 1] == actions + [a];
    assert (actions + [a])[..|actions + [a]| - 1] == actions;
  }

  /** The bound is reached, and the next request is refused: capacity is exactly what the rule admits. */
  lemma {:induction false} CapacityIsReached(rule: Rule, n: nat)
    requires n <= Capacity(rule)
    ensures var s := Run(rule, Burst(n));
      && |s.inflight| == n && CountHolding(s.inflight) == n
      && (n == Capacity(rule) ==> !Admits(rule, n + 1))
  {
    if n > 0 {
      CapacityIsReached(rule, n - 1);
      AlwaysOrdered(rule, Burst(n - 1));
      var s := Run(rule, Burst(n - 1));
      RunTwo(rule, Burst(n - 1), Arrive, Decide(n - 1));
      AdmitOne(rule, s, n);
      hide Run, Apply;
    }
  }

  lemma AdmitOne(rule: Rule, s: System, n: nat)
    requires n > 0 && |s.inflight| == n - 1 && s.gauge == n - 1 && Admits(rule, n)
    ensures var s' := Apply(rule, Apply(rule, s, Arrive), Decide(n - 1));
      |s'.inflight| == n && CountHolding(s'.inflight) == CountHolding(s.inflight) + 1
  {
  }
}
