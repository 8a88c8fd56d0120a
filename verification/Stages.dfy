/** The fixed staged sequence of a canary rollout and its two lookup tables. */
module Stages {
  import opened Prelude

  datatype Stage = Pending | Canary1 | Canary10 | Canary50 | Stable

  datatype Status = Running | Promoted | RolledBack | Aborted

  const STAGE_ORDER: seq<Stage> := [Pending, Canary1, Canary10, Canary50, Stable]

  function Rank(s: Stage): nat {
    match s
    case Pending => 0
    case Canary1 => 1
    case Canary10 => 2
    case Canary50 => 3
    case Stable => 4
  }

  function Percent(s: Stage): nat {
    match s
    case Pending => 0
    case Canary1 => 1
    case Canary10 => 10
    case Canary50 => 50
    case Stable => 100
  }

  function Next(s: Stage): Option<Stage> {
    match s
    case Pending => Some(Canary1)
    case Canary1 => Some(Canary10)
    case Canary10 => Some(Canary50)
    case Canary50 => Some(Stable)
    case Stable => None
  }

  /** The linear search over the stage list; it finds the element right after `current`. */
  method NextStage(current: Stage) returns (next: Option<Stage>)
    ensures next == Next(current)
    ensures next.None? <==> current == STAGE_ORDER[|STAGE_ORDER| - 1]
    ensures next.Some? ==> Rank(next.value) == Rank(current) + 1
  {
    assert STAGE_ORDER[Rank(current)] == current;
    var i := 0;
    while i < |STAGE_ORDER|
      invariant 0 <= i <= |STAGE_ORDER|
      invariant forall j | 0 <= j < i :: STAGE_ORDER[j] != current
    {
      if STAGE_ORDER[i] == current {
        if i + 1 < |STAGE_ORDER| {
          return Some(STAGE_ORDER[i + 1]);
        }
        return None;
      }
      i := i + 1;
    }
    assert false;
  }

  /** Ranks name stages uniquely, and a later stage never carries less traffic. */
  lemma StageTables(a: Stage, b: Stage)
    ensures Rank(a) == Rank(b) <==> a == b
    ensures Rank(a) <= Rank(b) <==> Percent(a) <= Percent(b)
    ensures STAGE_ORDER[Rank(a)] == a
  {
  }
}
