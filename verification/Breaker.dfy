/** The per-provider circuit breaker, checked before a call and told the outcome after it. */
module Breaker {
  import opened Prelude

  datatype State = Closed | Open | HalfOpen | HalfOpenTrial

  datatype Decision = Allow | AllowTrial | Deny

  datatype Config = Config(failureThreshold: int, openDuration: int)

  datatype Record = Record(state: State, failures: int, openedAt: int)

  function EffectiveState(r: Option<Record>, now: int, openDuration: int): State {
    if r.None? then Closed
    else if r.value.state == Open && now - r.value.openedAt >= openDuration then HalfOpen
    else r.value.state
  }

  function CheckSpec(r: Option<Record>, cfg: Config, now: int): (Option<Record>, Decision) {
    match EffectiveState(r, now, cfg.openDuration)
    case Closed => (r, Allow)
    case HalfOpen => if r.Some? then (Some(r.value.(state := HalfOpenTrial)), AllowTrial) else (r, Deny)
    case _ => (r, Deny)
  }

  function ReportSpec(r: Option<Record>, cfg: Config, now: int, success: bool): Record {
    if success then Record(Closed, 0, 0)
    else if r.Some? && r.value.state == HalfOpenTrial then Record(Open, cfg.failureThreshold, now)
    else
      var failures := if r.Some? then r.value.failures + 1 else 1;
      if failures >= cfg.failureThreshold then Record(Open, failures, now) else Record(Closed, failures, 0)
  }

  class CircuitBreaker {
    const cfg: Config
    var record: Option<Record>

    constructor (cfg: Config)
      ensures this.cfg == cfg && record == None
    {
      this.cfg := cfg;
      record := None;
    }

    method Check(now: int) returns (d: Decision)
      modifies this
      ensures (record, d) == CheckSpec(old(record), cfg, now)
    {
      match EffectiveState(record, now, cfg.openDuration)
      case Closed =>
        return Allow;
      case HalfOpen =>
        if record.Some? {
          record := Some(Record(HalfOpenTrial, record.value.failures, record.value.openedAt));
          return AllowTrial;
        }
        return Deny;
      case _ =>
        return Deny;
    }

    method ReportResult(now: int, success: bool)
      modifies this
      ensures record == Some(ReportSpec(old(record), cfg, now, success))
    {
      if success {
        record := Some(Record(Closed, 0, 0));
        return;
      }
      if record.Some? && record.value.state == HalfOpenTrial {
        record := Some(Record(Open, cfg.failureThreshold, now));
        return;
      }
      var failures := 1;
      if record.Some? {
        failures := record.value.failures + 1;
      }
      if failures >= cfg.failureThreshold {
        record := Some(Record(Open, failures, now));
      } else {
        record := Some(Record(Closed, failures, 0));
      }
    }
  }

  // ----- Histories -----

  datatype Event = Check(now: int) | Report(now: int, success: bool)

  function Run(cfg: Config, events: seq<Event>): Option<Record> {
    if events == [] then None
    else
      var r := Run(cfg, events[..|events| - 1]);
      match events[|events| - 1]
      case Check(now) => CheckSpec(r, cfg, now).0
      case Report(now, success) => Some(ReportSpec(r, cfg, now, success))
  }

  function DecisionAt(cfg: Config, events: seq<Event>, i: nat): Decision
    requires i < |events| && events[i].Check?
  {
    CheckSpec(Run(cfg, events[..i]), cfg, events[i].now).1
  }

  /** Consecutive failures reported at the end of the history. */
  function TrailingFailures(events: seq<Event>): nat {
    if events == [] then 0
    else match events[|events| - 1]
      case Check(_) => TrailingFailures(events[..|events| - 1])
      case Report(_, true) => 0
      case Report(_, false) => TrailingFailures(events[..|events| - 1]) + 1
  }

  /** A threshold below one trips on the first failure, exactly like one. */
  function Threshold(cfg: Config): nat {
    if cfg.failureThreshold < 1 then 1 else cfg.failureThreshold
  }

  /**
   The stored record is a summary of the reports alone: closed exactly while the trailing failures are below
   the threshold, and then counting them; checks never change that, whatever their times.
   */
  lemma {:induction false} RecordSummarisesReports(cfg: Config, events: seq<Event>)
    ensures var r, k := Run(cfg, events), TrailingFailures(events);
      && (r.None? || r.value.state == Closed <==> k < Threshold(cfg))
      && (r.None? ==> k == 0)
      && (r.Some? && r.value.state == Closed ==> r.value.failures == k)
      && (r.Some? ==> r.value.state != HalfOpen)
      && (r.Some? && r.value.state != Closed ==> r.value.failures + 1 >= cfg.failureThreshold)
  {
    if events != [] {
      RecordSummarisesReports(cfg, events[..|events| - 1]);
    }
  }

  /** A call is let through freely exactly when fewer than the threshold of the latest reports failed in a row. */
  lemma AllowedIffFewFailures(cfg: Config, events: seq<Event>, i: nat)
    requires i < |events| && events[i].Check?
    ensures DecisionAt(cfg, events, i) == Allow <==> TrailingFailures(events[..i]) < Threshold(cfg)
  {
    RecordSummarisesReports(cfg, events[..i]);
    hide Run;
  }

  predicate TimesAscend(events: seq<Event>) {
    forall i, j | 0 <= i < j < |events| :: events[i].now <= events[j].now
  }

  ghost predicate ReportBetween(events: seq<Event>, i: nat, n: nat) {
    exists k :: i < k < n && k < |events| && events[k].Report?
  }

  /** After a trial was handed out at `i`, a record is open only by a later report, and opened no earlier. */
  lemma {:induction false} AfterTrial(cfg: Config, events: seq<Event>, i: nat, n: nat)
    requires i < n <= |events| && events[i].Check? && DecisionAt(cfg, events, i) == AllowTrial
    requires TimesAscend(events)
    ensures var r := Run(cfg, events[..n]);
      && r.Some?
      && (r.value.state == Open ==> ReportBetween(events, i, n) && r.value.openedAt >= events[i].now)
      && (ReportBetween(events, i, n) || r.value.state == HalfOpenTrial)
    decreases n
  {
    assert events[..n][..n - 1] == events[..n - 1];
    if n == i + 1 {
      assert Run(cfg, events[..n]) == CheckSpec(Run(cfg, events[..i]), cfg, events[i].now).0;
    } else {
      AfterTrial(cfg, events, i, n - 1);
      if events[n - 1].Report? {
        assert ReportBetween(events, i, n);
        assert events[i].now <= events[n - 1].now;
      } else if ReportBetween(events, i, n - 1) {
        var k :| i < k < n - 1 && k < |events| && events[k].Report?;
        assert ReportBetween(events, i, n);
      }
    }
  }

  /** Trials are rationed: between two of them somebody reported, and a whole open period went by. */
  lemma TrialsSpaced(cfg: Config, events: seq<Event>, i: nat, j: nat)
    requires i < j < |events| && events[i].Check? && events[j].Check? && TimesAscend(events)
    requires DecisionAt(cfg, events, i) == AllowTrial && DecisionAt(cfg, events, j) == AllowTrial
    ensures ReportBetween(events, i, j)
    ensures events[j].now - events[i].now >= cfg.openDuration
  {
    AfterTrial(cfg, events, i, j);
    RecordSummarisesReports(cfg, events[..j]);
    hide Run;
  }

  /**
   A failure that trips the breaker at time t shuts it: until the next report every earlier-than-t+duration
   check is denied, and among the later ones only the first is let through, as the trial.
   */
  lemma {:induction false} OpenPeriod(cfg: Config, events: seq<Event>, i: nat, j: nat)
    requires i < j < |events| && events[i] == Report(events[i].now, false) && !ReportBetween(events, i, j + 1)
    requires TrailingFailures(events[..i + 1]) >= Threshold(cfg)
    requires events[j].Check? && TimesAscend(events)
    ensures DecisionAt(cfg, events, j) ==
      if events[j].now - events[i].now < cfg.openDuration then Deny
      else if exists k :: i < k < j && events[k].now - events[i].now >= cfg.openDuration then Deny
      else AllowTrial
  {
    OpenRecord(cfg, events, i, j);
  }

  lemma {:induction false} OpenRecord(cfg: Config, events: seq<Event>, i: nat, n: nat)
    requires i < n <= |events| && events[i] == Report(events[i].now, false) && !ReportBetween(events, i, n)
    requires TrailingFailures(events[..i + 1]) >= Threshold(cfg) && TimesAscend(events)
    ensures var r := Run(cfg, events[..n]);
      && r.Some? && r.value.openedAt == events[i].now
      && r.value.state == if exists k :: i < k < n && events[k].now - events[i].now >= cfg.openDuration
                          then HalfOpenTrial else Open
    decreases n
  {
    assert events[..n][..n - 1] == events[..n - 1];
    if n == i + 1 {
      RecordSummarisesReports(cfg, events[..n]);
      assert events[..n][n - 1] == events[i];
    } else {
      assert events[n - 1].Check?;
      assert !ReportBetween(events, i, n - 1);
      OpenRecord(cfg, events, i, n - 1);
      assert Run(cfg, events[..n]) == CheckSpec(Run(cfg, events[..n - 1]), cfg, events[n - 1].now).0;
    }
  }

  // ----- Reads and writes apart -----

  /** A check or report that has read the record and not yet written what it decided. */
  datatype Pending = Pending(event: Event, read: Option<Record>)

  /** `done` lists the finished checks and reports in the order of their writes, with what each check answered. */
  datatype Store = Store(record: Option<Record>, pending: map<nat, Pending>, done: seq<(Event, Decision)>)

  datatype Op = Read(caller: nat, event: Event) | Write(caller: nat)

  const FRESH_STORE := Store(None, map[], [])

  function Decided(cfg: Config, p: Pending): Decision {
    match p.event
    case Check(now) => CheckSpec(p.read, cfg, now).1
    case Report(_, _) => Allow
  }

  /** A check writes only to claim a trial; a report always writes. */
  function Written(cfg: Config, current: Option<Record>, p: Pending): Option<Record> {
    match p.event
    case Check(now) => if Decided(cfg, p) == AllowTrial then CheckSpec(p.read, cfg, now).0 else current
    case Report(now, success) => Some(ReportSpec(p.read, cfg, now, success))
  }

  function Do(cfg: Config, s: Store, op: Op): Store {
    match op
    case Read(c, e) => if c in s.pending then s else s.(pending := s.pending[c := Pending(e, s.record)])
    case Write(c) =>
      if c !in s.pending then s
      else
        var p := s.pending[c];
        Store(Written(cfg, s.record, p), s.pending - {c}, s.done + [(p.event, Decided(cfg, p))])
  }

  function DoAll(cfg: Config, ops: seq<Op>): Store {
    if ops == [] then FRESH_STORE else Do(cfg, DoAll(cfg, ops[..|ops| - 1]), ops[|ops| - 1])
  }

  /** Nothing was written between the read and the write of each call. */
  ghost predicate NoneOverlap(cfg: Config, ops: seq<Op>) {
    ops == [] ||
    (var front, op := ops[..|ops| - 1], ops[|ops| - 1];
     var s := DoAll(cfg, front);
     NoneOverlap(cfg, front) && (op.Write? && op.caller in s.pending ==> s.pending[op.caller].read == s.record))
  }

  function Events(done: seq<(Event, Decision)>): (es: seq<Event>)
    ensures |es| == |done| && forall i | 0 <= i < |done| :: es[i] == done[i].0
  {
    seq(|done|, i requires 0 <= i < |done| => done[i].0)
  }

  /**
   As long as no record changes under a call, reading and writing apart is the same as in one step: the record is
   the one of the calls in the order they wrote, and every check answered as it does there.
   */
  lemma {:induction false} ApartIsAtomic(cfg: Config, ops: seq<Op>)
    requires NoneOverlap(cfg, ops)
    ensures var s := DoAll(cfg, ops);
      && s.record == Run(cfg, Events(s.done))
      && forall i | 0 <= i < |s.done| && s.done[i].0.Check? :: s.done[i].1 == DecisionAt(cfg, Events(s.done), i)
  {
    if ops != [] {
      var front, op := ops[..|ops| - 1], ops[|ops| - 1];
      ApartIsAtomic(cfg, front);
      var s := DoAll(cfg, front);
      if op.Write? && op.caller in s.pending {
        OneDone(cfg, s, op.caller);
        hide Do, Run, NoneOverlap;
      } else {
        hide Run, NoneOverlap;
      }
    }
  }

  lemma OneDone(cfg: Config, s: Store, caller: nat)
    requires caller in s.pending && s.pending[caller].read == s.record
    requires s.record == Run(cfg, Events(s.done))
    requires forall i | 0 <= i < |s.done| && s.done[i].0.Check? :: s.done[i].1 == DecisionAt(cfg, Events(s.done), i)
    ensures var s' := Do(cfg, s, Write(caller));
      && s'.record == Run(cfg, Events(s'.done))
      && forall i | 0 <= i < |s'.done| && s'.done[i].0.Check? :: s'.done[i].1 == DecisionAt(cfg, Events(s'.done), i)
  {
    var s' := Do(cfg, s, Write(caller));
    var es, es' := Events(s.done), Events(s'.done);
    assert es' == es + [s.pending[caller].event];
    assert es'[..|es'| - 1] == es;
    forall i | 0 <= i < |s'.done| && s'.done[i].0.Check? ensures s'.done[i].1 == DecisionAt(cfg, es', i) {
      assert es'[..i] == es[..i];
      assert i == |es| ==> es[..i] == es;
    }
  }

  /**
   Overlap matters: of two checks that both read before either writes, both are given a trial exactly when the
   open period was over for both, while one after the other the second is always refused.
   */
  lemma OverlappingTrialsIff(cfg: Config, r: Option<Record>, t1: int, t2: int)
    requires r.Some? ==> r.value.state != HalfOpen
    ensures var s0 := Store(r, map[], []);
      var s := Do(cfg, Do(cfg, Do(cfg, Do(cfg, s0, Read(1, Check(t1))), Read(2, Check(t2))), Write(1)), Write(2));
      s.done == [(Check(t1), AllowTrial), (Check(t2), AllowTrial)] <==>
        r.Some? && r.value.state == Open
        && t1 - r.value.openedAt >= cfg.openDuration && t2 - r.value.openedAt >= cfg.openDuration
    ensures var (r1, d1) := CheckSpec(r, cfg, t1); d1 == AllowTrial ==> CheckSpec(r1, cfg, t2).1 == Deny
  {
    var s2 := Do(cfg, Do(cfg, Store(r, map[], []), Read(1, Check(t1))), Read(2, Check(t2)));
    assert s2.pending == map[1 := Pending(Check(t1), r), 2 := Pending(Check(t2), r)] && s2.record == r;
    var s3 := Do(cfg, s2, Write(1));
    assert s3.pending == map[2 := Pending(Check(t2), r)];
    var s4 := Do(cfg, s3, Write(2));
    assert s4.done == [(Check(t1), CheckSpec(r, cfg, t1).1), (Check(t2), CheckSpec(r, cfg, t2).1)];
  }
}
