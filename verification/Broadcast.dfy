/**
 One leader call fanned out to every subscriber that joins: a growing buffer, subscribers that replay it from
 the start, and a report of the call's outcome to the circuit breaker.
 */
module Broadcast {
  import opened Prelude

  datatype Delta = Delta(content: string, isFinal: bool)

  /** What the upstream stream's successive reads return. */
  datatype Item = Data(delta: Delta) | Eof | Fault(error: string)

  /** How a stream ended for a reader. */
  datatype End = Clean | Failed(error: string)

  class Buffer {
    var deltas: seq<Delta>
    var done: bool
    var end: End

    constructor ()
      ensures deltas == [] && !done
    {
      deltas, done, end := [], false, Clean;
    }

    method Publish(d: Delta)
      modifies this
      ensures deltas == old(deltas) + [d] && done == old(done) && end == old(end)
    {
      deltas := deltas + [d];
    }

    method Finish(e: End)
      modifies this
      ensures deltas == old(deltas) && done && end == e
    {
      done, end := true, e;
    }
  }

  /** One read by a subscriber at `idx`; it waits until there is something to return. */
  datatype Read = Next(delta: Delta) | Ended(end: End)

  function ReadAt(deltas: seq<Delta>, end: End, idx: nat): Read {
    if idx < |deltas| then Next(deltas[idx]) else Ended(end)
  }

  class Subscriber {
    const buffer: Buffer
    var idx: nat

    constructor (buffer: Buffer)
      ensures this.buffer == buffer && idx == 0
    {
      this.buffer := buffer;
      idx := 0;
    }

    /** The part of Recv after its wait loop. */
    method Recv() returns (r: Read)
      requires idx < |buffer.deltas| || buffer.done
      modifies this
      ensures r == ReadAt(buffer.deltas, buffer.end, old(idx))
      ensures idx == if r.Next? then old(idx) + 1 else old(idx)
    {
      if idx < |buffer.deltas| {
        r := Next(buffer.deltas[idx]);
        idx := idx + 1;
      } else {
        r := Ended(buffer.end);
      }
    }
  }

  /** Wraps the upstream; tells the breaker the outcome once. */
  class ReportingStream {
    var reported: bool
    var reports: seq<bool>

    constructor ()
      ensures !reported && reports == []
    {
      reported, reports := false, [];
    }

    method Observe(item: Item)
      modifies this
      ensures (reported, reports) == Reporting(old(reported), old(reports), item)
    {
      match item
      case Data(d) =>
        if d.isFinal && !reported {
          reported := true;
          reports := reports + [true];
        }
      case _ =>
        if !reported {
          reported := true;
          reports := reports + [false];
        }
    }
  }

  function Reporting(reported: bool, reports: seq<bool>, item: Item): (bool, seq<bool>) {
    if reported then (reported, reports)
    else match item
      case Data(d) => if d.isFinal then (true, reports + [true]) else (reported, reports)
      case _ => (true, reports + [false])
  }

  // ----- What a call should deliver, read off its upstream alone -----

  /** Everything up to and including the first final delta, or up to the first end or fault. */
  function Content(items: seq<Item>): seq<Delta> {
    if items == [] || !items[0].Data? then []
    else if items[0].delta.isFinal then [items[0].delta]
    else [items[0].delta] + Content(items[1..])
  }

  /** How the call ends, if its upstream ever says so. */
  function Ending(items: seq<Item>): Option<End> {
    if items == [] then None
    else match items[0]
      case Data(d) => if d.isFinal then Some(Clean) else Ending(items[1..])
      case Eof => Some(Clean)
      case Fault(e) => Some(Failed(e))
  }

  /** A final delta comes before any end or fault. */
  predicate Succeeds(items: seq<Item>) {
    items != [] && items[0].Data? && (items[0].delta.isFinal || Succeeds(items[1..]))
  }

  // ----- Leader and subscribers, interleaved -----

  datatype Leader = Pulling | Finishing(end: End) | Finished

  datatype Reader = Reader(idx: nat, received: seq<Delta>, ended: Option<End>)

  datatype System = System(
    items: seq<Item>,
    pos: nat,
    leader: Leader,
    deltas: seq<Delta>,
    done: bool,
    end: End,
    reported: bool,
    reports: seq<bool>,
    readers: map<nat, Reader>)

  datatype Action = Lead | Join(id: nat) | Recv(id: nat)

  function Initial(items: seq<Item>): System {
    System(items, 0, Pulling, [], false, Clean, false, [], map[])
  }

  /** The leader reads and publishes, then finishes in a separate critical section. */
  function LeadStep(s: System): System {
    match s.leader
    case Finished => s
    case Finishing(end) => s.(leader := Finished, done := true, end := end)
    case Pulling =>
      if s.pos >= |s.items| then s
      else
        var item := s.items[s.pos];
        var (reported, reports) := Reporting(s.reported, s.reports, item);
        var t := s.(pos := s.pos + 1, reported := reported, reports := reports);
        match item
        case Data(d) =>
          t.(deltas := s.deltas + [d], leader := if d.isFinal then Finishing(Clean) else Pulling)
        case Eof => t.(leader := Finishing(Clean))
        case Fault(e) => t.(leader := Finishing(Failed(e)))
  }

  function Apply(s: System, a: Action): System {
    match a
    case Lead => LeadStep(s)
    case Join(id) => if id in s.readers then s else s.(readers := s.readers[id := Reader(0, [], None)])
    case Recv(id) =>
      if id !in s.readers || s.readers[id].ended.Some? || (s.readers[id].idx >= |s.deltas| && !s.done) then s
      else
        var r := s.readers[id];
        match ReadAt(s.deltas, s.end, r.idx)
        case Next(d) => s.(readers := s.readers[id := r.(idx := r.idx + 1, received := r.received + [d])])
        case Ended(end) => s.(readers := s.readers[id := r.(ended := Some(end))])
  }

  function Run(items: seq<Item>, actions: seq<Action>): System {
    if actions == [] then Initial(items) else Apply(Run(items, actions[..|actions| - 1]), actions[|actions| - 1])
  }

  ghost predicate LeaderOk(s: System) {
    && s.pos <= |s.items|
    && (s.leader.Pulling? ==>
          && !s.done && !s.reported && s.reports == []
          && Content(s.items) == s.deltas + Content(s.items[s.pos..])
          && Ending(s.items) == Ending(s.items[s.pos..])
          && Succeeds(s.items) == Succeeds(s.items[s.pos..]))
    && (!s.leader.Pulling? ==> s.reports == [Succeeds(s.items)] && s.reported && s.deltas == Content(s.items))
    && (s.leader.Finishing? ==> !s.done && Ending(s.items) == Some(s.leader.end))
    && (s.leader.Finished? ==> s.done && Ending(s.items) == Some(s.end))
  }

  ghost predicate ReaderOk(s: System, r: Reader) {
    && r.idx <= |s.deltas| && r.received == s.deltas[..r.idx]
    && (r.ended.Some? ==> s.done && r.idx == |s.deltas| && r.ended == Some(s.end))
  }

  lemma LeadKeeps(s: System)
    requires LeaderOk(s)
    ensures LeaderOk(LeadStep(s))
    ensures s.deltas <= LeadStep(s).deltas && LeadStep(s).readers == s.readers && (s.done ==> LeadStep(s) == s)
  {
    if s.leader.Pulling? && s.pos < |s.items| {
      assert s.items[s.pos..][0] == s.items[s.pos];
      assert s.items[s.pos..][1..] == s.items[s.pos + 1..];
    }
  }

  ghost predicate ReadersOk(s: System) {
    forall id | id in s.readers :: ReaderOk(s, s.readers[id])
  }

  lemma LeadKeepsReaders(s: System)
    requires LeaderOk(s) && ReadersOk(s)
    ensures ReadersOk(LeadStep(s))
  {
  }

  lemma RecvKeepsReaders(s: System, id: nat)
    requires ReadersOk(s)
    ensures ReadersOk(Apply(s, Recv(id))) && Apply(s, Recv(id)) == s.(readers := Apply(s, Recv(id)).readers)
  {
  }

  lemma JoinKeepsReaders(s: System, id: nat)
    requires ReadersOk(s)
    ensures ReadersOk(Apply(s, Join(id))) && Apply(s, Join(id)) == s.(readers := Apply(s, Join(id)).readers)
  {
  }

  lemma LeaderKept(s: System, s': System)
    requires LeaderOk(s) && s' == s.(readers := s'.readers)
    ensures LeaderOk(s') && s'.items == s.items
  {
    hide Content, Ending, Succeeds;
  }

  lemma {:induction false} RunKeeps(items: seq<Item>, actions: seq<Action>)
    ensures var s := Run(items, actions); s.items == items && LeaderOk(s) && ReadersOk(s)
  {
    if actions == [] {
      assert items[0..] == items;
    } else {
      var s := Run(items, actions[..|actions| - 1]);
      RunKeeps(items, actions[..|actions| - 1]);
      match actions[|actions| - 1]
      case Lead =>
        LeadKeeps(s);
        LeadKeepsReaders(s);
        LeadItems(s);
        hide LeaderOk, ReadersOk, LeadStep;
      case Join(id) =>
        JoinKeepsReaders(s, id);
        LeaderKept(s, Apply(s, Join(id)));
        hide LeaderOk, ReadersOk, Apply;
      case Recv(id) =>
        RecvKeepsReaders(s, id);
        LeaderKept(s, Apply(s, Recv(id)));
        hide LeaderOk, ReadersOk, Apply;
    }
  }

  lemma LeadItems(s: System)
    ensures LeadStep(s).items == s.items
  {
  }

  /**
   At every moment, each subscriber has received a prefix of what the call delivers, whenever it joined; one
   that reached the end has all of it and the call's own ending, so any two that ended agree.
   */
  lemma EverySubscriberSeesTheCall(items: seq<Item>, actions: seq<Action>, id: nat)
    requires id in Run(items, actions).readers
    ensures var r := Run(items, actions).readers[id];
      && r.received <= Content(items)
      && (r.ended.Some? ==> r.received == Content(items) && r.ended == Ending(items))
  {
    RunKeeps(items, actions);
    var s := Run(items, actions);
    assert ReaderOk(s, s.readers[id]);
    hide Run, Content, Ending, Succeeds;
  }

  /** The breaker hears of the call at most once, before any subscriber can see it end, and hears the truth. */
  lemma OneTrueReport(items: seq<Item>, actions: seq<Action>)
    ensures var s := Run(items, actions);
      && |s.reports| <= 1
      && (s.reports != [] ==> s.reports == [Succeeds(items)])
      && (s.done ==> s.reports == [Succeeds(items)])
      && (forall id | id in s.readers && s.readers[id].ended.Some? :: s.done)
  {
    RunKeeps(items, actions);
    var s := Run(items, actions);
    hide Run, Content, Ending, Succeeds;
    assert forall id | id in s.readers :: ReaderOk(s, s.readers[id]);
  }

  /** A successful call is one that ends cleanly on a final delta. */
  lemma {:induction false} SuccessMeansFinal(items: seq<Item>)
    ensures Succeeds(items) <==>
      Ending(items) == Some(Clean) && Content(items) != [] && Content(items)[|Content(items)| - 1].isFinal
  {
    if items != [] && items[0].Data? {
      SuccessMeansFinal(items[1..]);
    }
  }
}
