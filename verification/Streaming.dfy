/** One request's streamed answer: data-plane's handler with its metering, and the edge's relay to the client. */
module Streaming {
  import opened Prelude

  datatype ProviderDelta = ProviderDelta(
    content: Option<string>,
    finishReason: Option<string>,
    isFinal: bool,
    inputTokens: Option<int>,
    outputTokens: Option<int>)

  /** What reading the provider's stream yields; the sequence simply stopping is a clean end. */
  datatype Reply = Data(delta: ProviderDelta) | Fallback | RpcError

  /** A message from data-plane to the edge. */
  datatype Response = Response(content: Option<string>, finishReason: Option<string>, isFinal: bool)

  function MapDelta(d: ProviderDelta): Response {
    Response(d.content, d.finishReason, d.isFinal)
  }

  /** How far the handler gets before it would call the provider. */
  datatype Plan =
    | MissingIdentity
    | Overloaded
    | NeedsDeliberatePath
    | ModelNotFound
    | ProviderUnavailable
    | Dispatch(workerRef: string)

  datatype Effect =
    | Log(status: string) // a request_log row
    | Usage(modelRef: string, tokensIn: Option<int>, tokensOut: Option<int>) // a usage_event row
    | WriteMemory
    | DeleteMemory
    | Send(response: Response)
    | Abort
    | Release // the admission gauge is decremented

  // ----- The handler -----

  /** Non-final deltas from the front, as long as nothing else comes. */
  function Leading(replies: seq<Reply>): (n: nat)
    ensures n <= |replies|
    ensures forall i | 0 <= i < n :: replies[i].Data? && !replies[i].delta.isFinal
    ensures n < |replies| ==> !replies[n].Data? || replies[n].delta.isFinal
  {
    if replies == [] || !replies[0].Data? || replies[0].delta.isFinal then 0
    else
      var n := Leading(replies[1..]);
      assert forall i | 0 < i < |replies| :: replies[i] == replies[1..][i - 1];
      n + 1
  }

  /** The first `n` replies, all plain deltas, as they are passed on. */
  function Sends(replies: seq<Reply>, n: nat): (es: seq<Effect>)
    requires n <= |replies| && forall i | 0 <= i < n :: replies[i].Data?
    ensures |es| == n && forall i | 0 <= i < n :: es[i] == Send(MapDelta(replies[i].delta))
  {
    seq(n, i requires 0 <= i < n => Send(MapDelta(replies[i].delta)))
  }

  /** What happens once the plain deltas are through. */
  function Closing(worker: string, replies: seq<Reply>, n: nat): seq<Effect>
    requires n <= |replies|
  {
    if n == |replies| then [DeleteMemory, Log("ok"), Usage(worker, None, None)]
    else match replies[n]
      case Fallback => [Log("provider_fallback"), Abort]
      case RpcError => [Log("provider_stream_error"), Usage(worker, None, None), Abort]
      case Data(d) =>
        [DeleteMemory, Log("ok"), Usage(worker, d.inputTokens, d.outputTokens), Send(MapDelta(d))]
  }

  /**
   Everything the handler does, in order, when its consumer accepts `patience` messages and closes the stream
   right after the last of them. A handler whose consumer accepts none was never started.
   */
  function Handled(plan: Plan, replies: seq<Reply>, patience: nat): seq<Effect> {
    if patience == 0 then []
    else match plan
      case MissingIdentity => [Abort]
      case Overloaded => [Log("admission_shed"), Abort]
      case NeedsDeliberatePath => [Log("unsupported"), Abort, Release]
      case ModelNotFound => [WriteMemory, Log("model_not_found"), Abort, Release]
      case ProviderUnavailable => [WriteMemory, Log("provider_unavailable"), Abort, Release]
      case Dispatch(worker) =>
        var n := Leading(replies);
        if n >= patience then [WriteMemory] + Sends(replies, patience) + [Release]
        else [WriteMemory] + Sends(replies, n) + Closing(worker, replies, n) + [Release]
  }

  /** The status a request's log row has, by how far it gets and how its stream closes. */
  predicate StatusIs(plan: Plan, replies: seq<Reply>, status: string) {
    match plan
    case MissingIdentity => false
    case Overloaded => status == "admission_shed"
    case NeedsDeliberatePath => status == "unsupported"
    case ModelNotFound => status == "model_not_found"
    case ProviderUnavailable => status == "provider_unavailable"
    case Dispatch(_) =>
      var n := Leading(replies);
      if n == |replies| then status == "ok"
      else match replies[n]
        case Data(_) => status == "ok"
        case Fallback => status == "provider_fallback"
        case RpcError => status == "provider_stream_error"
  }

  /** A usage row bills the dispatched worker, and only a final delta's own token counts, absent ones left absent. */
  predicate UsageIs(plan: Plan, replies: seq<Reply>, modelRef: string, tokensIn: Option<int>, tokensOut: Option<int>) {
    && plan.Dispatch? && modelRef == plan.workerRef
    && var n := Leading(replies);
    if n < |replies| && replies[n].Data? then
      tokensIn == replies[n].delta.inputTokens && tokensOut == replies[n].delta.outputTokens
    else tokensIn == None && tokensOut == None
  }

  /**
   What the books say: rows of the right status and usage; working memory written first, for every request that
   got past classification, and deleted exactly for one logged as ok; no abort before the row, except when there
   is nobody to log it for.
   */
  ghost predicate Books(plan: Plan, replies: seq<Reply>, trace: seq<Effect>) {
    && (forall i | 0 <= i < |trace| && trace[i].Log? :: StatusIs(plan, replies, trace[i].status))
    && (forall i | 0 <= i < |trace| && trace[i].Usage? ::
          UsageIs(plan, replies, trace[i].modelRef, trace[i].tokensIn, trace[i].tokensOut))
    && (WriteMemory in trace <==> plan.ModelNotFound? || plan.ProviderUnavailable? || plan.Dispatch?)
    && (forall i | 0 <= i < |trace| && trace[i] == WriteMemory :: i == 0)
    && (DeleteMemory in trace <==> Log("ok") in trace)
    && (forall i | 0 <= i < |trace| && trace[i] == Abort ::
          plan.MissingIdentity? || exists j :: 0 <= j < i && trace[j].Log?)
  }

  /** Message k carries what delta k of the provider carried. */
  predicate CarriesDeltas(replies: seq<Reply>, sent: seq<Response>) {
    |sent| <= |replies| && forall k | 0 <= k < |sent| ::
      && replies[k].Data?
      && sent[k].content == replies[k].delta.content && sent[k].finishReason == replies[k].delta.finishReason
      && sent[k].isFinal == replies[k].delta.isFinal
  }

  /** From the dispatch on: hold the final message back, meter, then send it; always release. */
  method StreamThrough(worker: string, replies: seq<Reply>, patience: nat) returns (trace: seq<Effect>)
    requires patience > 0
    ensures trace == Handled(Dispatch(worker), replies, patience)
  {
    hide Leading, Sends;
    trace := [WriteMemory];
    var usage: Option<(Option<int>, Option<int>)> := None;
    var final: Option<Response> := None;
    var i := 0;
    while i < |replies|
      invariant 0 <= i <= |replies|
      invariant i <= Leading(replies) && i < patience
      invariant trace == [WriteMemory] + Sends(replies, i)
      invariant usage.None? && final.None?
    {
      match replies[i]
      case Fallback =>
        return trace + [Log("provider_fallback"), Abort] + [Release];
      case RpcError =>
        return trace + [Log("provider_stream_error"), Usage(worker, None, None), Abort] + [Release];
      case Data(d) =>
        if d.isFinal {
          usage := Some((d.inputTokens, d.outputTokens));
          final := Some(MapDelta(d));
          break;
        }
        trace := trace + [Send(MapDelta(d))];
        assert trace == [WriteMemory] + Sends(replies, i + 1);
        i := i + 1;
        if i == patience {
          return trace + [Release];
        }
    }
    trace := trace + [DeleteMemory, Log("ok")];
    if usage.Some? {
      trace := trace + [Usage(worker, usage.value.0, usage.value.1)];
    } else {
      trace := trace + [Usage(worker, None, None)];
    }
    if final.Some? {
      trace := trace + [Send(final.value)];
    }
    trace := trace + [Release];
  }

  /** The handler as it runs. */
  method Submit(plan: Plan, replies: seq<Reply>, patience: nat) returns (trace: seq<Effect>)
    requires patience > 0
    ensures trace == Handled(plan, replies, patience)
    ensures Books(plan, replies, trace) && CarriesDeltas(replies, Sent(trace))
  {
    hide Books, CarriesDeltas, Sent;
    match plan {
      case MissingIdentity => trace := [Abort];
      case Overloaded => trace := [Log("admission_shed"), Abort];
      case NeedsDeliberatePath => trace := [Log("unsupported"), Abort, Release];
      case ModelNotFound => trace := [WriteMemory, Log("model_not_found"), Abort, Release];
      case ProviderUnavailable => trace := [WriteMemory, Log("provider_unavailable"), Abort, Release];
      case Dispatch(worker) => trace := StreamThrough(worker, replies, patience);
    }
    HandledBooks(plan, replies, patience);
    HandledCarries(plan, replies, patience);
  }

  // ----- What the consumer and the books see -----

  /** The deltas a request's consumer may see: one for one, through the first final one. */
  function Deliverable(replies: seq<Reply>): seq<Response> {
    if replies == [] || !replies[0].Data? then []
    else if replies[0].delta.isFinal then [MapDelta(replies[0].delta)]
    else [MapDelta(replies[0].delta)] + Deliverable(replies[1..])
  }

  function Sent(trace: seq<Effect>): seq<Response> {
    if trace == [] then []
    else (if trace[0].Send? then [trace[0].response] else []) + Sent(trace[1..])
  }

  function Count(trace: seq<Effect>, p: Effect -> bool): nat {
    if trace == [] then 0 else (if p(trace[0]) then 1 else 0) + Count(trace[1..], p)
  }

  lemma {:induction false} SentAppend(a: seq<Effect>, b: seq<Effect>)
    ensures Sent(a + b) == Sent(a) + Sent(b)
  {
    if a == [] {
      assert a + b == b;
    } else {
      hide Sent;
      SentFirst(a);
      SentFirst(a + b);
      assert (a + b)[0] == a[0] && (a + b)[1..] == a[1..] + b;
      SentAppend(a[1..], b);
    }
  }

  lemma SentFirst(trace: seq<Effect>)
    requires trace != []
    ensures Sent(trace) == (if trace[0].Send? then [trace[0].response] else []) + Sent(trace[1..])
  {
  }

  lemma {:induction false} CountAppend(a: seq<Effect>, b: seq<Effect>, p: Effect -> bool)
    ensures Count(a + b, p) == Count(a, p) + Count(b, p)
  {
    if a == [] {
      assert a + b == b;
    } else {
      assert (a + b)[1..] == a[1..] + b;
      CountAppend(a[1..], b, p);
    }
  }

  lemma {:induction false} SentOfSends(replies: seq<Reply>, n: nat)
    requires n <= Leading(replies)
    ensures |Sent(Sends(replies, n))| == n && Sent(Sends(replies, n)) <= Deliverable(replies)
  {
    if n > 0 {
      SentOfSends(replies[1..], n - 1);
      assert Sends(replies, n)[1..] == Sends(replies[1..], n - 1);
    }
  }

  /** Once the plain deltas are through, only the final one is left to deliver, if there is one. */
  lemma {:induction false} DeliverableIs(replies: seq<Reply>)
    ensures var n := Leading(replies);
      Deliverable(replies) == Sent(Sends(replies, n)) +
        if n < |replies| && replies[n].Data? then [MapDelta(replies[n].delta)] else []
  {
    if Leading(replies) > 0 {
      DeliverableIs(replies[1..]);
      assert Sends(replies, Leading(replies))[1..] == Sends(replies[1..], Leading(replies) - 1);
    }
  }

  /**
   Wherever the consumer stops, it has received a prefix of the deliverable deltas, one for one and in order;
   a patient consumer receives them all.
   */
  lemma DeliversPrefix(plan: Plan, replies: seq<Reply>, patience: nat)
    ensures Sent(Handled(plan, replies, patience)) <= Deliverable(replies)
    ensures plan.Dispatch? ==>
      |Sent(Handled(plan, replies, patience))| == Min(patience, |Deliverable(replies)|)
  {
    if plan.Dispatch? && patience > 0 {
      if Leading(replies) >= patience {
        DeliversAllRead(plan.workerRef, replies, patience);
      } else {
        DeliversEverything(plan.workerRef, replies, patience);
      }
      hide Handled, Leading, Deliverable;
    } else {
      HandledElsewhere(plan, replies, patience);
    }
  }

  lemma DeliversAllRead(worker: string, replies: seq<Reply>, patience: nat)
    requires 0 < patience <= Leading(replies)
    ensures var sent := Sent(Handled(Dispatch(worker), replies, patience));
      sent <= Deliverable(replies) && |sent| == patience
  {
    SentOfSends(replies, patience);
    SentBetween(Sends(replies, patience));
    hide Sent, Leading, Deliverable, Closing;
  }

  lemma DeliversEverything(worker: string, replies: seq<Reply>, patience: nat)
    requires Leading(replies) < patience
    ensures Sent(Handled(Dispatch(worker), replies, patience)) == Deliverable(replies)
    ensures |Deliverable(replies)| <= patience
  {
    var n := Leading(replies);
    var sends, closing := Sends(replies, n), Closing(worker, replies, n);
    assert Handled(Dispatch(worker), replies, patience) == [WriteMemory] + (sends + closing) + [Release];
    hide Handled, Sent, Leading, Deliverable, Closing, Sends;
    DeliverableIs(replies);
    SentOfSends(replies, n);
    SentOfClosing(worker, replies, n);
    SentBetween(sends + closing);
    SentAppend(sends, closing);
  }

  /** Writing the working memory first and releasing last sends nothing. */
  lemma SentBetween(middle: seq<Effect>)
    ensures Sent([WriteMemory] + middle + [Release]) == Sent(middle)
  {
    SentAppend([WriteMemory] + middle, [Release]);
    SentAppend([WriteMemory], middle);
    NoSend([WriteMemory]);
    NoSend([Release]);
    hide Sent;
  }

  lemma {:induction false} NoSend(trace: seq<Effect>)
    requires forall i | 0 <= i < |trace| :: !trace[i].Send?
    ensures Sent(trace) == []
  {
    if trace != [] {
      NoSend(trace[1..]);
    }
  }

  lemma SentOfClosing(worker: string, replies: seq<Reply>, n: nat)
    requires n <= |replies|
    ensures Sent(Closing(worker, replies, n)) ==
      if n < |replies| && replies[n].Data? then [MapDelta(replies[n].delta)] else []
  {
    if n < |replies| && replies[n].Data? {
      var d := replies[n].delta;
      var front := [DeleteMemory, Log("ok"), Usage(worker, d.inputTokens, d.outputTokens)];
      assert Closing(worker, replies, n) == front + [Send(MapDelta(d))];
      SentAppend(front, [Send(MapDelta(d))]);
      NoSend(front);
    } else {
      NoSend(Closing(worker, replies, n));
    }
  }

  lemma HandledElsewhere(plan: Plan, replies: seq<Reply>, patience: nat)
    requires !plan.Dispatch? || patience == 0
    ensures Sent(Handled(plan, replies, patience)) == []
  {
    NoSend(Handled(plan, replies, patience));
  }

  /**
   A consumer that has the final chunk can rely on the books: before it was sent, the request was logged as ok
   and exactly that chunk's token counts, absent ones left absent, were recorded against the worker.
   */
  lemma FinalChunkAlreadyMetered(worker: string, replies: seq<Reply>, patience: nat, i: nat)
    requires var trace := Handled(Dispatch(worker), replies, patience);
      i < |trace| && trace[i].Send? && trace[i].response.isFinal
    ensures var trace, n := Handled(Dispatch(worker), replies, patience), Leading(replies);
      && n < |replies| && replies[n].Data? && trace[i].response == MapDelta(replies[n].delta)
      && i >= 3 && trace[i - 2] == Log("ok")
      && trace[i - 1] == Usage(worker, replies[n].delta.inputTokens, replies[n].delta.outputTokens)
      && i + 2 == |trace| && trace[i + 1] == Release
  {
    var trace, n := Handled(Dispatch(worker), replies, patience), Leading(replies);
    if n >= patience {
      assert trace == [WriteMemory] + Sends(replies, patience) + [Release];
      NoFinalSend(replies, patience, [Release]);
      hide Handled, Sends, Leading;
      assert false;
    } else {
      var closing := Closing(worker, replies, n);
      assert trace == [WriteMemory] + Sends(replies, n) + (closing + [Release]);
      NoFinalSend(replies, n, closing + [Release]);
      hide Handled, Sends, Leading;
      assert forall k | n + 1 <= k < |trace| :: trace[k] == (closing + [Release])[k - n - 1];
    }
  }

  lemma NoFinalSend(replies: seq<Reply>, n: nat, rest: seq<Effect>)
    requires n <= Leading(replies)
    ensures var trace := [WriteMemory] + Sends(replies, n) + rest;
      forall i | 0 <= i < |trace| && trace[i].Send? && trace[i].response.isFinal :: i > n
  {
  }

  lemma HandledCarries(plan: Plan, replies: seq<Reply>, patience: nat)
    ensures CarriesDeltas(replies, Sent(Handled(plan, replies, patience)))
  {
    DeliversPrefix(plan, replies, patience);
    DeliverableCarries(replies);
    hide Handled, Sent, Deliverable;
  }

  lemma {:induction false} DeliverableCarries(replies: seq<Reply>)
    ensures CarriesDeltas(replies, Deliverable(replies))
  {
    if replies != [] && replies[0].Data? && !replies[0].delta.isFinal {
      DeliverableCarries(replies[1..]);
      assert forall k | 0 < k < |replies| :: replies[k] == replies[1..][k - 1];
    }
  }

  lemma HandledBooks(plan: Plan, replies: seq<Reply>, patience: nat)
    requires patience > 0
    ensures Books(plan, replies, Handled(plan, replies, patience))
  {
    if plan.Dispatch? {
      var n := Leading(replies);
      if n >= patience {
        BooksAround(plan, replies, patience, [Release]);
      } else {
        ClosingBooks(plan.workerRef, replies);
        var rest := Closing(plan.workerRef, replies, n) + [Release];
        assert Handled(plan, replies, patience) == [WriteMemory] + Sends(replies, n) + rest;
        hide Handled, Leading, Closing, Books;
        BooksAround(plan, replies, n, rest);
      }
    } else {
      var trace := Handled(plan, replies, patience);
      assert |trace| > 1 ==> trace[|trace| - 1] == Release || trace[|trace| - 1] == Abort;
      RefusalBooks(plan, replies, patience);
    }
  }

  lemma RefusalBooks(plan: Plan, replies: seq<Reply>, patience: nat)
    requires patience > 0 && !plan.Dispatch?
    ensures Books(plan, replies, Handled(plan, replies, patience))
  {
    var trace := Handled(plan, replies, patience);
    assert plan.ModelNotFound? || plan.ProviderUnavailable? ==> trace[0] == WriteMemory;
    assert |trace| >= 2 && !plan.ModelNotFound? && !plan.ProviderUnavailable? ==> trace[0].Log?;
    assert plan.ModelNotFound? || plan.ProviderUnavailable? ==> trace[1].Log?;
  }

  /** What the closing of a dispatched request says, as books of its own. */
  ghost predicate RestBooks(plan: Plan, replies: seq<Reply>, rest: seq<Effect>) {
    && (forall i | 0 <= i < |rest| && rest[i].Log? :: StatusIs(plan, replies, rest[i].status))
    && (forall i | 0 <= i < |rest| && rest[i].Usage? ::
          UsageIs(plan, replies, rest[i].modelRef, rest[i].tokensIn, rest[i].tokensOut))
    && WriteMemory !in rest
    && (DeleteMemory in rest <==> Log("ok") in rest)
    && (forall i | 0 <= i < |rest| && rest[i] == Abort :: exists j :: 0 <= j < i && rest[j].Log?)
  }

  lemma ClosingBooks(worker: string, replies: seq<Reply>)
    ensures RestBooks(Dispatch(worker), replies, Closing(worker, replies, Leading(replies)) + [Release])
  {
    var n := Leading(replies);
    var rest := Closing(worker, replies, n) + [Release];
    if n == |replies| || replies[n].Data? {
      assert rest[0] == DeleteMemory && rest[1] == Log("ok");
    } else {
      assert rest[0].Log? && rest[0] != Log("ok");
    }
    hide Leading;
  }

  lemma BooksAround(plan: Plan, replies: seq<Reply>, n: nat, rest: seq<Effect>)
    requires plan.Dispatch? && n <= Leading(replies) && RestBooks(plan, replies, rest)
    ensures Books(plan, replies, [WriteMemory] + Sends(replies, n) + rest)
  {
    var trace := [WriteMemory] + Sends(replies, n) + rest;
    hide Leading, StatusIs, UsageIs, Sends;
    assert forall i | 0 < i <= n :: trace[i].Send?;
    assert forall i | n < i < |trace| :: trace[i] == rest[i - n - 1];
    assert forall j | 0 <= j < |rest| :: trace[n + 1 + j] == rest[j];
    assert trace[0] == WriteMemory;
    BooksFrom(plan, replies, n, rest, trace);
  }

  lemma BooksFrom(plan: Plan, replies: seq<Reply>, n: nat, rest: seq<Effect>, trace: seq<Effect>)
    requires plan.Dispatch? && RestBooks(plan, replies, rest)
    requires |trace| == n + 1 + |rest| && trace[0] == WriteMemory
    requires forall i | 0 < i <= n :: trace[i].Send?
    requires forall i | n < i < |trace| :: trace[i] == rest[i - n - 1]
    requires forall j | 0 <= j < |rest| :: trace[n + 1 + j] == rest[j]
    ensures Books(plan, replies, trace)
  {
    hide StatusIs, UsageIs;
    forall i | 0 <= i < |trace| && trace[i] == Abort ensures exists j :: 0 <= j < i && trace[j].Log? {
      var j :| 0 <= j < i - n - 1 && rest[j].Log?;
      assert trace[n + 1 + j].Log?;
    }
  }

  /** Everything except the sends of plain deltas, which change no books. */
  lemma {:induction false} SendsCountNothing(replies: seq<Reply>, n: nat, p: Effect -> bool)
    requires n <= Leading(replies) && forall r :: !p(Send(r))
    ensures Count(Sends(replies, n), p) == 0
  {
    if n > 0 {
      SendsCountNothing(replies[1..], n - 1, p);
      assert Sends(replies, n)[1..] == Sends(replies[1..], n - 1);
    }
  }

  lemma HandledCounts(worker: string, replies: seq<Reply>, patience: nat, p: Effect -> bool)
    requires patience > 0 && forall r :: !p(Send(r))
    ensures var n := Leading(replies);
      Count(Handled(Dispatch(worker), replies, patience), p) ==
        Count([WriteMemory], p) + (if n >= patience then 0 else Count(Closing(worker, replies, n), p)) + Count([Release], p)
  {
    var n := Leading(replies);
    if n >= patience {
      CountAppend([WriteMemory] + Sends(replies, patience), [Release], p);
      CountAppend([WriteMemory], Sends(replies, patience), p);
      SendsCountNothing(replies, patience, p);
    } else {
      var closing := Closing(worker, replies, n);
      CountAppend([WriteMemory] + Sends(replies, n) + closing, [Release], p);
      CountAppend([WriteMemory] + Sends(replies, n), closing, p);
      CountAppend([WriteMemory], Sends(replies, n), p);
      SendsCountNothing(replies, n, p);
    }
  }

  function IsRelease(): Effect -> bool {
    (e: Effect) => e.Release?
  }

  function IsLog(): Effect -> bool {
    (e: Effect) => e.Log?
  }

  function IsUsage(): Effect -> bool {
    (e: Effect) => e.Usage?
  }

  /** Whether `p` holds at `i`, as a count. */
  function Hit(trace: seq<Effect>, i: nat, p: Effect -> bool): nat {
    if i < |trace| && p(trace[i]) then 1 else 0
  }

  lemma ShortCount(trace: seq<Effect>, p: Effect -> bool)
    requires |trace| <= 4
    ensures Count(trace, p) == Hit(trace, 0, p) + Hit(trace, 1, p) + Hit(trace, 2, p) + Hit(trace, 3, p)
  {
  }

  /** An admitted request gives its slot back exactly once, as its last effect; others never had one. */
  lemma ReleasedExactlyOnce(plan: Plan, replies: seq<Reply>, patience: nat)
    requires patience > 0
    ensures var trace := Handled(plan, replies, patience);
      var admitted := !plan.MissingIdentity? && !plan.Overloaded?;
      && Count(trace, IsRelease()) == (if admitted then 1 else 0)
      && (admitted ==> trace != [] && trace[|trace| - 1] == Release)
  {
    var p := IsRelease();
    if plan.Dispatch? {
      HandledCounts(plan.workerRef, replies, patience, p);
      ShortCount(Closing(plan.workerRef, replies, Leading(replies)), p);
      ShortCount([WriteMemory], p);
      ShortCount([Release], p);
      assert Handled(plan, replies, patience)[|Handled(plan, replies, patience)| - 1] == Release;
      hide Handled, Leading, Count, Sends;
    } else {
      ShortCount(Handled(plan, replies, patience), p);
    }
  }

  /** One log row per request that was identified and whose stream closed, and never a second one. */
  lemma LoggedOnce(plan: Plan, replies: seq<Reply>, patience: nat)
    requires patience > 0
    ensures Count(Handled(plan, replies, patience), IsLog()) ==
      if plan.MissingIdentity? || (plan.Dispatch? && Leading(replies) >= patience) then 0 else 1
  {
    var p := IsLog();
    if plan.Dispatch? {
      HandledCounts(plan.workerRef, replies, patience, p);
      ShortCount([WriteMemory], p);
      ShortCount([Release], p);
      ShortCount(Closing(plan.workerRef, replies, Leading(replies)), p);
      hide Handled, Leading, Count;
    } else {
      ShortCount(Handled(plan, replies, patience), p);
    }
  }

  /**
   One usage row exactly for a request that a provider answered through to a close: none when the consumer left
   earlier or the provider declined.
   */
  lemma MeteredOnce(plan: Plan, replies: seq<Reply>, patience: nat)
    requires patience > 0
    ensures Count(Handled(plan, replies, patience), IsUsage()) ==
      if plan.Dispatch? && Leading(replies) < patience && !Declined(replies) then 1 else 0
  {
    var p := IsUsage();
    if plan.Dispatch? {
      HandledCounts(plan.workerRef, replies, patience, p);
      ShortCount([WriteMemory], p);
      ShortCount([Release], p);
      UsageOfClosing(plan.workerRef, replies);
      hide Handled, Leading, Count, Closing;
    } else {
      ShortCount(Handled(plan, replies, patience), p);
    }
  }

  /** The provider answered that it cannot serve the request. */
  predicate Declined(replies: seq<Reply>) {
    Leading(replies) < |replies| && replies[Leading(replies)].Fallback?
  }

  lemma UsageOfClosing(worker: string, replies: seq<Reply>)
    ensures Count(Closing(worker, replies, Leading(replies)), IsUsage()) == if Declined(replies) then 0 else 1
  {
    ShortCount(Closing(worker, replies, Leading(replies)), IsUsage());
    hide Count, Leading;
  }

  // ----- The edge relay -----

  /** Messages from data-plane; an error ends the stream. */
  datatype Upstream = Message(response: Response) | StatusError

  datatype Chunk = Chunk(content: Option<string>, finishReason: Option<string>)

  function ToChunk(r: Response): Chunk {
    Chunk(r.content, r.finishReason)
  }

  const ERROR_CHUNK := Chunk(None, Some("error"))

  /** One chunk per message through the first final one; an error becomes one closing chunk. */
  function ToChunks(upstream: seq<Upstream>): seq<Chunk> {
    if upstream == [] then []
    else match upstream[0]
      case StatusError => [ERROR_CHUNK]
      case Message(r) => [ToChunk(r)] + (if r.isFinal then [] else ToChunks(upstream[1..]))
  }

  function LastReason(chunks: seq<Chunk>): string {
    if chunks == [] then "unknown"
    else match chunks[|chunks| - 1].finishReason
      case Some(reason) => reason
      case None => LastReason(chunks[..|chunks| - 1])
  }

  datatype EdgeEffect = Event(chunk: Chunk) | Meter(finishReason: string) | DropGuard | BadGateway

  function Events(chunks: seq<Chunk>): (es: seq<EdgeEffect>)
    ensures |es| == |chunks| && forall i | 0 <= i < |chunks| :: es[i] == Event(chunks[i])
  {
    seq(|chunks|, i requires 0 <= i < |chunks| => Event(chunks[i]))
  }

  /** Everything the edge does for a client that reads `patience` events; one that leaves drops what is owned. */
  function Relayed(upstream: seq<Upstream>, patience: nat): seq<EdgeEffect> {
    var chunks := ToChunks(upstream);
    if patience > |chunks| then Events(chunks) + [Meter(LastReason(chunks)), DropGuard]
    else Events(chunks[..patience]) + [DropGuard]
  }

  predicate GoesOn(u: Upstream) {
    u.Message? && !u.response.isFinal
  }

  /** The chunk a client is shown for an upstream item. */
  predicate Shows(chunk: Chunk, u: Upstream) {
    match u
    case Message(r) => chunk.content == r.content && chunk.finishReason == r.finishReason
    case StatusError => chunk.content == None && chunk.finishReason == Some("error")
  }

  /** `reason` is what the last of the first `n` events that gave one gave, or "unknown". */
  ghost predicate LastGiven(trace: seq<EdgeEffect>, n: nat, reason: string)
    requires n <= |trace| && forall i | 0 <= i < n :: trace[i].Event?
  {
    || (exists i :: 0 <= i < n && trace[i].chunk.finishReason == Some(reason)
                    && forall j | i < j < n :: trace[j].chunk.finishReason == None)
    || (reason == "unknown" && forall j | 0 <= j < n :: trace[j].chunk.finishReason == None)
  }

  /**
   What a relay owes its client and its gateway: one chunk for each of the `taken` items it read, no reading
   past a final message or an error; a drained stream, and only that, is metered once with the last reason given;
   the guard goes exactly once, last.
   */
  ghost predicate Relays(upstream: seq<Upstream>, patience: nat, trace: seq<EdgeEffect>, taken: nat) {
    && taken <= |upstream| && taken <= patience
    && |trace| == taken + (if taken < patience then 2 else 1)
    && (forall i | 0 <= i < taken :: trace[i].Event? && Shows(trace[i].chunk, upstream[i]))
    && (forall i | 0 <= i < taken - 1 :: GoesOn(upstream[i]))
    && trace[|trace| - 1] == DropGuard
    && (taken < patience ==>
          && (taken == |upstream| || (taken > 0 && !GoesOn(upstream[taken - 1])))
          && trace[taken].Meter? && LastGiven(trace, taken, trace[taken].finishReason))
  }

  lemma {:induction false} ToChunksShow(upstream: seq<Upstream>)
    ensures var chunks := ToChunks(upstream);
      && |chunks| <= |upstream|
      && (forall i | 0 <= i < |chunks| :: Shows(chunks[i], upstream[i]))
      && (forall i | 0 <= i < |chunks| - 1 :: GoesOn(upstream[i]))
      && (|chunks| == |upstream| || (|chunks| > 0 && !GoesOn(upstream[|chunks| - 1])))
  {
    if upstream != [] && GoesOn(upstream[0]) {
      ToChunksShow(upstream[1..]);
      assert forall i | 0 < i < |upstream| :: upstream[i] == upstream[1..][i - 1];
    }
  }

  lemma {:induction false} LastReasonGiven(chunks: seq<Chunk>, trace: seq<EdgeEffect>)
    requires |chunks| <= |trace| && forall i | 0 <= i < |chunks| :: trace[i] == Event(chunks[i])
    ensures LastGiven(trace, |chunks|, LastReason(chunks))
  {
    if chunks != [] && chunks[|chunks| - 1].finishReason.None? {
      LastReasonGiven(chunks[..|chunks| - 1], trace);
    }
  }

  lemma RelayedRelays(upstream: seq<Upstream>, patience: nat)
    ensures Relays(upstream, patience, Relayed(upstream, patience), Min(patience, |ToChunks(upstream)|))
  {
    var chunks := ToChunks(upstream);
    var trace := Relayed(upstream, patience);
    var taken := Min(patience, |chunks|);
    ToChunksShow(upstream);
    assert |trace| == taken + (if taken < patience then 2 else 1) && trace[|trace| - 1] == DropGuard;
    assert forall i | 0 <= i < taken :: trace[i] == Event(chunks[i]);
    if taken < patience {
      assert trace[taken] == Meter(LastReason(chunks));
      LastReasonGiven(chunks, trace);
    }
    hide *;
    RelaysOf(upstream, patience, chunks, trace, taken);
  }

  lemma RelaysOf(upstream: seq<Upstream>, patience: nat, chunks: seq<Chunk>, trace: seq<EdgeEffect>, taken: nat)
    requires taken == Min(patience, |chunks|) && |chunks| <= |upstream|
    requires |trace| == taken + (if taken < patience then 2 else 1) && trace[|trace| - 1] == DropGuard
    requires forall i | 0 <= i < taken :: trace[i] == Event(chunks[i])
    requires forall i | 0 <= i < |chunks| :: Shows(chunks[i], upstream[i])
    requires forall i | 0 <= i < |chunks| - 1 :: GoesOn(upstream[i])
    requires |chunks| == |upstream| || (|chunks| > 0 && !GoesOn(upstream[|chunks| - 1]))
    requires taken < patience ==> trace[taken].Meter? && LastGiven(trace, taken, trace[taken].finishReason)
    ensures Relays(upstream, patience, trace, taken)
  {
    hide Shows, GoesOn, LastGiven;
  }

  /** The relay loop over the converted chunks; `taken` counts the upstream items it read. */
  method Relay(upstream: seq<Upstream>, patience: nat) returns (trace: seq<EdgeEffect>, taken: nat)
    ensures trace == Relayed(upstream, patience) && taken == Min(patience, |ToChunks(upstream)|)
    ensures Relays(upstream, patience, trace, taken)
  {
    hide Relays;
    ghost var chunks := ToChunks(upstream);
    trace := [];
    taken := 0;
    if patience == 0 {
      assert Events(chunks[..0]) + [DropGuard] == [DropGuard];
      RelayedRelays(upstream, patience);
      return [DropGuard], 0;
    }
    var last := "unknown";
    var open := true;
    assert upstream[0..] == upstream;
    while open && taken < |upstream|
      invariant 0 <= taken <= |upstream| && taken < patience && taken <= |chunks|
      invariant trace == Events(chunks[..taken])
      invariant last == LastReason(chunks[..taken])
      invariant open ==> chunks == chunks[..taken] + ToChunks(upstream[taken..])
      invariant !open ==> taken == |chunks|
      decreases |upstream| - taken, open
    {
      assert upstream[taken..][0] == upstream[taken] && upstream[taken..][1..] == upstream[taken + 1..];
      var chunk := ERROR_CHUNK;
      match upstream[taken] {
        case StatusError =>
          open := false;
        case Message(r) =>
          chunk := ToChunk(r);
          open := !r.isFinal;
      }
      ghost var rest := if open then ToChunks(upstream[taken + 1..]) else [];
      assert ToChunks(upstream[taken..]) == [chunk] + rest;
      OneMore(chunks, taken, chunk, rest);
      hide ToChunks, LastReason, Events;
      if chunk.finishReason.Some? {
        last := chunk.finishReason.value;
      }
      trace := trace + [Event(chunk)];
      taken := taken + 1;
      if taken == patience {
        trace := trace + [DropGuard];
        RelayedRelays(upstream, patience);
        return;
      }
    }
    assert chunks[..taken] == chunks;
    trace := trace + [Meter(last), DropGuard];
    RelayedRelays(upstream, patience);
  }

  /** What relaying one chunk more means for the record kept so far. */
  lemma OneMore(chunks: seq<Chunk>, taken: nat, chunk: Chunk, rest: seq<Chunk>)
    requires taken <= |chunks| && chunks == chunks[..taken] + ([chunk] + rest)
    ensures |chunks| == taken + 1 + |rest| && chunks == chunks[..taken + 1] + rest
    ensures Events(chunks[..taken + 1]) == Events(chunks[..taken]) + [Event(chunk)]
    ensures LastReason(chunks[..taken + 1]) ==
      if chunk.finishReason.Some? then chunk.finishReason.value else LastReason(chunks[..taken])
  {
    assert chunks[taken] == chunk;
    assert chunks[..taken + 1] == chunks[..taken] + [chunk];
    assert chunks[..taken + 1][..taken] == chunks[..taken];
  }

  // ----- Both hops -----

  /** What the edge reads: the messages sent, and an error where the handler aborts. */
  function EdgeReads(trace: seq<Effect>): seq<Upstream> {
    if trace == [] then []
    else (match trace[0]
          case Send(r) => [Message(r)]
          case Abort => [StatusError]
          case _ => [])
         + EdgeReads(trace[1..])
  }

  predicate Aborted(trace: seq<Effect>) {
    Abort in trace
  }

  /**
   The edge's answer. When a call is aborted before any message, the transport may report that from the call
   itself (`early`), and the client gets an error response with no stream.
   */
  function Answer(trace: seq<Effect>, early: bool, patience: nat): seq<EdgeEffect> {
    if early && Aborted(trace) && Sent(trace) == [] then [Meter("error"), DropGuard, BadGateway]
    else Relayed(EdgeReads(trace), patience)
  }

  /**
   The edge's handling of a submitted call. A call refused outright is metered as an error, gives its guard back
   and is answered with an error response, in this order and with nothing else; any other is relayed.
   */
  method SubmitAndRelay(trace: seq<Effect>, early: bool, patience: nat)
    returns (answer: seq<EdgeEffect>, taken: nat)
    ensures answer == Answer(trace, early, patience)
    ensures if early && Abort in trace && (forall i | 0 <= i < |trace| :: !trace[i].Send?)
            then answer == [Meter("error"), DropGuard, BadGateway]
            else Relays(EdgeReads(trace), patience, answer, taken)
  {
    NothingSentIff(trace);
    hide Relays, EdgeReads, Relayed, Sent, ToChunks;
    if early && Aborted(trace) && Sent(trace) == [] {
      return [Meter("error"), DropGuard, BadGateway], 0;
    }
    answer, taken := Relay(EdgeReads(trace), patience);
  }

  lemma {:induction false} NothingSentIff(trace: seq<Effect>)
    ensures Sent(trace) == [] <==> forall i | 0 <= i < |trace| :: !trace[i].Send?
  {
    if trace != [] {
      NothingSentIff(trace[1..]);
      assert forall i | 0 < i < |trace| :: trace[i] == trace[1..][i - 1];
    }
  }

  function Received(trace: seq<EdgeEffect>): seq<Chunk> {
    if trace == [] then []
    else (if trace[0].Event? then [trace[0].chunk] else []) + Received(trace[1..])
  }

  function AsUpstream(sent: seq<Response>): seq<Upstream> {
    if sent == [] then [] else [Message(sent[0])] + AsUpstream(sent[1..])
  }

  function AsChunks(rs: seq<Response>): (cs: seq<Chunk>)
    ensures |cs| == |rs| && forall i | 0 <= i < |rs| :: cs[i] == ToChunk(rs[i])
  {
    seq(|rs|, i requires 0 <= i < |rs| => ToChunk(rs[i]))
  }

  lemma {:induction false} EdgeReadsAppend(a: seq<Effect>, b: seq<Effect>)
    ensures EdgeReads(a + b) == EdgeReads(a) + EdgeReads(b)
  {
    if a == [] {
      assert a + b == b;
    } else {
      EdgeReadsFirst(a);
      EdgeReadsFirst(a + b);
      assert (a + b)[0] == a[0] && (a + b)[1..] == a[1..] + b;
      EdgeReadsAppend(a[1..], b);
      hide EdgeReads;
    }
  }

  function ReadOf(e: Effect): seq<Upstream> {
    EdgeReads([e])
  }

  lemma EdgeReadsFirst(trace: seq<Effect>)
    requires trace != []
    ensures EdgeReads(trace) == ReadOf(trace[0]) + EdgeReads(trace[1..])
  {
    assert [trace[0]][1..] == [];
  }

  /** A handler aborts for every refusal, and for a stream that closes on a refusal or an error; then it sends no more. */
  lemma AbortsIff(plan: Plan, replies: seq<Reply>, patience: nat)
    ensures Aborted(Handled(plan, replies, patience)) <==>
      patience > 0 && (plan.Dispatch? ==>
        var n := Leading(replies); n < patience && n < |replies| && !replies[n].Data?)
  {
    if plan.Dispatch? && patience > 0 {
      var n := Leading(replies);
      ClosingAborts(plan.workerRef, replies, n);
      var sends := Sends(replies, Min(n, patience));
      assert Abort !in sends;
      hide Leading, Closing, Sends;
    }
  }

  lemma ClosingAborts(worker: string, replies: seq<Reply>, n: nat)
    requires n <= |replies|
    ensures Abort in Closing(worker, replies, n) <==> n < |replies| && !replies[n].Data?
  {
  }

  predicate Unread(trace: seq<Effect>) {
    forall i | 0 <= i < |trace| :: !trace[i].Send? && trace[i] != Abort
  }

  lemma {:induction false} NothingRead(trace: seq<Effect>)
    requires Unread(trace)
    ensures EdgeReads(trace) == []
  {
    if trace != [] {
      NothingRead(trace[1..]);
    }
  }

  lemma ReadsBetween(front: seq<Effect>, middle: seq<Effect>, back: seq<Effect>)
    requires Unread(front) && Unread(back)
    ensures EdgeReads(front + middle + back) == EdgeReads(middle)
  {
    EdgeReadsAppend(front + middle, back);
    EdgeReadsAppend(front, middle);
    NothingRead(front);
    NothingRead(back);
    hide EdgeReads, Unread;
  }

  /** The edge reads the sent messages in order, and then one error exactly for an aborted handler. */
  lemma EdgeReadsHandled(plan: Plan, replies: seq<Reply>, patience: nat)
    ensures var trace := Handled(plan, replies, patience);
      EdgeReads(trace) == AsUpstream(Sent(trace)) + if Aborted(trace) then [StatusError] else []
  {
    if plan.Dispatch? && patience > 0 {
      DispatchedReads(plan.workerRef, replies, patience);
    } else {
      ReadsElsewhere(plan, replies, patience);
    }
    hide Handled, EdgeReads, Sent, Aborted;
  }

  lemma DispatchedReads(worker: string, replies: seq<Reply>, patience: nat)
    requires patience > 0
    ensures var trace := Handled(Dispatch(worker), replies, patience);
      EdgeReads(trace) == AsUpstream(Sent(trace)) + if Aborted(trace) then [StatusError] else []
  {
    var n := Leading(replies);
    AbortsIff(Dispatch(worker), replies, patience);
    var sends := Sends(replies, Min(n, patience));
    var closing := if n >= patience then [] else Closing(worker, replies, n);
    assert Handled(Dispatch(worker), replies, patience) == [WriteMemory] + (sends + closing) + [Release];
    if n < patience {
      ReadsOfClosing(worker, replies, n);
    }
    hide Handled, Leading, Sends, Closing, EdgeReads, Sent, Aborted, AsUpstream;
    if closing == [] {
      NothingToRead();
    }
    ReadsOfSends(sends);
    ReadsOfMiddle(sends, closing);
  }

  lemma NothingToRead()
    ensures EdgeReads([]) == AsUpstream(Sent([])) == []
  {
  }

  lemma ReadsOfMiddle(sends: seq<Effect>, closing: seq<Effect>)
    ensures var trace := [WriteMemory] + (sends + closing) + [Release];
      EdgeReads(trace) == EdgeReads(sends) + EdgeReads(closing)
      && AsUpstream(Sent(trace)) == AsUpstream(Sent(sends)) + AsUpstream(Sent(closing))
  {
    ReadsBetween([WriteMemory], sends + closing, [Release]);
    SentBetween(sends + closing);
    EdgeReadsAppend(sends, closing);
    SentAppend(sends, closing);
    AsUpstreamAppend(Sent(sends), Sent(closing));
    hide EdgeReads, Sent, AsUpstream;
  }

  lemma ReadsElsewhere(plan: Plan, replies: seq<Reply>, patience: nat)
    requires !plan.Dispatch? || patience == 0
    ensures var trace := Handled(plan, replies, patience);
      EdgeReads(trace) == AsUpstream(Sent(trace)) + if Aborted(trace) then [StatusError] else []
  {
    var trace := Handled(plan, replies, patience);
    NoSend(trace);
    if patience == 0 {
      NothingRead(trace);
    } else {
      var k := if plan.MissingIdentity? then 0
               else if plan.Overloaded? || plan.NeedsDeliberatePath? then 1 else 2;
      assert trace[k] == Abort && Unread(trace[..k]) && Unread(trace[k + 1..]);
      hide Handled, Unread, EdgeReads, Sent;
      assert trace == trace[..k] + [Abort] + trace[k + 1..];
      ReadsBetween(trace[..k], [Abort], trace[k + 1..]);
      AbortIsRead();
    }
  }

  lemma AbortIsRead()
    ensures EdgeReads([Abort]) == [StatusError]
  {
    assert [Abort][1..] == [];
  }

  lemma {:induction false} ReadsOfSends(sends: seq<Effect>)
    requires forall i | 0 <= i < |sends| :: sends[i].Send?
    ensures EdgeReads(sends) == AsUpstream(Sent(sends))
  {
    if sends != [] {
      ReadsOfSends(sends[1..]);
      assert Sent(sends)[1..] == Sent(sends[1..]);
    }
  }

  lemma ReadsOfClosing(worker: string, replies: seq<Reply>, n: nat)
    requires n <= |replies|
    ensures var closing := Closing(worker, replies, n);
      EdgeReads(closing) ==
        AsUpstream(Sent(closing)) + if n < |replies| && !replies[n].Data? then [StatusError] else []
  {
    SentOfClosing(worker, replies, n);
    var closing := Closing(worker, replies, n);
    var k := |closing| - 1;
    assert closing == closing[..k] + [closing[k]];
    EdgeReadsAppend(closing[..k], [closing[k]]);
    NothingRead(closing[..k]);
    assert [closing[k]][1..] == [];
    assert closing[k].Send? ==> AsUpstream([closing[k].response]) == [Message(closing[k].response)];
  }

  lemma {:induction false} AsUpstreamAppend(a: seq<Response>, b: seq<Response>)
    ensures AsUpstream(a + b) == AsUpstream(a) + AsUpstream(b)
  {
    if a == [] {
      assert a + b == b;
    } else {
      assert (a + b)[1..] == a[1..] + b;
      AsUpstreamAppend(a[1..], b);
    }
  }

  lemma {:induction false} RelayedOneForOne(rs: seq<Response>, failed: bool)
    requires forall i | 0 <= i < |rs| - 1 :: !rs[i].isFinal
    requires failed && rs != [] ==> !rs[|rs| - 1].isFinal
    ensures ToChunks(AsUpstream(rs) + if failed then [StatusError] else []) ==
      AsChunks(rs) + if failed then [ERROR_CHUNK] else []
  {
    var tail := if failed then [StatusError] else [];
    if rs != [] {
      RelayedOneForOne(rs[1..], failed);
      var upstream := AsUpstream(rs) + tail;
      assert upstream[0] == Message(rs[0]);
      assert upstream[1..] == AsUpstream(rs[1..]) + tail;
      assert AsChunks(rs) == [ToChunk(rs[0])] + AsChunks(rs[1..]);
      if rs[0].isFinal {
        assert |rs| == 1 && tail == [] && AsUpstream(rs[1..]) == [];
      }
      hide AsUpstream, AsChunks;
    }
  }

  lemma {:induction false} OnlyLastIsFinal(replies: seq<Reply>)
    ensures forall i | 0 <= i < |Deliverable(replies)| - 1 :: !Deliverable(replies)[i].isFinal
  {
    if replies != [] && replies[0].Data? && !replies[0].delta.isFinal {
      OnlyLastIsFinal(replies[1..]);
    }
  }

  /** A handler that aborts has sent no final message. */
  lemma AbortedSentNoFinal(plan: Plan, replies: seq<Reply>, patience: nat)
    requires Aborted(Handled(plan, replies, patience))
    ensures forall r | r in Sent(Handled(plan, replies, patience)) :: !r.isFinal
  {
    AbortsIff(plan, replies, patience);
    if plan.Dispatch? {
      var n := Leading(replies);
      DeliversEverything(plan.workerRef, replies, patience);
      DeliverableIs(replies);
      SentIsLeading(replies, n);
    } else {
      HandledElsewhere(plan, replies, patience);
    }
  }

  lemma {:induction false} SentIsLeading(replies: seq<Reply>, n: nat)
    requires n <= Leading(replies)
    ensures forall r | r in Sent(Sends(replies, n)) :: !r.isFinal
  {
    if n > 0 {
      SentIsLeading(replies[1..], n - 1);
      assert Sends(replies, n)[1..] == Sends(replies[1..], n - 1);
    }
  }

  lemma {:induction false} ReceivedEvents(chunks: seq<Chunk>, rest: seq<EdgeEffect>)
    requires forall i | 0 <= i < |rest| :: !rest[i].Event?
    ensures Received(Events(chunks) + rest) == chunks
  {
    var all := Events(chunks) + rest;
    if chunks == [] {
      assert all == rest;
      NothingReceived(rest);
    } else {
      ReceivedEvents(chunks[1..], rest);
      assert all[1..] == Events(chunks[1..]) + rest;
    }
  }

  lemma {:induction false} NothingReceived(rest: seq<EdgeEffect>)
    requires forall i | 0 <= i < |rest| :: !rest[i].Event?
    ensures Received(rest) == []
  {
    if rest != [] {
      NothingReceived(rest[1..]);
    }
  }

  lemma ReceivedRelayed(upstream: seq<Upstream>, patience: nat)
    ensures Received(Relayed(upstream, patience)) == ToChunks(upstream)[..Min(patience, |ToChunks(upstream)|)]
  {
    var chunks := ToChunks(upstream);
    hide ToChunks, LastReason, Events, Received;
    if patience > |chunks| {
      ReceivedEvents(chunks, [Meter(LastReason(chunks)), DropGuard]);
      assert chunks[..|chunks|] == chunks;
    } else {
      ReceivedEvents(chunks[..patience], [DropGuard]);
    }
  }

  /**
   Through both hops, wherever the edge and its client stop reading: the client gets the sent deltas, chunk for
   chunk, a prefix of the provider's through the first final one, and after them one error chunk exactly when
   the handler aborted. An abort that the call itself reports yields an error response and no chunk.
   */
  lemma ClientSees(plan: Plan, replies: seq<Reply>, patience: nat, early: bool, served: nat)
    ensures var trace := Handled(plan, replies, patience);
      var answer, sent := Answer(trace, early, served), AsChunks(Sent(trace));
      var all := sent + if Aborted(trace) then [ERROR_CHUNK] else [];
      && sent <= AsChunks(Deliverable(replies))
      && (BadGateway in answer <==> early && Aborted(trace) && sent == [])
      && Received(answer) == (if BadGateway in answer then [] else all[..Min(served, |all|)])
  {
    var trace := Handled(plan, replies, patience);
    DeliversPrefix(plan, replies, patience);
    OnlyLastIsFinal(replies);
    if Aborted(trace) {
      AbortedSentNoFinal(plan, replies, patience);
    }
    EdgeReadsHandled(plan, replies, patience);
    hide Handled, EdgeReads, ToChunks, Sent, Deliverable, Received, AsUpstream, Aborted;
    RelayedOneForOne(Sent(trace), Aborted(trace));
    AnswerReceived(trace, early, served);
  }

  lemma AnswerReceived(trace: seq<Effect>, early: bool, served: nat)
    ensures var answer, chunks := Answer(trace, early, served), ToChunks(EdgeReads(trace));
      && (BadGateway in answer <==> early && Aborted(trace) && Sent(trace) == [])
      && Received(answer) == (if BadGateway in answer then [] else chunks[..Min(served, |chunks|)])
  {
    ReceivedRelayed(EdgeReads(trace), served);
    var refusal := [Meter("error"), DropGuard, BadGateway];
    NothingReceived(refusal);
    assert refusal[2] == BadGateway;
    RelayedNotRefused(EdgeReads(trace), served);
    hide EdgeReads, ToChunks, Sent, Received, Aborted, Relayed;
  }

  lemma RelayedNotRefused(upstream: seq<Upstream>, served: nat)
    ensures BadGateway !in Relayed(upstream, served)
  {
    hide ToChunks, LastReason;
  }
}
