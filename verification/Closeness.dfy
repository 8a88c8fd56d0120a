/** How close etcd is to a rollout that was cut off before anything was published for it. */
module Closeness {
  import opened Prelude
  import opened Stages
  import opened Protocol
  import opened Interleaving
  import opened Serial
  import opened Agreement

  // ----- Who publishes -----

  /** One of the first `k` accesses of a call does. */
  ghost predicate Published(w: World, c: Call, k: nat, id: RolloutId) {
    k > 0 && (PublishesFor(Steps(w, c, k - 1).1, id) || Published(w, c, k - 1, id))
  }

  ghost predicate EventPublishes(w: World, e: Event, id: RolloutId) {
    match e
    case Whole(r) => Published(w, Start(r), Remaining(Start(r)), id)
    case Cut(r, k) => Published(w, Start(r), k, id)
    case _ => false
  }

  /** Some call from the `j`-th on published on behalf of `id`. */
  ghost predicate PublishedSince(events: seq<Event>, j: nat, id: RolloutId) {
    exists k :: j <= k < |events| && EventPublishes(SerialRun(EMPTY_WORLD, events[..k]), events[k], id)
  }

  // ----- One access -----

  predicate SameAt(w: World, w': World, ref: ModelRef) {
    (ref in w'.envelopes <==> ref in w.envelopes) && (ref in w.envelopes ==> w'.envelopes[ref] == w.envelopes[ref])
  }

  predicate IsPending(w: World, id: RolloutId) {
    id in w.rollouts && w.rollouts[id].status == Running && w.rollouts[id].stage == Pending
  }

  /** etcd shows the state before the rollout, or its first stage. */
  predicate Close(w: World, id: RolloutId)
    requires id in w.rollouts
  {
    var row := w.rollouts[id];
    row.modelRef in w.envelopes && WithinOneMove(row, w.envelopes[row.modelRef])
  }

  /** While a rollout runs, only calls working on it write the envelope of its model. */
  lemma OthersPublishElsewhere(w: World, c: Call, id: RolloutId)
    requires OneRunning(w) && SoloOk(w, c) && id in w.rollouts && w.rollouts[id].status == Running
    ensures !PublishesFor(c, id) ==> SameAt(w, Step(w, c).0, w.rollouts[id].modelRef)
  {
    StepFrame(w, c);
    if WritesEnvelope(c) && Target(c) == w.rollouts[id].modelRef {
      assert IsRunning(w, id, Target(c));
      if !c.RegPublishActive? {
        assert IsRunning(w, c.id, Target(c));
      }
    }
    hide Step, OneRunning, SoloOk;
  }

  lemma PublishIsClose(w: World, c: Call, id: RolloutId)
    requires SoloOk(w, c) && PublishesFor(c, id) && IsPending(w, id)
    ensures Close(Step(w, c).0, id)
  {
  }

  /** A row found pending after an access was the same before, or has just been inserted. */
  lemma PendingBefore(w: World, c: Call, id: RolloutId)
    requires SoloOk(w, c) && IsPending(Step(w, c).0, id)
    ensures var row := Step(w, c).0.rollouts[id];
      if id in w.rollouts then w.rollouts[id] == row
      else c.CreateInsert? && c.id == id && row == Inserted(w, c.modelRef, c.versionId, c.stable)
           && Step(w, c).0.envelopes == w.envelopes
  {
  }

  lemma RowsStay(w: World, c: Call, id: RolloutId)
    requires id in w.rollouts
    ensures id in Step(w, c).0.rollouts
  {
  }

  // ----- One call -----

  predicate Creating(c: Call) {
    c.CreateTarget? || c.CreateActive? || c.CreateRunning? || c.CreateInsert?
  }

  /** A create has changed nothing before its insert, and captured the version that was active when it started. */
  predicate CreateOk(w0: World, w: World, c: Call) {
    Creating(c) ==>
      && w == w0
      && (c.CreateRunning? || c.CreateInsert? ==> c.modelRef in w.active && c.stable == w.active[c.modelRef])
  }

  lemma CreateStep(w0: World, w: World, c: Call)
    requires CreateOk(w0, w, c)
    ensures CreateOk(w0, Step(w, c).0, Step(w, c).1)
    ensures Creating(Step(w, c).1) ==> Creating(c)
  {
    hide Verified, HasRunning, UpdateRollout;
  }

  /** What the row looked like, and where it came from, when the call started. */
  ghost predicate Origin(w0: World, w: World, id: RolloutId)
    requires id in w.rollouts
  {
    var row := w.rollouts[id];
    if id in w0.rollouts then w0.rollouts[id] == row
    else row.modelRef in w0.active && row.stableVersionId == w0.active[row.modelRef]
  }

  ghost predicate Tracked(w0: World, w: World, id: RolloutId, published: bool) {
    IsPending(w, id) ==>
      Origin(w0, w, id) && if published then Close(w, id) else SameAt(w0, w, w.rollouts[id].modelRef)
  }

  lemma StepTracked(w0: World, w: World, c: Call, id: RolloutId, published: bool)
    requires CrashOk(w) && SoloOk(w, c) && CreateOk(w0, w, c) && Tracked(w0, w, id, published)
    requires id in w0.rollouts ==> id in w.rollouts
    requires Creating(c) ==> !published
    ensures Tracked(w0, Step(w, c).0, id, published || PublishesFor(c, id))
  {
    var w' := Step(w, c).0;
    if IsPending(w', id) {
      PendingBefore(w, c, id);
      if id in w.rollouts {
        assert OneRunning(w);
        OthersPublishElsewhere(w, c, id);
        if PublishesFor(c, id) {
          PublishIsClose(w, c, id);
        }
        hide Step, SoloOk, CrashOk, WithinOneMove;
      } else {
        hide Step, SoloOk, CrashOk;
      }
    }
  }

  /** All that is known of a call's run so far, as far as rollout `id` is concerned. */
  ghost predicate Followed(w0: World, w: World, c: Call, id: RolloutId, published: bool) {
    && Tracked(w0, w, id, published) && CreateOk(w0, w, c) && (Creating(c) ==> !published)
    && (id in w0.rollouts ==> id in w.rollouts)
  }

  lemma StepFollowed(w0: World, w: World, c: Call, id: RolloutId, published: bool)
    requires CrashOk(w) && SoloOk(w, c) && Followed(w0, w, c, id, published)
    ensures Followed(w0, Step(w, c).0, Step(w, c).1, id, published || PublishesFor(c, id))
  {
    StepTracked(w0, w, c, id, published);
    CreateStep(w0, w, c);
    if id in w.rollouts {
      RowsStay(w, c, id);
    }
    hide Step, CrashOk, SoloOk, Tracked, CreateOk;
  }

  lemma {:induction false} CallTracked(w0: World, r: Request, k: nat, id: RolloutId)
    requires CrashOk(w0)
    ensures var (w, c) := Steps(w0, Start(r), k); Followed(w0, w, c, id, Published(w0, Start(r), k, id))
  {
    hide Step, CrashOk, SoloOk, CallVerified, PublishesFor, Start;
    if k == 0 {
      StartFollowed(w0, r, id);
    } else {
      hide Followed;
      CallTracked(w0, r, k - 1, id);
      var (w, c) := Steps(w0, Start(r), k - 1);
      StartSolo(w0, r);
      CutCrashOk(w0, Start(r), k - 1);
      StepFollowed(w0, w, c, id, Published(w0, Start(r), k - 1, id));
    }
  }

  lemma StartFollowed(w0: World, r: Request, id: RolloutId)
    ensures Followed(w0, w0, Start(r), id, false)
  {
  }

  // ----- A whole history -----

  lemma EventTracked(w0: World, e: Event, id: RolloutId)
    requires CrashOk(w0)
    ensures Tracked(w0, SerialApply(w0, e), id, EventPublishes(w0, e, id))
    ensures id in w0.rollouts ==> id in SerialApply(w0, e).rollouts
  {
    hide CrashOk, Tracked, Published, Steps;
    match e
    case Whole(r) =>
      CallTracked(w0, r, Remaining(Start(r)), id);
      WholeIsCut(w0, r);
      hide Serve;
    case Cut(r, k) =>
      CallTracked(w0, r, k, id);
    case _ =>
      QuietEvent(w0, e);
      QuietTracked(w0, SerialApply(w0, e), id);
  }

  lemma QuietTracked(w0: World, w: World, id: RolloutId)
    requires w.rollouts == w0.rollouts && w.envelopes == w0.envelopes
    ensures Tracked(w0, w, id, false)
  {
  }

  /** What etcd showed for the model before the rollout was created was already the version it captured. */
  predicate FitsBefore(w0: World, ref: ModelRef, v: VersionId) {
    && ref in w0.active && ref in w0.envelopes
    && (w0.envelopes[ref] == StableOnly(w0.active[ref]) || w0.envelopes[ref] == ActiveEnvelope(w0.active[ref], v, 1))
  }

  lemma {:induction false} PendingTracked(events: seq<Event>, id: RolloutId, j: nat)
    requires j < |events| && id !in SerialRun(EMPTY_WORLD, events[..j]).rollouts
    requires id in SerialRun(EMPTY_WORLD, events[..j + 1]).rollouts
    ensures var w0, w := SerialRun(EMPTY_WORLD, events[..j]), SerialRun(EMPTY_WORLD, events);
      id in w.rollouts && Tracked(w0, w, id, PublishedSince(events, j, id))
  {
    var front, e := events[..|events| - 1], events[|events| - 1];
    var w := SerialRun(EMPTY_WORLD, front);
    CrashedCallsStayClose(front);
    EventTracked(w, e, id);
    SinceSnoc(events, j, id);
    hide CrashOk, EventPublishes, PublishedSince, SerialApply;
    if j == |events| - 1 {
      assert events[..j + 1] == events;
      hide SerialRun;
    } else {
      assert front[..j] == events[..j] && front[..j + 1] == events[..j + 1];
      PendingTracked(front, id, j);
      TrackedOn(SerialRun(EMPTY_WORLD, events[..j]), w, SerialRun(EMPTY_WORLD, events), id,
                PublishedSince(front, j, id), EventPublishes(w, e, id));
      hide SerialRun;
    }
  }

  lemma TrackedOn(w0: World, w1: World, w2: World, id: RolloutId, before: bool, now: bool)
    requires id !in w0.rollouts && id in w1.rollouts
    requires Tracked(w0, w1, id, before) && Tracked(w1, w2, id, now)
    ensures Tracked(w0, w2, id, before || now)
  {
    hide WithinOneMove;
  }

  lemma SinceSnoc(events: seq<Event>, j: nat, id: RolloutId)
    requires j < |events|
    ensures var front, e := events[..|events| - 1], events[|events| - 1];
      PublishedSince(events, j, id) <==>
        (j < |front| && PublishedSince(front, j, id)) || EventPublishes(SerialRun(EMPTY_WORLD, front), e, id)
  {
    hide EventPublishes, SerialRun;
    var front := events[..|events| - 1];
    assert forall k | 0 <= k <= |front| :: front[..k] == events[..k];
  }

  /**
   Whatever calls stop wherever, a rollout still pending is within one move of etcd exactly when some call has
   published for it since, or etcd already showed, before it was created, the active version alone or with this
   very canary at one percent. `j` is the call that created it.
   */
  lemma PendingCloseIff(events: seq<Event>, id: RolloutId, j: nat)
    requires j < |events| && id !in SerialRun(EMPTY_WORLD, events[..j]).rollouts
    requires id in SerialRun(EMPTY_WORLD, events[..j + 1]).rollouts
    requires IsPending(SerialRun(EMPTY_WORLD, events), id)
    ensures var w0, w := SerialRun(EMPTY_WORLD, events[..j]), SerialRun(EMPTY_WORLD, events);
      var row := w.rollouts[id];
      && row.modelRef in w0.active && row.stableVersionId == w0.active[row.modelRef]
      && (Close(w, id) <==> PublishedSince(events, j, id) || FitsBefore(w0, row.modelRef, row.versionId))
  {
    PendingTracked(events, id, j);
    hide SerialRun, PublishedSince;
  }
}
