/** Weighted routing: data-plane's split over the pointer, composed with what rollouts publish. */
module Routing {
  import opened Prelude
  import opened Stages
  import opened Protocol
  import opened Interleaving
  import opened Serial
  import opened Agreement
  import opened Keys
  import Caches

  const BUCKETS := 100

  /** `bucket` is the request id's SHA-256 digest modulo 100; returns the version and whether it is the canary. */
  function PickVersion(p: Caches.ActivePointer, bucket: nat): (string, bool) {
    if p.percent <= 0 || p.canary == "" then (p.stable, false)
    else if bucket < p.percent then (p.canary, true)
    else (p.stable, false)
  }

  datatype ResolvedWorker = ResolvedWorker(workerRef: string, isCanary: bool)

  /** None is the typed "no verified manifest" refusal. */
  function Resolve(s: Caches.DataPlane, ref: string, bucket: nat): Option<ResolvedWorker> {
    if ref !in s.active then None
    else
      var (version, isCanary) := PickVersion(s.active[ref], bucket);
      if (ref, version) !in s.manifests then None
      else
        match s.manifests[(ref, version)].spec.workerRef
        case None => None
        case Some(w) => if w == "" then None else Some(ResolvedWorker(w, isCanary))
  }

  // ----- The split -----

  ghost function Below(n: nat): (r: set<int>)
    ensures |r| == n && forall b :: b in r <==> 0 <= b < n
  {
    if n == 0 then {} else Below(n - 1) + {n - 1}
  }

  ghost function CanaryBuckets(p: Caches.ActivePointer): set<int> {
    set b | 0 <= b < BUCKETS && PickVersion(p, b).1
  }

  /** A canary at p percent gets exactly p of the hundred buckets. */
  lemma ExactShare(p: Caches.ActivePointer)
    requires p.canary != "" && 0 <= p.percent <= 100
    ensures |CanaryBuckets(p)| == p.percent
  {
    assert CanaryBuckets(p) == Below(p.percent);
  }

  // ----- From the publisher to the pointer -----

  /** The pointer a published envelope carries. */
  function Pointer(e: ActiveEnvelope): Caches.ActivePointer {
    Caches.ActivePointer(e.stable, e.canary, e.percent)
  }

  /** The JSON object the publisher writes for an envelope; `text` is its rendering. */
  function EncodeActive(e: ActiveEnvelope, text: string): Caches.Value {
    Caches.Doc(text, None, None, None, None, Some(e.stable), Some(e.canary), Some(e.percent))
  }

  /** Both caches read back exactly the published envelope. */
  lemma ActiveRoundTrip(e: ActiveEnvelope, text: string)
    requires e.percent <= 100
    ensures Caches.DecodeActive(EncodeActive(e, text)) == Pointer(e) == Caches.EdgeDecodeActive(EncodeActive(e, text))
  {
  }

  /**
   Once the cache has seen the live envelope of a model, whatever else it saw before, it routes a request by
   that envelope: it serves only the picked version's verified manifest, and an unverified canary is refused
   rather than replaced by the stable version.
   */
  lemma CacheRoutesByEnvelope(ops: seq<Caches.Op>, i: nat, ref: string, e: ActiveEnvelope, text: string, bucket: nat)
    requires Caches.LastPointer(ops, ref, i) && ops[i].value == EncodeActive(e, text)
    ensures var s := Caches.DataPlaneReplay(Caches.EMPTY_DATA_PLANE, ops);
      var r, pick := Resolve(s, ref, bucket), PickVersion(Pointer(e), bucket);
      && (r.Some? ==> r.value.isCanary == pick.1 && Caches.EverTrusted(ops, (ref, pick.0))
                      && (ref, pick.0) in s.manifests
                      && s.manifests[(ref, pick.0)].spec.workerRef == Some(r.value.workerRef))
      && (!Caches.EverTrusted(ops, (ref, pick.0)) ==> r.None?)
  {
    Caches.PointerIsLastDelivered(ops, ref, i);
    Caches.CachedIffVerified(ops, (ref, PickVersion(Pointer(e), bucket).0));
    hide Caches.DataPlaneReplay, Caches.EverTrusted, Caches.LastPointer;
  }

  /** The pointer a delivered value stands for: an object's fields, or a bare stable version. */
  predicate PointsTo(value: Caches.Value, stable: string, canary: string, percent: int) {
    match value
    case Text(text) => stable == text && canary == "" && percent == 0
    case Doc(_, _, _, _, _, s, c, p) =>
      && stable == (match s case Some(v) => v case None => "")
      && canary == (match c case Some(v) => v case None => "")
      && percent == (match p case Some(n) => n case None => 0)
  }

  /** Delivery `k` is the last good one of (ref, version) and its document names this worker. */
  ghost predicate LastGoodNames(ops: seq<Caches.Op>, k: nat, ref: string, version: string, worker: string) {
    && Caches.LastTrusted(ops, (ref, version), k) && ops[k].value.Doc?
    && ops[k].value.specJson.Some? && ops[k].value.specJson.value.workerRef == Some(worker)
  }

  /**
   Every answer, over any history of deliveries. A request goes to the canary iff there is one, has a share, and
   the bucket is below it; it is answered with a worker iff the last verified and not since deleted document of
   the version it goes to names that worker. Documents of it that failed since change nothing, and every other
   case is a refusal.
   */
  lemma ResolvesLastGood(ops: seq<Caches.Op>, i: nat, ref: string, stable: string, canary: string, percent: int,
                         bucket: nat, answer: ResolvedWorker)
    requires Caches.LastPointer(ops, ref, i) && PointsTo(ops[i].value, stable, canary, percent)
    ensures var toCanary := canary != "" && 0 < percent && bucket < percent;
      var version := if toCanary then canary else stable;
      Resolve(Caches.DataPlaneReplay(Caches.EMPTY_DATA_PLANE, ops), ref, bucket) == Some(answer) <==>
        && answer.isCanary == toCanary && answer.workerRef != ""
        && exists k: nat :: LastGoodNames(ops, k, ref, version, answer.workerRef)
  {
    var toCanary := canary != "" && 0 < percent && bucket < percent;
    var id := (ref, if toCanary then canary else stable);
    var s := Caches.DataPlaneReplay(Caches.EMPTY_DATA_PLANE, ops);
    Caches.PointerIsLastDelivered(ops, ref, i);
    Caches.CachedIffVerified(ops, id);
    assert PickVersion(s.active[ref], bucket) == (id.1, toCanary) by {
      hide Caches.DataPlaneReplay, Caches.LastPointer;
    }
    forall k: nat | Caches.LastTrusted(ops, id, k)
      ensures id in s.manifests && ops[k].value.Doc?
              && (s.manifests[id].spec.workerRef == Some(answer.workerRef)
                  <==> LastGoodNames(ops, k, ref, id.1, answer.workerRef))
    {
      LastGoodWorker(ops, k, id, answer.workerRef);
    }
    hide Caches.DataPlaneReplay, Caches.LastPointer, Caches.LastTrusted, PointsTo, PickVersion;
  }

  lemma LastGoodWorker(ops: seq<Caches.Op>, k: nat, id: Caches.ManifestId, worker: string)
    requires Caches.LastTrusted(ops, id, k)
    ensures var s := Caches.DataPlaneReplay(Caches.EMPTY_DATA_PLANE, ops);
      && id in s.manifests && ops[k].value.Doc?
      && (s.manifests[id].spec.workerRef == Some(worker) <==> LastGoodNames(ops, k, id.0, id.1, worker))
  {
    Caches.CachedIsLastVerified(ops, id, k);
    assert Caches.Trusts(ops[k], id);
    hide Caches.DataPlaneReplay;
  }

  /** A model with no surviving pointer is refused. */
  lemma UnknownModelRefused(ops: seq<Caches.Op>, ref: string, bucket: nat)
    requires !exists i: nat :: Caches.LastPointer(ops, ref, i)
    ensures Resolve(Caches.DataPlaneReplay(Caches.EMPTY_DATA_PLANE, ops), ref, bucket) == None
  {
    Caches.PointerIffDelivered(ops, ref);
    hide Caches.DataPlaneReplay, Caches.LastPointer;
  }

  // ----- Cohorts over a whole rollout -----

  function Route(w: World, ref: ModelRef, bucket: nat): (VersionId, bool)
    requires ref in w.envelopes
  {
    PickVersion(Pointer(w.envelopes[ref]), bucket)
  }

  lemma ServeRowsAdvance(w: World, r: Request)
    ensures RowsAdvance(w, Serve(w, r).0)
  {
    ServeMeans(w, r);
    hide Serve;
    match r
    case Register(v, ref, spec, _) => hide SignedPayload, CreateSpec, AdvanceSpec, RevertSpec;
    case Create(id, ref, v, _) => hide Lookup, HasRunning, RegisterSpec, AdvanceSpec, RevertSpec;
    case Promote(id) => AdvanceRowsAdvance(w, id, None); hide AdvanceSpec, RowsAdvance;
    case AutoAdvance(id, from) => AdvanceRowsAdvance(w, id, Some(from)); hide AdvanceSpec, RowsAdvance;
    case Abort(id) => RevertRowsAdvance(w, id, Aborted, None); hide RevertSpec, RowsAdvance;
    case AutoRollback(id, from) => RevertRowsAdvance(w, id, RolledBack, Some(from)); hide RevertSpec, RowsAdvance;
  }

  lemma AdvanceRowsAdvance(w: World, id: RolloutId, require: Option<Stage>)
    ensures RowsAdvance(w, AdvanceSpec(w, id, require).0)
  {
    var w' := AdvanceSpec(w, id, require).0;
    assert w'.rollouts == w.rollouts || (id in w.rollouts && w'.rollouts == w.rollouts[id := w'.rollouts[id]]);
    assert id in w.rollouts ==>
      SameIdentity(w.rollouts[id], w'.rollouts[id]) && Rank(w.rollouts[id].stage) <= Rank(w'.rollouts[id].stage);
    hide AdvanceSpec, SameIdentity;
  }

  lemma RevertRowsAdvance(w: World, id: RolloutId, result: Status, require: Option<Stage>)
    ensures RowsAdvance(w, RevertSpec(w, id, result, require).0)
  {
    var w' := RevertSpec(w, id, result, require).0;
    assert w'.rollouts == w.rollouts || (id in w.rollouts && w'.rollouts == w.rollouts[id := w'.rollouts[id]]);
    assert id in w.rollouts ==>
      SameIdentity(w.rollouts[id], w'.rollouts[id]) && Rank(w.rollouts[id].stage) <= Rank(w'.rollouts[id].stage);
    hide RevertSpec, SameIdentity;
  }

  lemma {:induction false} SerialRowsAdvance(events: seq<Event>, more: seq<Event>)
    requires NoneCut(more)
    ensures RowsAdvance(SerialRun(EMPTY_WORLD, events), SerialRun(EMPTY_WORLD, events + more))
  {
    if more == [] {
      assert events + more == events;
    } else {
      var m, e := more[..|more| - 1], more[|more| - 1];
      SerialRowsAdvance(events, m);
      assert (events + more)[..|events + more| - 1] == events + m;
      var w := SerialRun(EMPTY_WORLD, events + m);
      assert SerialRun(EMPTY_WORLD, events + more) == SerialApply(w, e);
      if e.Whole? {
        ServeRowsAdvance(w, e.request);
      }
      hide SerialRun, Serve;
      assert RowsAdvance(w, SerialApply(w, e));
    }
  }

  lemma RunningRoute(w: World, id: RolloutId, bucket: nat)
    requires Agrees(w) && id in w.rollouts && w.rollouts[id].status == Running
    ensures var row := w.rollouts[id];
      && row.modelRef in w.envelopes && row.stage != Pending && row.stage != Stable
      && Route(w, row.modelRef, bucket).1 == (row.versionId != "" && bucket < Percent(row.stage))
      && Route(w, row.modelRef, bucket).0 ==
         if Route(w, row.modelRef, bucket).1 then row.versionId else row.stableVersionId
  {
    RowRefAgrees(w, id);
    hide Agrees;
  }

  /**
   While a rollout runs, completed calls of any kind only ever add requests to its canary cohort: a request
   routed to the canary once stays there, and each request sees the one stable or the one canary version.
   */
  lemma CohortsNested(events: seq<Event>, more: seq<Event>, id: RolloutId, bucket: nat)
    requires NoneCut(events) && NoneCut(more)
    requires id in SerialRun(EMPTY_WORLD, events).rollouts
    requires SerialRun(EMPTY_WORLD, events).rollouts[id].status == Running
    requires id in SerialRun(EMPTY_WORLD, events + more).rollouts
    requires SerialRun(EMPTY_WORLD, events + more).rollouts[id].status == Running
    ensures var w, w' := SerialRun(EMPTY_WORLD, events), SerialRun(EMPTY_WORLD, events + more);
      var row := w.rollouts[id];
      && row.modelRef in w.envelopes && row.modelRef in w'.envelopes
      && var (v, canary), (v', canary') := Route(w, row.modelRef, bucket), Route(w', row.modelRef, bucket);
      && (canary ==> canary')
      && v == (if canary then row.versionId else row.stableVersionId)
      && v' == (if canary' then row.versionId else row.stableVersionId)
  {
    CompletedCallsAgree(events);
    CompletedCallsAgree(events + more);
    SerialRowsAdvance(events, more);
    var w, w' := SerialRun(EMPTY_WORLD, events), SerialRun(EMPTY_WORLD, events + more);
    hide SerialRun, Agrees, NoneCut, Route;
    RunningRoute(w, id, bucket);
    RunningRoute(w', id, bucket);
    StageTables(w.rollouts[id].stage, w'.rollouts[id].stage);
  }

  /** The call that ends a rollout moves every request at once: to the new version, or back to the old one. */
  lemma EndMovesEveryone(w: World, r: Request, bucket: nat)
    requires Agrees(w)
    ensures var (w', o) := Serve(w, r);
      && (o == Advanced(Stable) ==>
            && !r.Register? && r.rolloutId in w'.rollouts && w'.rollouts[r.rolloutId].modelRef in w'.envelopes
            && Route(w', w'.rollouts[r.rolloutId].modelRef, bucket) == (w'.rollouts[r.rolloutId].versionId, false))
      && (o == Reverted ==>
            && !r.Register? && r.rolloutId in w'.rollouts && w'.rollouts[r.rolloutId].modelRef in w'.envelopes
            && w'.rollouts[r.rolloutId].modelRef in w.active
            && Route(w', w'.rollouts[r.rolloutId].modelRef, bucket) ==
               (w.active[w'.rollouts[r.rolloutId].modelRef], false))
  {
    AnswersMeanWhatTheySay(w, r);
    hide Serve, Agrees, Verified;
  }
}
