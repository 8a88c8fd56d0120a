/** From the control plane to the router: a data-plane cache fed exactly what the calls of a run wrote to etcd. */
module Delivery {
  import opened Prelude
  import opened Stages
  import opened Protocol
  import opened Interleaving
  import opened Safety
  import opened Serial
  import opened Agreement
  import opened Keys
  import opened Routing
  import Caches

  /** What a spec's worker_ref field reads as; the JSON reader is the caller's. */
  type Reader = string -> Option<string>

  /** The rendering itself is never looked at once it parses. */
  const RENDERED := "{}"

  function EncodeManifest(read: Reader, v: VersionId, m: Manifest): Caches.Value {
    Caches.Doc(RENDERED, Some(v), Some(m.modelRef), Some(Caches.Spec(m.spec, read(m.spec))), Some(RENDERED),
               None, None, None)
  }

  /** The etcd put an access makes, with the verdict a verifier of this signing key gives. */
  function WriteOf(read: Reader, c: Call): seq<Caches.Op> {
    if c.RegPublish? then
      [Caches.Put(ManifestKeyText(c.modelRef, c.versionId), EncodeManifest(read, c.versionId, c.manifest),
                  Genuine(c.versionId, c.manifest))]
    else if WritesEnvelope(c) then
      [Caches.Put(ActiveKeyText(Target(c)), EncodeActive(NewEnvelope(c), RENDERED), true)]
    else []
  }

  /** Everything a run wrote to etcd, in order. */
  function Deliveries(read: Reader, actions: seq<Action>): seq<Caches.Op> {
    if actions == [] then []
    else
      var front, a := actions[..|actions| - 1], actions[|actions| - 1];
      Deliveries(read, front) + Writes(read, Reached(front), a)
  }

  function Writes(read: Reader, s: System, a: Action): seq<Caches.Op> {
    if a.Access? && a.cid in s.calls then WriteOf(read, s.calls[a.cid]) else []
  }

  function Cache(read: Reader, actions: seq<Action>): Caches.DataPlane {
    Caches.DataPlaneReplay(Caches.EMPTY_DATA_PLANE, Deliveries(read, actions))
  }

  /** The cache has every envelope as its pointer and every published manifest, and distrusts nothing. */
  ghost predicate Mirrors(read: Reader, w: World, d: Caches.DataPlane) {
    && (forall ref | ref != "" :: ref in d.active <==> ref in w.envelopes)
    && (forall ref | ref != "" && ref in w.envelopes :: d.active[ref] == Pointer(w.envelopes[ref]))
    && d.manifests.Keys == w.etcdManifests.Keys
    && (forall id | id in w.etcdManifests :: d.manifests[id].spec.workerRef == read(w.etcdManifests[id].spec))
    && d.untrusted == {}
  }

  /** Every registration names a version and a model that the key layout can carry. */
  ghost predicate PlainNames(s: System) {
    forall cid | cid in s.requests && s.requests[cid].Register? ::
      PlainName(s.requests[cid].modelRef) && s.requests[cid].versionId != ""
  }

  predicate PlainName(ref: ModelRef) {
    ref != "" && '/' !in ref
  }

  lemma ActiveKeyParses(ref: string)
    ensures ParseKey(ActiveKeyText(ref)) == if ref != "" then ActiveKey(ref) else OtherKey
  {
    ActiveKeyRoundTrip(ref);
    StripRendered(ACTIVE_PREFIX, ref);
    assert ActiveKeyText(ref)[8] == 'a' && MANIFESTS_PREFIX[8] == 'm';
  }

  lemma StepMirrors(read: Reader, w: World, c: Call, d: Caches.DataPlane)
    requires Mirrors(read, w, d) && CallVerified(w, c)
    requires c.RegPublish? ==> PlainName(c.modelRef) && c.versionId != ""
    ensures Mirrors(read, Step(w, c).0, Caches.DataPlaneReplay(d, WriteOf(read, c)))
  {
    StepFrame(w, c);
    StepEtcdManifests(w, c);
    ReplayOne(d, WriteOf(read, c));
    var w', d' := Step(w, c).0, Caches.DataPlaneReplay(d, WriteOf(read, c));
    hide Step, Mirrors, Caches.DataPlaneReplay, Caches.DataPlaneApply;
    if c.RegPublish? {
      ManifestPut(read, c, d);
      MirrorsManifest(read, w, w', d, d', (c.modelRef, c.versionId), c.manifest);
    } else if WritesEnvelope(c) {
      ActivePut(read, c, d);
      hide ActiveKeyText, EncodeActive, NewEnvelope;
      MirrorsActive(read, w, w', d, d', Target(c), NewEnvelope(c));
    } else {
      MirrorsSame(read, w, w', d);
    }
  }

  lemma MirrorsManifest(read: Reader, w: World, w': World, d: Caches.DataPlane, d': Caches.DataPlane,
                        id: (ModelRef, VersionId), m: Manifest)
    requires Mirrors(read, w, d) && w'.envelopes == w.envelopes && w'.etcdManifests == w.etcdManifests[id := m]
    requires id in d'.manifests && d'.manifests[id].spec.workerRef == read(m.spec)
    requires d' == d.(manifests := d.manifests[id := d'.manifests[id]], untrusted := d.untrusted - {id})
    ensures Mirrors(read, w', d')
  {
  }

  lemma MirrorsActive(read: Reader, w: World, w': World, d: Caches.DataPlane, d': Caches.DataPlane,
                      ref: ModelRef, e: ActiveEnvelope)
    requires Mirrors(read, w, d) && w'.envelopes == w.envelopes[ref := e] && w'.etcdManifests == w.etcdManifests
    requires d' == if ref != "" then d.(active := d.active[ref := Pointer(e)]) else d
    ensures Mirrors(read, w', d')
  {
  }

  lemma MirrorsSame(read: Reader, w: World, w': World, d: Caches.DataPlane)
    requires Mirrors(read, w, d) && w'.envelopes == w.envelopes && w'.etcdManifests == w.etcdManifests
    ensures Mirrors(read, w', d)
  {
  }

  lemma ManifestPut(read: Reader, c: Call, d: Caches.DataPlane)
    requires c.RegPublish? && PlainName(c.modelRef) && c.versionId != "" && Genuine(c.versionId, c.manifest)
    ensures var id := (c.modelRef, c.versionId);
      var d' := Caches.DataPlaneApply(d, WriteOf(read, c)[0]);
      && id in d'.manifests && d' == d.(manifests := d.manifests[id := d'.manifests[id]], untrusted := d.untrusted - {id})
      && d'.manifests[id].spec.workerRef == read(c.manifest.spec)
  {
    ManifestKeyRoundTrip(c.modelRef, c.versionId);
    hide ParseKey, ManifestKeyText, Genuine;
  }

  lemma ActivePut(read: Reader, c: Call, d: Caches.DataPlane)
    requires WritesEnvelope(c)
    ensures Caches.DataPlaneApply(d, WriteOf(read, c)[0]) ==
      if Target(c) != "" then d.(active := d.active[Target(c) := Pointer(NewEnvelope(c))]) else d
  {
    ActiveKeyParses(Target(c));
    ActiveRoundTrip(NewEnvelope(c), RENDERED);
    hide ParseKey, ActiveKeyText, NewEnvelope, EncodeActive, Caches.DecodeActive;
  }

  lemma StepEtcdManifests(w: World, c: Call)
    ensures Step(w, c).0.etcdManifests ==
      if c.RegPublish? then w.etcdManifests[(c.modelRef, c.versionId) := c.manifest] else w.etcdManifests
  {
  }

  lemma ReplayOne(d: Caches.DataPlane, ops: seq<Caches.Op>)
    requires |ops| <= 1
    ensures Caches.DataPlaneReplay(d, ops) == if ops == [] then d else Caches.DataPlaneApply(d, ops[0])
  {
  }

  lemma {:induction false} ReplayAppend(d: Caches.DataPlane, a: seq<Caches.Op>, b: seq<Caches.Op>)
    ensures Caches.DataPlaneReplay(d, a + b) == Caches.DataPlaneReplay(Caches.DataPlaneReplay(d, a), b)
  {
    hide Caches.DataPlaneApply;
    if b == [] {
      assert a + b == a;
    } else {
      ReplayAppend(d, a, b[..|b| - 1]);
      assert (a + b)[..|a + b| - 1] == a + b[..|b| - 1];
    }
  }

  /** Under every interleaving of calls, a cache that is fed their writes mirrors etcd. */
  lemma {:induction false} CacheMirrors(read: Reader, actions: seq<Action>)
    requires PlainNames(Reached(actions))
    ensures Mirrors(read, Reached(actions).w, Cache(read, actions))
  {
    if actions != [] {
      var front, a := actions[..|actions| - 1], actions[|actions| - 1];
      RunKeepsInv(front);
      InvKeys(Reached(front));
      RequestsStay(Reached(front), a);
      CacheMirrors(read, front);
      ActionMirrors(read, Reached(front), a, Cache(read, front));
      ReplayAppend(Caches.EMPTY_DATA_PLANE, Deliveries(read, front), Writes(read, Reached(front), a));
      hide Mirrors, Inv, PlainNames, Apply, Writes, Caches.DataPlaneReplay;
    } else {
      assert Deliveries(read, []) == [];
    }
  }

  lemma ActionMirrors(read: Reader, s: System, a: Action, d: Caches.DataPlane)
    requires Inv(s) && PlainNames(s) && Mirrors(read, s.w, d)
    ensures Mirrors(read, Apply(s, a).w, Caches.DataPlaneReplay(d, Writes(read, s, a)))
  {
    hide Mirrors, PlainNames, WriteOf;
    if a.Access? && a.cid in s.calls {
      AccessUnfold(s, a.cid);
      PublishesPlain(s, a.cid);
      InvCall(s, a.cid);
      hide Inv, Apply, Step;
      StepMirrors(read, s.w, s.calls[a.cid], d);
    } else {
      QuietWorld(s, a);
      ReplayOne(d, []);
      hide Inv, Apply;
      MirrorsSame(read, s.w, Apply(s, a).w, d);
    }
  }

  lemma QuietWorld(s: System, a: Action)
    requires !a.Access? || a.cid !in s.calls
    ensures Apply(s, a).w.envelopes == s.w.envelopes && Apply(s, a).w.etcdManifests == s.w.etcdManifests
  {
  }

  lemma RequestsStay(s: System, a: Action)
    requires PlainNames(Apply(s, a)) && s.calls.Keys == s.requests.Keys
    ensures PlainNames(s)
  {
    hide Step, Start, Observe;
    var s' := Apply(s, a);
    assert forall cid | cid in s.requests :: cid in s'.requests && s'.requests[cid] == s.requests[cid];
    hide Apply;
  }

  lemma PublishesPlain(s: System, cid: nat)
    requires Inv(s) && cid in s.calls && PlainNames(s)
    ensures s.calls[cid].RegPublish? ==> PlainName(s.calls[cid].modelRef) && s.calls[cid].versionId != ""
  {
  }

  /** The worker etcd alone assigns to a request: the routed version's published manifest, or a refusal. */
  function Assigned(read: Reader, w: World, ref: ModelRef, bucket: nat): Option<ResolvedWorker> {
    if ref !in w.envelopes then None
    else
      var (v, isCanary) := Route(w, ref, bucket);
      if (ref, v) !in w.etcdManifests then None
      else
        match read(w.etcdManifests[(ref, v)].spec)
        case None => None
        case Some(worker) => if worker == "" then None else Some(ResolvedWorker(worker, isCanary))
  }

  /** In every interleaving the cache resolves each request to exactly that worker. */
  lemma ResolvesAsAssigned(read: Reader, actions: seq<Action>, ref: ModelRef, bucket: nat)
    requires PlainNames(Reached(actions)) && ref != ""
    ensures Resolve(Cache(read, actions), ref, bucket) == Assigned(read, Reached(actions).w, ref, bucket)
  {
    CacheMirrors(read, actions);
    hide Cache, Reached, PlainNames;
  }

  /**
   End to end: through registrations, rollout calls, etcd and the cache, a request once resolved to the canary of
   a running rollout is never resolved to its stable version while the rollout runs, and whatever it is resolved
   to is the worker of the manifest published for the one or the other.
   */
  lemma ResolvedCohortsNested(read: Reader, events: seq<Event>, more: seq<Event>, id: RolloutId, bucket: nat)
    requires NoneCut(events) && NoneCut(more) && PlainEvents(events) && PlainEvents(more)
    requires id in SerialRun(EMPTY_WORLD, events).rollouts
    requires SerialRun(EMPTY_WORLD, events).rollouts[id].status == Running
    requires id in SerialRun(EMPTY_WORLD, events + more).rollouts
    requires SerialRun(EMPTY_WORLD, events + more).rollouts[id].status == Running
    requires SerialRun(EMPTY_WORLD, events).rollouts[id].modelRef != ""
    ensures var w, w' := SerialRun(EMPTY_WORLD, events), SerialRun(EMPTY_WORLD, events + more);
      var row := w.rollouts[id];
      var r := Resolve(Cache(read, AllActions(events)), row.modelRef, bucket);
      var r' := Resolve(Cache(read, AllActions(events + more)), row.modelRef, bucket);
      && (r.Some? && r'.Some? && r.value.isCanary ==> r'.value.isCanary)
      && (r'.Some? ==> PublishedWorker(read, w', row, r'.value))
  {
    SerialIsInterleaved(events);
    SerialIsInterleaved(events + more);
    PlainSerial(events);
    PlainSerial(events + more);
    CohortsNested(events, more, id, bucket);
    var ref := SerialRun(EMPTY_WORLD, events).rollouts[id].modelRef;
    ResolvesAsAssigned(read, AllActions(events), ref, bucket);
    ResolvesAsAssigned(read, AllActions(events + more), ref, bucket);
    hide SerialRun, AllActions, NoneCut, PlainNames, Cache, Route, Resolve;
  }

  predicate PlainEvents(events: seq<Event>) {
    forall i | 0 <= i < |events| && (events[i].Whole? || events[i].Cut?) && events[i].request.Register? ::
      PlainName(events[i].request.modelRef) && events[i].request.versionId != ""
  }

  lemma {:induction false} PlainSerial(events: seq<Event>)
    requires PlainEvents(events)
    ensures PlainNames(Reached(AllActions(events)))
  {
    if events != [] {
      var front, e := events[..|events| - 1], events[|events| - 1];
      PlainSerial(front);
      SerialIsInterleaved(front);
      EventRequests(AllActions(front), e, |events|);
      assert AllActions(events) == AllActions(front) + AsActions(e, |events|);
      hide Run, AsActions, AllActions, SerialRun;
    }
  }

  lemma EventRequests(pre: seq<Action>, e: Event, cid: nat)
    requires cid !in Run(INITIAL, pre).calls
    ensures var s, s' := Run(INITIAL, pre), Run(INITIAL, pre + AsActions(e, cid));
      s'.requests == if e.Whole? || e.Cut? then s.requests[cid := e.request] else s.requests
  {
    match e
    case Whole(r) => SoloCall(pre, cid, r, Remaining(Start(r)));
    case Cut(r, k) => SoloCall(pre, cid, r, k);
    case Elapse(d) =>
      RunSnoc(INITIAL, pre, Pass(d));
      hide Run;
    case Inject(v, m) =>
      RunSnoc(INITIAL, pre, DirectInsert(v, m));
      hide Run;
  }

  /** The worker named by the published manifest of the rollout's canary or stable version, whichever it claims. */
  predicate PublishedWorker(read: Reader, w: World, row: Rollout, r: ResolvedWorker) {
    var key := (row.modelRef, if r.isCanary then row.versionId else row.stableVersionId);
    key in w.etcdManifests && read(w.etcdManifests[key].spec) == Some(r.workerRef)
  }
}
