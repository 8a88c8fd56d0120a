/**
 The stores and services as objects that update their tables in place. Every public call is proved to take the
 shared state exactly where the access-by-access protocol takes it when nothing interferes.
 */
module Services {
  import opened Prelude
  import opened Stages
  import opened Protocol
  import opened Serial

  class Clock {
    var now: nat

    constructor ()
      ensures now == 0
    {
      now := 0;
    }
  }

  /** The rollout table. */
  class RolloutStore {
    const clock: Clock
    var rollouts: map<RolloutId, Rollout>

    constructor (clock: Clock)
      ensures this.clock == clock && rollouts == map[]
    {
      this.clock := clock;
      rollouts := map[];
    }

    method InsertRollout(id: RolloutId, r: Rollout) returns (ok: bool)
      modifies this
      ensures ok <==> id !in old(rollouts) && r.versionId != ""
      ensures rollouts == if ok then old(rollouts)[id := r.(stageEnteredAt := clock.now)] else old(rollouts)
    {
      if id in rollouts || r.versionId == "" {
        return false;
      }
      rollouts := rollouts[id := r.(stageEnteredAt := clock.now)];
      return true;
    }

    method GetRollout(id: RolloutId) returns (r: Option<Rollout>)
      ensures r.Some? <==> id in rollouts
      ensures r.Some? ==> r.value == rollouts[id]
    {
      if id in rollouts {
        return Some(rollouts[id]);
      }
      return None;
    }

    /** The latest-started running rollout of a model. */
    method GetRunningRolloutByModelRef(ref: ModelRef) returns (r: Option<Rollout>)
      ensures r.Some? <==> HasRunning(rollouts, ref)
      ensures r.Some? ==> exists id :: id in rollouts && rollouts[id] == r.value
      ensures r.Some? ==> r.value.modelRef == ref && r.value.status == Running
      ensures r.Some? ==> forall id | id in rollouts && rollouts[id].modelRef == ref && rollouts[id].status == Running ::
                            rollouts[id].startedAt <= r.value.startedAt
    {
      r := None;
      var todo := rollouts.Keys;
      while todo != {}
        invariant todo <= rollouts.Keys
        invariant r.None? <==> forall id | id in rollouts && id !in todo ::
                    rollouts[id].modelRef != ref || rollouts[id].status != Running
        invariant r.Some? ==> r.value.modelRef == ref && r.value.status == Running
        invariant r.Some? ==> exists id :: id in rollouts && rollouts[id] == r.value
        invariant r.Some? ==> forall id | id in rollouts && id !in todo && rollouts[id].modelRef == ref
                                && rollouts[id].status == Running :: rollouts[id].startedAt <= r.value.startedAt
        decreases |todo|
      {
        var id :| id in todo;
        todo := todo - {id};
        var row := rollouts[id];
        if row.modelRef == ref && row.status == Running && (r.None? || r.value.startedAt < row.startedAt) {
          r := Some(row);
        }
      }
    }

    /** Every running rollout once, with its current row. */
    method ListRunningRollouts() returns (out: seq<(RolloutId, Rollout)>)
      ensures Lists(rollouts, out)
    {
      out := [];
      var todo := rollouts.Keys;
      while todo != {}
        invariant todo <= rollouts.Keys
        invariant forall i | 0 <= i < |out| :: out[i].0 in rollouts && out[i].0 !in todo
                    && out[i].1 == rollouts[out[i].0] && out[i].1.status == Running
        invariant forall i, j | 0 <= i < j < |out| :: out[i].0 != out[j].0
        invariant forall id | id in rollouts && id !in todo && rollouts[id].status == Running ::
                    (id, rollouts[id]) in out
        decreases |todo|
      {
        var id :| id in todo;
        todo := todo - {id};
        if rollouts[id].status == Running {
          out := out + [(id, rollouts[id])];
        }
      }
    }

    /** One conditional update: it applies only to a row still at `expected` and still running. */
    method UpdateRollout(id: RolloutId, expected: Stage, stage: Stage, status: Status)
      returns (r: Result<(), Error>)
      modifies this
      ensures old(id in rollouts && rollouts[id].stage == expected && rollouts[id].status == Running) ==>
                r == Ok(()) && rollouts == old(rollouts)[id := Written(old(rollouts)[id], stage, status, clock.now)]
      ensures !old(id in rollouts && rollouts[id].stage == expected && rollouts[id].status == Running) ==>
                r == Err(ConcurrentUpdate) && rollouts == old(rollouts)
      ensures r.Ok? ==> id in old(rollouts) && id in rollouts
      ensures r.Ok? ==> rollouts[id].stage == stage && rollouts[id].status == status
      ensures r.Ok? ==> rollouts[id].stageEnteredAt == clock.now
      ensures r.Ok? ==> rollouts[id].endedAt == if status == Running then None else Some(clock.now)
      ensures r.Ok? ==> rollouts[id].startedAt == old(rollouts)[id].startedAt
    {
      if id !in rollouts || rollouts[id].stage != expected || rollouts[id].status != Running {
        return Err(ConcurrentUpdate);
      }
      var row := rollouts[id];
      var endedAt := if status == Running then None else Some(clock.now);
      rollouts := rollouts[id := row.(stage := stage, status := status, endedAt := endedAt, stageEnteredAt := clock.now)];
      return Ok(());
    }
  }

  /** `out` names each running rollout of the table exactly once, with its row. */
  ghost predicate Lists(rollouts: map<RolloutId, Rollout>, out: seq<(RolloutId, Rollout)>) {
    && (forall i | 0 <= i < |out| :: out[i].0 in rollouts && out[i].1 == rollouts[out[i].0] && out[i].1.status == Running)
    && (forall i, j | 0 <= i < j < |out| :: out[i].0 != out[j].0)
    && (forall id | id in rollouts && rollouts[id].status == Running :: (id, rollouts[id]) in out)
  }

  /** The manifest table, insert-only, and the pointer to each model's active version. */
  class RegistryStore {
    var manifests: map<VersionId, Manifest>
    var active: map<ModelRef, VersionId>

    constructor ()
      ensures manifests == map[] && active == map[]
    {
      manifests := map[];
      active := map[];
    }

    method InsertManifest(v: VersionId, m: Manifest) returns (ok: bool)
      modifies this`manifests
      ensures ok <==> v != "" && v !in old(manifests)
      ensures manifests == if ok then old(manifests)[v := m] else old(manifests)
    {
      if v == "" || v in manifests {
        return false;
      }
      manifests := manifests[v := m];
      return true;
    }

    /** Upsert; the pointer may only name an existing manifest. */
    method SetActive(ref: ModelRef, v: VersionId) returns (ok: bool)
      modifies this`active
      ensures ok <==> v in manifests
      ensures active == if ok then old(active)[ref := v] else old(active)
    {
      if v !in manifests {
        return false;
      }
      active := active[ref := v];
      return true;
    }
  }

  /** The etcd keys this system writes. */
  class EtcdClient {
    var manifests: map<(ModelRef, VersionId), Manifest>
    var envelopes: map<ModelRef, ActiveEnvelope>

    constructor ()
      ensures manifests == map[] && envelopes == map[]
    {
      manifests := map[];
      envelopes := map[];
    }

    method PublishManifest(v: VersionId, ref: ModelRef, m: Manifest)
      modifies this`manifests
      ensures manifests == old(manifests)[(ref, v) := m]
    {
      manifests := manifests[(ref, v) := m];
    }

    method PublishActive(ref: ModelRef, v: VersionId)
      modifies this`envelopes
      ensures envelopes == old(envelopes)[ref := StableOnly(v)]
    {
      envelopes := envelopes[ref := ActiveEnvelope(v, "", 0)];
    }

    method PublishCanaryState(ref: ModelRef, stable: VersionId, canary: VersionId, percent: nat)
      modifies this`envelopes
      ensures envelopes == old(envelopes)[ref := ActiveEnvelope(stable, canary, percent)]
    {
      envelopes := envelopes[ref := ActiveEnvelope(stable, canary, percent)];
    }
  }

  class RegistryService {
    const store: RegistryStore
    const publisher: EtcdClient

    constructor (store: RegistryStore, publisher: EtcdClient)
      ensures this.store == store && this.publisher == publisher
    {
      this.store := store;
      this.publisher := publisher;
    }

    ghost function View(now: nat, rollouts: map<RolloutId, Rollout>): World
      reads this, store, publisher
    {
      World(now, rollouts, store.manifests, store.active, publisher.manifests, publisher.envelopes)
    }

    /** Resolves and re-verifies a manifest; returns the version it resolved to. */
    method GetModelManifest(ref: ModelRef, versionId: VersionId) returns (r: Result<VersionId, Error>)
      ensures forall now, rollouts :: r == Lookup(View(now, rollouts), ref, versionId)
    {
      var v := versionId;
      if versionId == "" {
        if ref !in store.active {
          return Err(ManifestNotFound);
        }
        v := store.active[ref];
      }
      if v !in store.manifests {
        return Err(ManifestNotFound);
      }
      var m := store.manifests[v];
      if !Verify(SignedPayload(v, m.modelRef, m.spec), m.signature) {
        return Err(InvalidSignature);
      }
      return Ok(v);
    }

    method ActivateVersion(ref: ModelRef, v: VersionId) returns (r: Result<(), Error>)
      modifies store`active, publisher`envelopes
      ensures v in store.manifests ==>
                && r == Ok(()) && store.active == old(store.active)[ref := v]
                && publisher.envelopes == old(publisher.envelopes)[ref := StableOnly(v)]
      ensures v !in store.manifests ==>
                && r == Err(ConstraintViolation) && store.active == old(store.active)
                && publisher.envelopes == old(publisher.envelopes)
    {
      var ok := store.SetActive(ref, v);
      if !ok {
        return Err(ConstraintViolation);
      }
      publisher.PublishActive(ref, v);
      return Ok(());
    }

    /** `v` is the version id drawn for this registration. */
    method RegisterModelManifest(v: VersionId, ref: ModelRef, spec: string, specIsJson: bool)
      returns (o: Outcome)
      modifies store, publisher
      ensures forall now, rollouts ::
                (View(now, rollouts), o) == Serve(old(View(now, rollouts)), Register(v, ref, spec, specIsJson))
    {
      forall now, rollouts
        ensures Serve(View(now, rollouts), Register(v, ref, spec, specIsJson)) ==
                ServeSpec(View(now, rollouts), Register(v, ref, spec, specIsJson))
      {
        ServeMeans(View(now, rollouts), Register(v, ref, spec, specIsJson));
      }
      hide Serve, SignedPayload;
      if !specIsJson {
        return Failed(InvalidJson);
      }
      var m := Manifest(ref, spec, Sign(SignedPayload(v, ref, spec)));
      var inserted := store.InsertManifest(v, m);
      if !inserted {
        return Failed(ConstraintViolation);
      }
      publisher.PublishManifest(v, ref, m);
      if ref in store.active {
        return Registered(v, false);
      }
      var activated := ActivateVersion(ref, v);
      match activated
      case Err(e) => return Failed(e);
      case Ok(_) => return Registered(v, true);
    }
  }

  /** A create that passes its checks is an insert followed by an advance from `pending`. */
  lemma InsertThenAdvance(w: World, id: RolloutId, ref: ModelRef, v: VersionId)
    requires Lookup(w, ref, v).Ok? && Lookup(w, ref, "").Ok? && !HasRunning(w.rollouts, ref)
    requires id !in w.rollouts && v != ""
    ensures var w1 := w.(rollouts := w.rollouts[id := Inserted(w, ref, v, Lookup(w, ref, "").value)]);
      CreateSpec(w, id, ref, v) == AdvanceSpec(w1, id, None) && CreateSpec(w, id, ref, v).1 == Advanced(Canary1)
  {
    hide Genuine, HasRunning;
    var row := Inserted(w, ref, v, Lookup(w, ref, "").value);
    assert w.rollouts[id := row][id := Written(row, Canary1, Running, w.now)]
        == w.rollouts[id := Written(row, Canary1, Running, w.now)];
  }

  class RolloutService {
    const store: RolloutStore
    const publisher: EtcdClient
    const registry: RegistryService

    constructor (store: RolloutStore, publisher: EtcdClient, registry: RegistryService)
      requires registry.publisher == publisher
      ensures this.store == store && this.publisher == publisher && this.registry == registry && Valid()
    {
      this.store := store;
      this.publisher := publisher;
      this.registry := registry;
    }

    /** The registry and the rollout service share one etcd client. */
    predicate Valid() {
      registry.publisher == publisher
    }

    ghost function View(): World
      reads this, store, store.clock, registry.store, publisher, registry, registry.publisher
    {
      registry.View(store.clock.now, store.rollouts)
    }

    method AdvanceStage(id: RolloutId, require: Option<Stage>) returns (r: Result<Stage, Error>)
      requires Valid()
      modifies store, publisher`envelopes, registry.store`active
      ensures var (w, o) := AdvanceSpec(old(View()), id, require);
              View() == w && o == (match r case Ok(stage) => Advanced(stage) case Err(e) => Failed(e))
    {
      var found := store.GetRollout(id);
      if found.None? {
        return Err(RolloutNotFound);
      }
      var row := found.value;
      if require.Some? && row.stage != require.value {
        return Err(ConcurrentUpdate);
      }
      if row.status != Running {
        return Err(NotRunning);
      }
      var next := NextStage(row.stage);
      if next.None? {
        return Err(AlreadyFullyPromoted);
      }
      if next.value == Stable {
        var activated := registry.ActivateVersion(row.modelRef, row.versionId);
        if activated.Err? {
          return Err(activated.error);
        }
        var recorded := store.UpdateRollout(id, row.stage, Stable, Promoted);
        match recorded
        case Err(e) => return Err(e);
        case Ok(_) => return Ok(Stable);
      }
      publisher.PublishCanaryState(row.modelRef, row.stableVersionId, row.versionId, Percent(next.value));
      var updated := store.UpdateRollout(id, row.stage, next.value, Running);
      match updated
      case Err(e) => return Err(e);
      case Ok(_) => return Ok(next.value);
    }

    method RevertCanary(id: RolloutId, result: Status, require: Option<Stage>) returns (r: Result<(), Error>)
      requires Valid()
      modifies store, publisher`envelopes
      ensures var (w, o) := RevertSpec(old(View()), id, result, require);
              View() == w && o == (match r case Ok(_) => Reverted case Err(e) => Failed(e))
    {
      var found := store.GetRollout(id);
      if found.None? {
        return Err(RolloutNotFound);
      }
      var row := found.value;
      if require.Some? && row.stage != require.value {
        return Err(ConcurrentUpdate);
      }
      if row.status != Running {
        return Err(NotRunning);
      }
      publisher.PublishCanaryState(row.modelRef, row.stableVersionId, "", 0);
      r := store.UpdateRollout(id, row.stage, row.stage, result);
    }

    /** `id` is the rollout id drawn for this call. */
    method CreateRollout(id: RolloutId, ref: ModelRef, v: VersionId, strategyIsJson: bool)
      returns (r: Result<RolloutId, Error>)
      requires Valid()
      modifies store, publisher`envelopes, registry.store`active
      ensures var (w, o) := Serve(old(View()), Create(id, ref, v, strategyIsJson));
              View() == w && o == (match r case Ok(_) => Advanced(Canary1) case Err(e) => Failed(e))
      ensures r.Ok? ==> r.value == id
    {
      ServeMeans(View(), Create(id, ref, v, strategyIsJson));
      hide Serve, Verified, AdvanceSpec, HasRunning;
      if !strategyIsJson {
        return Err(InvalidJson);
      }
      ghost var w := View();
      var target := registry.GetModelManifest(ref, v);
      assert w == registry.View(store.clock.now, store.rollouts) && target == Lookup(w, ref, v);
      if target.Err? {
        return Err(target.error);
      }
      var live := registry.GetModelManifest(ref, "");
      assert w == registry.View(store.clock.now, store.rollouts) && live == Lookup(w, ref, "");
      if live.Err? {
        return Err(NoActiveVersion);
      }
      var running := store.GetRunningRolloutByModelRef(ref);
      if running.Some? {
        return Err(AlreadyRunning);
      }
      var now := store.clock.now;
      var inserted := store.InsertRollout(id, Rollout(ref, v, Pending, Running, live.value, now, None, now));
      if !inserted {
        return Err(ConstraintViolation);
      }
      InsertThenAdvance(w, id, ref, v);
      hide CreateSpec, Inserted;
      var advanced := AdvanceStage(id, None);
      match advanced
      case Err(e) => return Err(e);
      case Ok(_) => return Ok(id);
    }

    method PromoteRollout(id: RolloutId) returns (r: Result<Stage, Error>)
      requires Valid()
      modifies store, publisher`envelopes, registry.store`active
      ensures var (w, o) := Serve(old(View()), Promote(id));
              View() == w && o == (match r case Ok(stage) => Advanced(stage) case Err(e) => Failed(e))
    {
      ServeMeans(View(), Promote(id));
      hide Serve, AdvanceSpec;
      r := AdvanceStage(id, None);
    }

    method AbortRollout(id: RolloutId) returns (r: Result<(), Error>)
      requires Valid()
      modifies store, publisher`envelopes
      ensures var (w, o) := Serve(old(View()), Abort(id));
              View() == w && o == (match r case Ok(_) => Reverted case Err(e) => Failed(e))
    {
      ServeMeans(View(), Abort(id));
      hide Serve, RevertSpec;
      r := RevertCanary(id, Aborted, None);
    }

    method AutoAdvanceRollout(id: RolloutId, fromStage: Stage) returns (r: Result<Stage, Error>)
      requires Valid()
      modifies store, publisher`envelopes, registry.store`active
      ensures var (w, o) := Serve(old(View()), AutoAdvance(id, fromStage));
              View() == w && o == (match r case Ok(stage) => Advanced(stage) case Err(e) => Failed(e))
    {
      ServeMeans(View(), AutoAdvance(id, fromStage));
      hide Serve, AdvanceSpec;
      r := AdvanceStage(id, Some(fromStage));
    }

    method AutoRollbackRollout(id: RolloutId, fromStage: Stage) returns (r: Result<(), Error>)
      requires Valid()
      modifies store, publisher`envelopes
      ensures var (w, o) := Serve(old(View()), AutoRollback(id, fromStage));
              View() == w && o == (match r case Ok(_) => Reverted case Err(e) => Failed(e))
    {
      ServeMeans(View(), AutoRollback(id, fromStage));
      hide Serve, RevertSpec;
      r := RevertCanary(id, RolledBack, Some(fromStage));
    }
  }
}
