/**
 The shared state of the control plane (rollout table, registry tables, etcd) and every service call
 written as a program whose steps each perform exactly one store or etcd access.

 The same `Step` drives three models: arbitrary interleavings of calls (Interleaving), completed or crashed
 calls run one at a time (Serial), and the service classes (Services).
 */
module Protocol {
  import opened Prelude
  import opened Stages

  type ModelRef = string
  type VersionId = string
  type RolloutId = string

  // ----- Signed manifests -----

  /** Only the signing key can produce `Sealed(p)`; a row written around the service may hold anything. */
  datatype Signature = Sealed(payload: string) | Forged

  datatype Manifest = Manifest(modelRef: ModelRef, spec: string, signature: Signature)

  function SignedPayload(versionId: VersionId, modelRef: ModelRef, spec: string): string {
    versionId + "|" + modelRef + "|" + spec
  }

  function Sign(payload: string): Signature {
    Sealed(payload)
  }

  predicate Verify(payload: string, signature: Signature) {
    signature == Sealed(payload)
  }

  predicate Genuine(versionId: VersionId, m: Manifest) {
    Verify(SignedPayload(versionId, m.modelRef, m.spec), m.signature)
  }

  // ----- Shared state -----

  /** The etcd value at a model's active key; `canary == ""` means no canary. */
  datatype ActiveEnvelope = ActiveEnvelope(stable: VersionId, canary: VersionId, percent: nat)

  function StableOnly(versionId: VersionId): ActiveEnvelope {
    ActiveEnvelope(versionId, "", 0)
  }

  datatype Rollout = Rollout(
    modelRef: ModelRef,
    versionId: VersionId,
    stage: Stage,
    status: Status,
    stableVersionId: VersionId,
    startedAt: nat,
    endedAt: Option<nat>,
    stageEnteredAt: nat)

  datatype World = World(
    now: nat,
    rollouts: map<RolloutId, Rollout>,
    manifests: map<VersionId, Manifest>,
    active: map<ModelRef, VersionId>,
    etcdManifests: map<(ModelRef, VersionId), Manifest>,
    envelopes: map<ModelRef, ActiveEnvelope>)

  const EMPTY_WORLD := World(0, map[], map[], map[], map[], map[])

  /** What the envelope of `r` says when etcd is exactly in step with the row. */
  function RowEnvelope(r: Rollout): ActiveEnvelope {
    match r.status
    case Running => StageEnvelope(r, r.stage)
    case Promoted => StableOnly(r.versionId)
    case _ => StableOnly(r.stableVersionId)
  }

  function StageEnvelope(r: Rollout, stage: Stage): ActiveEnvelope {
    match stage
    case Pending => StableOnly(r.stableVersionId)
    case Stable => StableOnly(r.versionId)
    case _ => ActiveEnvelope(r.stableVersionId, r.versionId, Percent(stage))
  }

  // ----- Single store accesses -----

  datatype Error =
    | InvalidJson
    | ManifestNotFound
    | InvalidSignature
    | NoActiveVersion
    | AlreadyRunning
    | RolloutNotFound
    | NotRunning
    | ConcurrentUpdate
    | AlreadyFullyPromoted
    | ConstraintViolation // duplicate key, dangling reference or malformed UUID refused by the database

  predicate Verified(w: World, v: VersionId) {
    v in w.manifests && Genuine(v, w.manifests[v])
  }

  /** GetModelManifest: an empty version means the active one; every read re-verifies the signature. */
  function Lookup(w: World, modelRef: ModelRef, versionId: VersionId): (r: Result<VersionId, Error>)
    ensures r.Ok? <==>
      || (versionId != "" && Verified(w, versionId))
      || (versionId == "" && modelRef in w.active && Verified(w, w.active[modelRef]))
    ensures r.Ok? ==> Verified(w, r.value)
    ensures r.Ok? ==> r.value == if versionId == "" then w.active[modelRef] else versionId
    ensures r.Err? ==> r.error == ManifestNotFound || r.error == InvalidSignature
    ensures r.Err? && r.error == InvalidSignature <==>
      || (versionId != "" && versionId in w.manifests && !Verified(w, versionId))
      || (versionId == "" && modelRef in w.active && w.active[modelRef] in w.manifests
          && !Verified(w, w.active[modelRef]))
  {
    if versionId == "" && modelRef !in w.active then
      Err(ManifestNotFound)
    else
      var v := if versionId == "" then w.active[modelRef] else versionId;
      if v !in w.manifests then Err(ManifestNotFound)
      else if !Genuine(v, w.manifests[v]) then Err(InvalidSignature)
      else Ok(v)
  }

  predicate HasRunning(rollouts: map<RolloutId, Rollout>, modelRef: ModelRef) {
    exists id :: id in rollouts && rollouts[id].modelRef == modelRef && rollouts[id].status == Running
  }

  predicate CasHolds(w: World, id: RolloutId, expected: Stage) {
    id in w.rollouts && w.rollouts[id].stage == expected && w.rollouts[id].status == Running
  }

  function Written(r: Rollout, stage: Stage, status: Status, now: nat): Rollout {
    r.(stage := stage, status := status, stageEnteredAt := now,
       endedAt := if status == Running then None else Some(now))
  }

  /** UpdateRollout: one conditional UPDATE; zero rows affected means somebody else moved the rollout. */
  function UpdateRollout(w: World, id: RolloutId, expected: Stage, stage: Stage, status: Status)
    : Result<World, Error>
  {
    if CasHolds(w, id, expected) then
      Ok(w.(rollouts := w.rollouts[id := Written(w.rollouts[id], stage, status, w.now)]))
    else
      Err(ConcurrentUpdate)
  }

  // ----- Calls -----

  datatype Request =
    | Register(versionId: VersionId, modelRef: ModelRef, spec: string, specIsJson: bool)
    | Create(rolloutId: RolloutId, modelRef: ModelRef, versionId: VersionId, strategyIsJson: bool)
    | Promote(rolloutId: RolloutId)
    | Abort(rolloutId: RolloutId)
    | AutoAdvance(rolloutId: RolloutId, fromStage: Stage)
    | AutoRollback(rolloutId: RolloutId, fromStage: Stage)

  datatype Outcome =
    | Registered(versionId: VersionId, activated: bool)
    | Advanced(stage: Stage)
    | Reverted
    | Failed(error: Error)

  /** A call in flight: its next access and the values it has read so far. */
  datatype Call =
    | RegInsert(versionId: VersionId, modelRef: ModelRef, spec: string)
    | RegPublish(versionId: VersionId, modelRef: ModelRef, manifest: Manifest)
    | RegCheck(versionId: VersionId, modelRef: ModelRef)
    | RegSetActive(versionId: VersionId, modelRef: ModelRef)
    | RegPublishActive(versionId: VersionId, modelRef: ModelRef)
    | CreateTarget(id: RolloutId, modelRef: ModelRef, versionId: VersionId)
    | CreateActive(id: RolloutId, modelRef: ModelRef, versionId: VersionId)
    | CreateRunning(id: RolloutId, modelRef: ModelRef, versionId: VersionId, stable: VersionId)
    | CreateInsert(id: RolloutId, modelRef: ModelRef, versionId: VersionId, stable: VersionId)
    | AdvanceRead(id: RolloutId, require: Option<Stage>)
    | AdvanceActivate(id: RolloutId, row: Rollout)
    | AdvancePublishActive(id: RolloutId, row: Rollout)
    | AdvancePublish(id: RolloutId, row: Rollout, next: Stage)
    | AdvanceUpdate(id: RolloutId, row: Rollout, next: Stage)
    | RevertRead(id: RolloutId, result: Status, require: Option<Stage>)
    | RevertPublish(id: RolloutId, row: Rollout, result: Status)
    | RevertUpdate(id: RolloutId, row: Rollout, result: Status)
    | Done(outcome: Outcome)

  function Start(r: Request): Call {
    match r
    case Register(v, ref, spec, ok) => if ok then RegInsert(v, ref, spec) else Done(Failed(InvalidJson))
    case Create(id, ref, v, ok) => if ok then CreateTarget(id, ref, v) else Done(Failed(InvalidJson))
    case Promote(id) => AdvanceRead(id, None)
    case Abort(id) => RevertRead(id, Aborted, None)
    case AutoAdvance(id, from) => AdvanceRead(id, Some(from))
    case AutoRollback(id, from) => RevertRead(id, RolledBack, Some(from))
  }

  function StatusAt(stage: Stage): Status {
    if stage == Stable then Promoted else Running
  }

  function Inserted(w: World, ref: ModelRef, v: VersionId, stable: VersionId): Rollout {
    Rollout(ref, v, Pending, Running, stable, w.now, None, w.now)
  }

  /** One store or etcd access of a call. A finished call does nothing. */
  function Step(w: World, c: Call): (World, Call) {
    match c
    case RegInsert(v, ref, spec) =>
      if v == "" || v in w.manifests then (w, Done(Failed(ConstraintViolation)))
      else
        var m := Manifest(ref, spec, Sign(SignedPayload(v, ref, spec)));
        (w.(manifests := w.manifests[v := m]), RegPublish(v, ref, m))
    case RegPublish(v, ref, m) =>
      (w.(etcdManifests := w.etcdManifests[(ref, v) := m]), RegCheck(v, ref))
    case RegCheck(v, ref) =>
      if ref in w.active then (w, Done(Registered(v, false))) else (w, RegSetActive(v, ref))
    case RegSetActive(v, ref) =>
      if v !in w.manifests then (w, Done(Failed(ConstraintViolation)))
      else (w.(active := w.active[ref := v]), RegPublishActive(v, ref))
    case RegPublishActive(v, ref) =>
      (w.(envelopes := w.envelopes[ref := StableOnly(v)]), Done(Registered(v, true)))
    case CreateTarget(id, ref, v) =>
      (match Lookup(w, ref, v)
       case Err(e) => (w, Done(Failed(e)))
       case Ok(_) => (w, CreateActive(id, ref, v)))
    case CreateActive(id, ref, v) =>
      (match Lookup(w, ref, "")
       case Err(_) => (w, Done(Failed(NoActiveVersion)))
       case Ok(stable) => (w, CreateRunning(id, ref, v, stable)))
    case CreateRunning(id, ref, v, stable) =>
      if HasRunning(w.rollouts, ref) then (w, Done(Failed(AlreadyRunning)))
      else (w, CreateInsert(id, ref, v, stable))
    case CreateInsert(id, ref, v, stable) =>
      if id in w.rollouts || v == "" then (w, Done(Failed(ConstraintViolation)))
      else (w.(rollouts := w.rollouts[id := Inserted(w, ref, v, stable)]), AdvanceRead(id, None))
    case AdvanceRead(id, require) =>
      if id !in w.rollouts then (w, Done(Failed(RolloutNotFound)))
      else
        var row := w.rollouts[id];
        if require.Some? && row.stage != require.value then (w, Done(Failed(ConcurrentUpdate)))
        else if row.status != Running then (w, Done(Failed(NotRunning)))
        else (match Next(row.stage)
              case None => (w, Done(Failed(AlreadyFullyPromoted)))
              case Some(next) =>
                if next == Stable then (w, AdvanceActivate(id, row))
                else (w, AdvancePublish(id, row, next)))
    case AdvanceActivate(id, row) =>
      if row.versionId !in w.manifests then (w, Done(Failed(ConstraintViolation)))
      else (w.(active := w.active[row.modelRef := row.versionId]), AdvancePublishActive(id, row))
    case AdvancePublishActive(id, row) =>
      (w.(envelopes := w.envelopes[row.modelRef := StableOnly(row.versionId)]), AdvanceUpdate(id, row, Stable))
    case AdvancePublish(id, row, next) =>
      (w.(envelopes := w.envelopes[row.modelRef :=
          ActiveEnvelope(row.stableVersionId, row.versionId, Percent(next))]),
       AdvanceUpdate(id, row, next))
    case AdvanceUpdate(id, row, next) =>
      (match UpdateRollout(w, id, row.stage, next, StatusAt(next))
       case Err(e) => (w, Done(Failed(e)))
       case Ok(w') => (w', Done(Advanced(next))))
    case RevertRead(id, result, require) =>
      if id !in w.rollouts then (w, Done(Failed(RolloutNotFound)))
      else
        var row := w.rollouts[id];
        if require.Some? && row.stage != require.value then (w, Done(Failed(ConcurrentUpdate)))
        else if row.status != Running then (w, Done(Failed(NotRunning)))
        else (w, RevertPublish(id, row, result))
    case RevertPublish(id, row, result) =>
      (w.(envelopes := w.envelopes[row.modelRef := StableOnly(row.stableVersionId)]),
       RevertUpdate(id, row, result))
    case RevertUpdate(id, row, result) =>
      (match UpdateRollout(w, id, row.stage, row.stage, result)
       case Err(e) => (w, Done(Failed(e)))
       case Ok(w') => (w', Done(Reverted)))
    case Done(_) => (w, c)
  }

  /** An upper bound on the accesses a call still performs. */
  function Remaining(c: Call): nat {
    match c
    case RegInsert(_, _, _) => 5
    case RegPublish(_, _, _) => 4
    case RegCheck(_, _) => 3
    case RegSetActive(_, _) => 2
    case RegPublishActive(_, _) => 1
    case CreateTarget(_, _, _) => 8
    case CreateActive(_, _, _) => 7
    case CreateRunning(_, _, _, _) => 6
    case CreateInsert(_, _, _, _) => 5
    case AdvanceRead(_, _) => 4
    case AdvanceActivate(_, _) => 3
    case AdvancePublishActive(_, _) => 2
    case AdvancePublish(_, _, _) => 2
    case AdvanceUpdate(_, _, _) => 1
    case RevertRead(_, _, _) => 3
    case RevertPublish(_, _, _) => 2
    case RevertUpdate(_, _, _) => 1
    case Done(_) => 0
  }

  /** No call loops: each access brings it strictly closer to its outcome. */
  lemma StepProgress(w: World, c: Call)
    ensures c.Done? || Remaining(Step(w, c).1) < Remaining(c)
    ensures Remaining(c) == 0 <==> c.Done?
  {
  }

  /**
   The signed text stands for one manifest only, exactly when none of its three parts holds the delimiter:
   otherwise a manifest that splits the same text elsewhere has the same signature.
   */
  lemma {:induction false} SignedPayloadUniqueIff(v: VersionId, r: ModelRef, s: string)
    ensures (forall v': VersionId, r': ModelRef, s': string ::
               SignedPayload(v', r', s') == SignedPayload(v, r, s) ==> v' == v && r' == r && s' == s)
        <==> '|' !in v && '|' !in r && '|' !in s
  {
    if '|' !in v && '|' !in r && '|' !in s {
      forall v': VersionId, r': ModelRef, s': string | SignedPayload(v', r', s') == SignedPayload(v, r, s)
        ensures v' == v && r' == r && s' == s
      {
        OneSplit(v, r, s, v', r', s');
      }
    } else {
      var (v', r', s') := OtherSplit(v, r, s);
      assert SignedPayload(v', r', s') == SignedPayload(v, r, s) && (v', r', s') != (v, r, s);
    }
  }

  lemma DelimitersAt(v: VersionId, r: ModelRef, s: string)
    ensures var p := SignedPayload(v, r, s);
      && |p| == |v| + |r| + |s| + 2 && p[|v|] == '|' && p[|v| + 1 + |r|] == '|'
      && p[..|v|] == v && p[|v| + 1..|v| + 1 + |r|] == r && p[|v| + |r| + 2..] == s
  {
  }

  lemma OneSplit(v: VersionId, r: ModelRef, s: string, v': VersionId, r': ModelRef, s': string)
    requires '|' !in v && '|' !in r && '|' !in s && SignedPayload(v', r', s') == SignedPayload(v, r, s)
    ensures v' == v && r' == r && s' == s
  {
    var p := SignedPayload(v, r, s);
    DelimitersAt(v, r, s);
    DelimitersAt(v', r', s');
    hide SignedPayload;
    assert forall i | 0 <= i < |v| :: p[i] == v[i];
    assert forall i | |v| < i < |v| + 1 + |r| :: p[i] == r[i - |v| - 1];
    assert forall i | |v| + 1 + |r| < i < |p| :: p[i] == s[i - |v| - |r| - 2];
  }

  /** Another split of the same text, at a delimiter inside one of the parts. */
  function OtherSplit(v: VersionId, r: ModelRef, s: string): (o: (VersionId, ModelRef, string))
    requires '|' in v || '|' in r || '|' in s
    ensures SignedPayload(o.0, o.1, o.2) == SignedPayload(v, r, s) && o != (v, r, s)
  {
    if '|' in v then
      var k := Delimiter(v);
      assert v == v[..k] + "|" + v[k + 1..];
      (v[..k], v[k + 1..], r + "|" + s)
    else if '|' in r then
      var k := Delimiter(r);
      assert r == r[..k] + "|" + r[k + 1..];
      (v, r[..k], r[k + 1..] + "|" + s)
    else
      var k := Delimiter(s);
      assert s == s[..k] + "|" + s[k + 1..];
      (v, r + "|" + s[..k], s[k + 1..])
  }

  function Delimiter(s: string): (k: nat)
    requires '|' in s
    ensures k < |s| && s[k] == '|'
  {
    if s[0] == '|' then 0 else Delimiter(s[1..]) + 1
  }
}
