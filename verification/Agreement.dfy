/**
 Calls that complete one after another keep database, registry and etcd in exact agreement; calls cut off in
 the middle leave etcd at most one move away, and the next completed call on the rollout repairs it.
 */
module Agreement {
  import opened Prelude
  import opened Stages
  import opened Protocol
  import opened Interleaving
  import opened Serial

  // ----- Exact agreement -----

  predicate RowOk(r: Rollout) {
    (r.status == Promoted <==> r.stage == Stable) && EndedExactlyWhenOver(r)
  }

  ghost predicate RowsOk(w: World) {
    forall id | id in w.rollouts :: RowOk(w.rollouts[id])
  }

  predicate IsRunning(w: World, id: RolloutId, ref: ModelRef) {
    id in w.rollouts && w.rollouts[id].modelRef == ref && w.rollouts[id].status == Running
  }

  ghost predicate OneRunning(w: World) {
    forall ref, i, j | IsRunning(w, i, ref) && IsRunning(w, j, ref) :: i == j
  }

  /** A running rollout replaces exactly what is live, and etcd shows exactly its recorded stage. */
  predicate RunningAgrees(w: World, r: Rollout) {
    && r.modelRef in w.active && r.stableVersionId == w.active[r.modelRef]
    && r.stage != Pending
    && r.modelRef in w.envelopes && w.envelopes[r.modelRef] == RowEnvelope(r)
  }

  ghost predicate RefAgrees(w: World, ref: ModelRef) {
    && (ref in w.active <==> ref in w.envelopes)
    && (forall id | IsRunning(w, id, ref) :: RunningAgrees(w, w.rollouts[id]))
    && (ref in w.active && !HasRunning(w.rollouts, ref) ==> w.envelopes[ref] == StableOnly(w.active[ref]))
  }

  ghost predicate Agrees(w: World) {
    WorldVerified(w) && RowsOk(w) && OneRunning(w) && forall ref :: RefAgrees(w, ref)
  }

  /** `w'` differs from `w` at most in what concerns `ref`, and there only in rollout `id`. */
  ghost predicate OnlyTouches(w: World, w': World, ref: ModelRef, id: RolloutId) {
    && (forall i | i in w.rollouts && i != id :: i in w'.rollouts && w'.rollouts[i] == w.rollouts[i])
    && (forall i | i in w'.rollouts && i != id :: i in w.rollouts)
    && (id in w'.rollouts ==> w'.rollouts[id].modelRef == ref)
    && (id in w.rollouts ==> id in w'.rollouts && w.rollouts[id].modelRef == ref)
    && (forall other | other != ref :: (other in w'.active <==> other in w.active)
          && (other in w'.envelopes <==> other in w.envelopes))
    && (forall other | other != ref && other in w.active :: w'.active[other] == w.active[other])
    && (forall other | other != ref && other in w.envelopes :: w'.envelopes[other] == w.envelopes[other])
  }

  lemma OthersAgree(w: World, w': World, ref: ModelRef, id: RolloutId, other: ModelRef)
    requires OnlyTouches(w, w', ref, id) && other != ref && RefAgrees(w, other)
    ensures RefAgrees(w', other)
  {
  }

  /** Agreement after an operation that concerns one model and one of its rollouts. */
  lemma AgreesAfter(w: World, w': World, ref: ModelRef, id: RolloutId)
    requires RowsOk(w) && OneRunning(w) && (forall other :: RefAgrees(w, other)) && WorldVerified(w')
    requires OnlyTouches(w, w', ref, id)
    requires id in w'.rollouts ==> RowOk(w'.rollouts[id])
    requires forall i | IsRunning(w, i, ref) :: i == id
    requires ref in w'.active && ref in w'.envelopes
    requires IsRunning(w', id, ref) ==> RunningAgrees(w', w'.rollouts[id])
    requires !IsRunning(w', id, ref) ==> w'.envelopes[ref] == StableOnly(w'.active[ref])
    ensures Agrees(w')
  {
    hide WorldVerified, RowOk, RunningAgrees;
    assert RowsOk(w');
    assert OneRunning(w') by {
      forall other, i, j | IsRunning(w', i, other) && IsRunning(w', j, other) ensures i == j {
        assert i != id ==> IsRunning(w, i, other);
        assert j != id ==> IsRunning(w, j, other);
      }
    }
    forall other ensures RefAgrees(w', other) {
      if other != ref {
        OthersAgree(w, w', ref, id, other);
      } else {
        forall i | IsRunning(w', i, ref) ensures i == id {
          assert i != id ==> IsRunning(w, i, ref);
        }
        if HasRunning(w'.rollouts, ref) {
        } else {
          assert !IsRunning(w', id, ref);
        }
      }
    }
  }

  lemma WholeVerified(w: World, c: Call)
    requires WorldVerified(w) && CallVerified(w, c)
    ensures WorldVerified(Complete(w, c).0)
    decreases Remaining(c)
  {
    hide Step, WorldVerified, CallVerified;
    if !c.Done? {
      StepVerified(w, c);
      StepProgress(w, c);
      WholeVerified(Step(w, c).0, Step(w, c).1);
    }
  }

  lemma ServeVerified(w: World, r: Request)
    requires WorldVerified(w)
    ensures WorldVerified(Serve(w, r).0)
  {
    hide Verified, WorldVerified, Complete;
    StartOk(w, map[], r);
    WholeVerified(w, Start(r));
  }

  lemma AdvanceAgrees(w: World, id: RolloutId, require: Option<Stage>)
    requires Agrees(w) && WorldVerified(AdvanceSpec(w, id, require).0)
    ensures Agrees(AdvanceSpec(w, id, require).0)
  {
    hide WorldVerified;
    var (w', o) := AdvanceSpec(w, id, require);
    if o.Advanced? {
      var row := w.rollouts[id];
      assert IsRunning(w, id, row.modelRef) && RefAgrees(w, row.modelRef);
      hide HasRunning, RefAgrees;
      AgreesAfter(w, w', row.modelRef, id);
    }
  }

  lemma RevertAgrees(w: World, id: RolloutId, result: Status, require: Option<Stage>)
    requires Agrees(w) && WorldVerified(RevertSpec(w, id, result, require).0)
    requires result == Aborted || result == RolledBack
    ensures Agrees(RevertSpec(w, id, result, require).0)
  {
    hide WorldVerified;
    var (w', o) := RevertSpec(w, id, result, require);
    if o.Reverted? {
      var row := w.rollouts[id];
      assert IsRunning(w, id, row.modelRef) && RefAgrees(w, row.modelRef);
      assert RowOk(row);
      hide HasRunning, RefAgrees;
      AgreesAfter(w, w', row.modelRef, id);
    }
  }

  lemma CreateAgrees(w: World, id: RolloutId, ref: ModelRef, v: VersionId)
    requires Agrees(w) && WorldVerified(CreateSpec(w, id, ref, v).0)
    ensures Agrees(CreateSpec(w, id, ref, v).0)
  {
    hide WorldVerified, Verified;
    var (w', o) := CreateSpec(w, id, ref, v);
    if o.Advanced? {
      assert forall i :: !IsRunning(w, i, ref);
      hide HasRunning, RefAgrees;
      AgreesAfter(w, w', ref, id);
    }
  }

  lemma RegisterAgrees(w: World, v: VersionId, ref: ModelRef, spec: string)
    requires Agrees(w) && WorldVerified(RegisterSpec(w, v, ref, spec).0)
    ensures Agrees(RegisterSpec(w, v, ref, spec).0)
  {
    hide WorldVerified, SignedPayload;
    var (w', o) := RegisterSpec(w, v, ref, spec);
    assert RefAgrees(w, ref);
    if o == Registered(v, true) {
      assert forall i :: !IsRunning(w, i, ref);
      var id := Unused(w.rollouts.Keys);
      hide HasRunning, RefAgrees;
      AgreesAfter(w, w', ref, id);
    } else {
      SameRowsAgree(w, w');
    }
  }

  /** A rollout id that names no row. */
  lemma Unused(ids: set<RolloutId>) returns (id: RolloutId)
    ensures id !in ids
  {
    id := Longest(ids) + ['x'];
  }

  ghost function Longest(ids: set<RolloutId>): (m: RolloutId)
    ensures forall id | id in ids :: |id| <= |m|
  {
    if ids == {} then ""
    else
      var id :| id in ids;
      var rest := Longest(ids - {id});
      if |id| <= |rest| then rest else id
  }

  lemma SameRowsAgree(w: World, w': World)
    requires Agrees(w) && WorldVerified(w')
    requires w'.rollouts == w.rollouts && w'.active == w.active && w'.envelopes == w.envelopes
    ensures Agrees(w')
  {
    hide WorldVerified, RowOk, HasRunning;
    assert forall i, ref :: IsRunning(w', i, ref) == IsRunning(w, i, ref);
    forall ref ensures RefAgrees(w', ref) {
      assert RefAgrees(w, ref);
    }
  }

  /** Every completed call, successful or refused, keeps the three stores in agreement. */
  lemma ServeAgrees(w: World, r: Request)
    requires Agrees(w)
    ensures Agrees(Serve(w, r).0)
  {
    assert WorldVerified(w);
    ServeVerified(w, r);
    ServeMeans(w, r);
    hide Agrees, Serve, AdvanceSpec, RevertSpec, CreateSpec, RegisterSpec, WorldVerified;
    match r
    case Register(v, ref, spec, ok) => if ok { RegisterAgrees(w, v, ref, spec); }
    case Create(id, ref, v, ok) => if ok { CreateAgrees(w, id, ref, v); }
    case Promote(id) => AdvanceAgrees(w, id, None);
    case Abort(id) => RevertAgrees(w, id, Aborted, None);
    case AutoAdvance(id, from) => AdvanceAgrees(w, id, Some(from));
    case AutoRollback(id, from) => RevertAgrees(w, id, RolledBack, Some(from));
  }

  ghost predicate NoneCut(events: seq<Event>) {
    forall i | 0 <= i < |events| :: !events[i].Cut?
  }

  lemma QuietAgrees(w: World, e: Event)
    requires Agrees(w) && (e.Elapse? || e.Inject?)
    ensures Agrees(SerialApply(w, e))
  {
    var w' := SerialApply(w, e);
    assert ManifestsGrow(w, w');
    hide SerialApply;
    assert w'.rollouts == w.rollouts && w'.active == w.active && w'.envelopes == w.envelopes
        && w'.etcdManifests == w.etcdManifests by {
      QuietEvent(w, e);
    }
    assert WorldVerified(w);
    hide Agrees, WorldVerified;
    WorldVerifiedPersists(w, w');
    SameRowsAgree(w, w');
  }

  lemma QuietEvent(w: World, e: Event)
    requires e.Elapse? || e.Inject?
    ensures var w' := SerialApply(w, e);
      w'.rollouts == w.rollouts && w'.active == w.active && w'.envelopes == w.envelopes
      && w'.etcdManifests == w.etcdManifests
  {
  }

  /** From the empty deployment, any history of completed calls leaves the three stores in agreement. */
  lemma {:induction false} CompletedCallsAgree(events: seq<Event>)
    requires NoneCut(events)
    ensures Agrees(SerialRun(EMPTY_WORLD, events))
  {
    if events == [] {
      EmptyAgrees();
    } else {
      var front, e := events[..|events| - 1], events[|events| - 1];
      CompletedCallsAgree(front);
      var w := SerialRun(EMPTY_WORLD, front);
      hide Agrees, Serve;
      match e
      case Whole(r) => ServeAgrees(w, r);
      case _ => QuietAgrees(w, e);
    }
  }

  lemma EmptyAgrees()
    ensures Agrees(EMPTY_WORLD)
  {
  }

  // ----- Refusals -----

  /** The manifest a create names: an empty version stands for the active one. */
  predicate Names(w: World, ref: ModelRef, v: VersionId, named: VersionId) {
    if v == "" then ref in w.active && named == w.active[ref] else named == v
  }

  ghost predicate TargetVerified(w: World, r: Request)
    requires r.Create?
  {
    exists v :: Names(w, r.modelRef, r.versionId, v) && Verified(w, v)
  }

  predicate ActiveVerified(w: World, ref: ModelRef) {
    ref in w.active && Verified(w, w.active[ref])
  }

  /** A promote, abort, or automatic call on a recorded rollout that is at the stage the call was issued for. */
  predicate Addressed(w: World, r: Request) {
    && (r.Promote? || r.Abort? || r.AutoAdvance? || r.AutoRollback?) && r.rolloutId in w.rollouts
    && (r.AutoAdvance? || r.AutoRollback? ==> w.rollouts[r.rolloutId].stage == r.fromStage)
  }

  /** Why a request is refused with `e`. */
  ghost predicate Refuses(w: World, r: Request, e: Error) {
    match e
    case InvalidJson => (r.Register? && !r.specIsJson) || (r.Create? && !r.strategyIsJson)
    case RolloutNotFound => !r.Register? && !r.Create? && r.rolloutId !in w.rollouts
    case ConcurrentUpdate =>
      (r.AutoAdvance? || r.AutoRollback?) && r.rolloutId in w.rollouts && w.rollouts[r.rolloutId].stage != r.fromStage
    case NotRunning => Addressed(w, r) && w.rollouts[r.rolloutId].status != Running
    case AlreadyFullyPromoted =>
      Addressed(w, r) && w.rollouts[r.rolloutId].status == Running
      && (r.Promote? || r.AutoAdvance?) && w.rollouts[r.rolloutId].stage == Stable
    case ManifestNotFound =>
      r.Create? && r.strategyIsJson && !exists v :: Names(w, r.modelRef, r.versionId, v) && v in w.manifests
    case InvalidSignature =>
      r.Create? && r.strategyIsJson && !TargetVerified(w, r)
      && exists v :: Names(w, r.modelRef, r.versionId, v) && v in w.manifests
    case NoActiveVersion =>
      r.Create? && r.strategyIsJson && TargetVerified(w, r) && !ActiveVerified(w, r.modelRef)
    case AlreadyRunning =>
      r.Create? && r.strategyIsJson && TargetVerified(w, r) && ActiveVerified(w, r.modelRef)
      && exists id :: IsRunning(w, id, r.modelRef)
    case ConstraintViolation =>
      || (r.Register? && r.specIsJson && (r.versionId == "" || r.versionId in w.manifests))
      || (r.Create? && r.strategyIsJson && TargetVerified(w, r) && ActiveVerified(w, r.modelRef)
          && (forall id :: !IsRunning(w, id, r.modelRef)) && (r.rolloutId in w.rollouts || r.versionId == ""))
      || (Addressed(w, r) && w.rollouts[r.rolloutId].status == Running && (r.Promote? || r.AutoAdvance?)
          && w.rollouts[r.rolloutId].stage == Canary50 && w.rollouts[r.rolloutId].versionId !in w.manifests)
  }

  /** From any state: a request is refused with an error exactly for that error's reason, and then changes nothing. */
  lemma RefusedIff(w: World, r: Request, e: Error)
    ensures Serve(w, r).1 == Failed(e) <==> Refuses(w, r, e)
    ensures Serve(w, r).1.Failed? ==> Serve(w, r).0 == w
  {
    ServeMeans(w, r);
    hide Serve;
    if r.Create? {
      CreateRefused(w, r, e);
    } else if r.Register? {
      hide Verified, SignedPayload;
    } else {
      hide Verified, Written, StageEnvelope;
    }
  }

  lemma CreateRefused(w: World, r: Request, e: Error)
    requires r.Create?
    ensures ServeSpec(w, r).1 == Failed(e) <==> Refuses(w, r, e)
    ensures ServeSpec(w, r).1.Failed? ==> ServeSpec(w, r).0 == w
  {
    var named := Lookup(w, r.modelRef, r.versionId);
    assert HasRunning(w.rollouts, r.modelRef) <==> exists id :: IsRunning(w, id, r.modelRef) by {
      if HasRunning(w.rollouts, r.modelRef) {
        var id :| id in w.rollouts && w.rollouts[id].modelRef == r.modelRef && w.rollouts[id].status == Running;
        assert IsRunning(w, id, r.modelRef);
      }
    }
    TargetLookup(w, r);
    hide Lookup, HasRunning, Names, TargetVerified, IsRunning, Verified, Written, StageEnvelope, Inserted;
  }

  lemma TargetLookup(w: World, r: Request)
    requires r.Create?
    ensures Lookup(w, r.modelRef, r.versionId).Ok? <==> TargetVerified(w, r)
    ensures Lookup(w, r.modelRef, r.versionId) == Err(ManifestNotFound) <==>
      !exists v :: Names(w, r.modelRef, r.versionId, v) && v in w.manifests
    ensures Lookup(w, r.modelRef, "").Ok? <==> ActiveVerified(w, r.modelRef)
  {
    var v := if r.versionId == "" && r.modelRef in w.active then w.active[r.modelRef] else r.versionId;
    if r.versionId != "" || r.modelRef in w.active {
      assert Names(w, r.modelRef, r.versionId, v);
    }
    hide Genuine;
  }

  /** A row that kept its identity columns and was last written now. */
  predicate Rewritten(r: Rollout, r': Rollout, now: nat) {
    && r'.modelRef == r.modelRef && r'.versionId == r.versionId && r'.stableVersionId == r.stableVersionId
    && r'.startedAt == r.startedAt && r'.stageEnteredAt == now
    && r'.endedAt == if r'.status == Running then None else Some(now)
  }

  /** The envelope of a rollout that has just reached `stage`. */
  function StagedEnvelope(r: Rollout, stage: Stage): ActiveEnvelope {
    match stage
    case Canary1 => ActiveEnvelope(r.stableVersionId, r.versionId, 1)
    case Canary10 => ActiveEnvelope(r.stableVersionId, r.versionId, 10)
    case Canary50 => ActiveEnvelope(r.stableVersionId, r.versionId, 50)
    case Stable => ActiveEnvelope(r.versionId, "", 0)
    case Pending => ActiveEnvelope(r.stableVersionId, "", 0)
  }

  /** What the answer `o` to request `r` promises about the state before and after the call, store by store. */
  predicate Promises(w: World, r: Request, w': World, o: Outcome) {
    match o
    case Failed(_) => w' == w
    case Registered(v, activated) =>
      && r.Register? && v == r.versionId && v !in w.manifests
      && activated == (r.modelRef !in w.active)
      && var m := Manifest(r.modelRef, r.spec, Sealed(v + "|" + r.modelRef + "|" + r.spec));
      && w'.manifests == w.manifests[v := m] && w'.etcdManifests == w.etcdManifests[(r.modelRef, v) := m]
      && w'.rollouts == w.rollouts && w'.now == w.now
      && (if activated then
            w'.active == w.active[r.modelRef := v] && w'.envelopes == w.envelopes[r.modelRef := ActiveEnvelope(v, "", 0)]
          else w'.active == w.active && w'.envelopes == w.envelopes)
    case Reverted =>
      && (r.Abort? || r.AutoRollback?) && r.rolloutId in w.rollouts && r.rolloutId in w'.rollouts
      && var row, row' := w.rollouts[r.rolloutId], w'.rollouts[r.rolloutId];
      && row.status == Running && Rewritten(row, row', w.now)
      && row'.status == (if r.Abort? then Aborted else RolledBack) && row'.stage == row.stage
      && row.modelRef in w.active
      && w' == w.(rollouts := w.rollouts[r.rolloutId := row'],
                  envelopes := w.envelopes[row.modelRef := ActiveEnvelope(w.active[row.modelRef], "", 0)])
    case Advanced(next) =>
      && !r.Register? && !r.Abort? && !r.AutoRollback? && r.rolloutId in w'.rollouts
      && var row' := w'.rollouts[r.rolloutId];
      && (if r.Create? then
            && r.rolloutId !in w.rollouts && next == Canary1
            && row'.modelRef == r.modelRef && row'.versionId == r.versionId && row'.startedAt == w.now
            && row'.stageEnteredAt == w.now && row'.endedAt == None
          else
            && r.rolloutId in w.rollouts && w.rollouts[r.rolloutId].status == Running
            && Next(w.rollouts[r.rolloutId].stage) == Some(next)
            && Rewritten(w.rollouts[r.rolloutId], row', w.now))
      && row'.stage == next && row'.status == (if next == Stable then Promoted else Running)
      && row'.modelRef in w.active && row'.stableVersionId == w.active[row'.modelRef]
      && w' == w.(rollouts := w.rollouts[r.rolloutId := row'],
                  envelopes := w.envelopes[row'.modelRef := StagedEnvelope(row', next)],
                  active := if next == Stable then w.active[row'.modelRef := row'.versionId] else w.active)
  }

  /** What each answer a caller gets says about the live state, starting from agreement. */
  lemma AnswersMeanWhatTheySay(w: World, r: Request)
    requires Agrees(w)
    ensures Promises(w, r, Serve(w, r).0, Serve(w, r).1)
  {
    ServeMeans(w, r);
    if r.Register? {
      RegisterPromises(w, r);
    } else {
      RowRefAgrees(w, r.rolloutId);
      hide Agrees, Serve;
      if r.Create? {
        CreatePromises(w, r);
      } else if r.Promote? || r.AutoAdvance? {
        AdvancePromises(w, r);
      } else {
        RevertPromises(w, r);
      }
    }
  }

  lemma RegisterPromises(w: World, r: Request)
    requires r.Register?
    ensures Promises(w, r, ServeSpec(w, r).0, ServeSpec(w, r).1)
  {
  }

  lemma CreatePromises(w: World, r: Request)
    requires r.Create?
    ensures Promises(w, r, ServeSpec(w, r).0, ServeSpec(w, r).1)
  {
    hide Verified, HasRunning;
  }

  lemma AdvancePromises(w: World, r: Request)
    requires r.Promote? || r.AutoAdvance?
    requires r.rolloutId in w.rollouts && w.rollouts[r.rolloutId].status == Running ==>
      RunningAgrees(w, w.rollouts[r.rolloutId])
    ensures Promises(w, r, ServeSpec(w, r).0, ServeSpec(w, r).1)
  {
    hide Verified;
  }

  lemma RevertPromises(w: World, r: Request)
    requires r.Abort? || r.AutoRollback?
    requires r.rolloutId in w.rollouts && w.rollouts[r.rolloutId].status == Running ==>
      RunningAgrees(w, w.rollouts[r.rolloutId])
    ensures Promises(w, r, ServeSpec(w, r).0, ServeSpec(w, r).1)
  {
    hide Verified;
  }

  lemma RowRefAgrees(w: World, id: RolloutId)
    requires Agrees(w)
    ensures id in w.rollouts ==> RowOk(w.rollouts[id])
    ensures id in w.rollouts && w.rollouts[id].status == Running ==> RunningAgrees(w, w.rollouts[id])
  {
    hide WorldVerified, RowOk, RunningAgrees;
    if id in w.rollouts && w.rollouts[id].status == Running {
      assert IsRunning(w, id, w.rollouts[id].modelRef) && RefAgrees(w, w.rollouts[id].modelRef);
    }
  }

  // ----- Calls cut off in the middle -----

  /** etcd shows the recorded stage, the next one, or the state before the rollout. */
  predicate WithinOneMove(r: Rollout, e: ActiveEnvelope) {
    || e == StageEnvelope(r, r.stage)
    || (Next(r.stage).Some? && e == StageEnvelope(r, Next(r.stage).value))
    || e == StableOnly(r.stableVersionId)
  }

  ghost predicate RunningWithin(w: World, r: Rollout) {
    && r.modelRef in w.active
    && (r.stage != Pending ==> r.modelRef in w.envelopes && WithinOneMove(r, w.envelopes[r.modelRef]))
  }

  ghost predicate CrashOk(w: World) {
    && WorldVerified(w) && RowsOk(w) && OneRunning(w)
    && forall id | id in w.rollouts && w.rollouts[id].status == Running :: RunningWithin(w, w.rollouts[id])
  }

  /** What an uninterrupted call knows about the state at each of its accesses. */
  ghost predicate SoloOk(w: World, c: Call) {
    match c
    case RegSetActive(v, ref) => ref !in w.active
    case RegPublishActive(v, ref) => !HasRunning(w.rollouts, ref)
    case CreateRunning(id, ref, v, stable) => ref in w.active
    case CreateInsert(id, ref, v, stable) => ref in w.active && !HasRunning(w.rollouts, ref)
    case AdvanceActivate(id, row) => Holds(w, id, row) && row.stage == Canary50
    case AdvancePublishActive(id, row) => Holds(w, id, row) && row.stage == Canary50
    case AdvancePublish(id, row, next) => Holds(w, id, row) && Next(row.stage) == Some(next) && next != Stable
    case AdvanceUpdate(id, row, next) => Holds(w, id, row) && Next(row.stage) == Some(next)
      && row.modelRef in w.envelopes && w.envelopes[row.modelRef] == StageEnvelope(row, next)
    case RevertRead(id, result, _) => result == Aborted || result == RolledBack
    case RevertPublish(id, row, result) => Holds(w, id, row) && (result == Aborted || result == RolledBack)
    case RevertUpdate(id, row, result) => Holds(w, id, row) && (result == Aborted || result == RolledBack)
      && row.modelRef in w.envelopes && w.envelopes[row.modelRef] == StableOnly(row.stableVersionId)
    case _ => true
  }

  predicate Holds(w: World, id: RolloutId, row: Rollout) {
    id in w.rollouts && w.rollouts[id] == row && row.status == Running
  }

  lemma StepSolo(w: World, c: Call)
    requires CrashOk(w) && SoloOk(w, c)
    ensures SoloOk(Step(w, c).0, Step(w, c).1)
  {
    if c.RegSetActive? {
      SoloBootstrap(w, c);
    } else if c.RegPublishActive? {
      hide CrashOk;
    } else if c.AdvancePublish? || c.RevertPublish? || c.AdvancePublishActive? || c.AdvanceActivate? {
      PublishSolo(w, c);
    } else if c.AdvanceUpdate? || c.RevertUpdate? {
      WriteFinishes(w, c);
      hide CrashOk, Step;
    } else {
      ReadSolo(w, c);
    }
  }

  /** Reads and checks, and the first accesses of a registration or a create. */
  lemma ReadSolo(w: World, c: Call)
    requires SoloOk(w, c) && !c.RegSetActive? && !WritesEnvelope(c) && !c.AdvanceActivate?
    requires !c.AdvanceUpdate? && !c.RevertUpdate?
    ensures SoloOk(Step(w, c).0, Step(w, c).1)
  {
    hide StageEnvelope, Genuine, HasRunning, Verified;
  }

  lemma PublishSolo(w: World, c: Call)
    requires SoloOk(w, c)
    requires c.AdvancePublish? || c.RevertPublish? || c.AdvancePublishActive? || c.AdvanceActivate?
    ensures SoloOk(Step(w, c).0, Step(w, c).1)
  {
    hide UpdateRollout, HasRunning, Genuine, Lookup;
  }

  lemma SoloBootstrap(w: World, c: Call)
    requires CrashOk(w) && c.RegSetActive? && SoloOk(w, c)
    ensures SoloOk(Step(w, c).0, Step(w, c).1)
  {
  }

  /** Each single access of an uninterrupted call keeps etcd within one move of the running row. */
  lemma StepCrashOk(w: World, c: Call)
    requires CrashOk(w) && SoloOk(w, c) && CallVerified(w, c)
    ensures CrashOk(Step(w, c).0)
  {
    assert WorldVerified(w);
    StepVerified(w, c);
    StepFrame(w, c);
    StepRowsKeep(w, c);
    StepWithin(w, c);
  }

  lemma StepRowsKeep(w: World, c: Call)
    requires RowsOk(w) && OneRunning(w) && SoloOk(w, c)
    ensures RowsOk(Step(w, c).0) && OneRunning(Step(w, c).0)
  {
    hide Genuine;
    StepFrame(w, c);
    var w' := Step(w, c).0;
    if c.CreateInsert? {
      hide Lookup;
      forall ref, i, j | IsRunning(w', i, ref) && IsRunning(w', j, ref) ensures i == j {
        assert i != c.id ==> IsRunning(w, i, ref);
        assert j != c.id ==> IsRunning(w, j, ref);
      }
    } else if c.AdvanceUpdate? || c.RevertUpdate? {
      UpdateRowsKeep(w, c);
    } else {
      assert forall i, ref :: IsRunning(w', i, ref) == IsRunning(w, i, ref);
    }
  }

  lemma UpdateRowsKeep(w: World, c: Call)
    requires RowsOk(w) && OneRunning(w) && SoloOk(w, c) && (c.AdvanceUpdate? || c.RevertUpdate?)
    ensures RowsOk(Step(w, c).0) && OneRunning(Step(w, c).0)
  {
    var w' := Step(w, c).0;
    assert w'.rollouts == w.rollouts[c.id := NewRow(w, c)];
    assert RowOk(w.rollouts[c.id]);
    assert RowOk(NewRow(w, c)) && NewRow(w, c).modelRef == c.row.modelRef;
    hide Step, NewRow, RowOk, SoloOk;
    forall ref, i, j | IsRunning(w', i, ref) && IsRunning(w', j, ref) ensures i == j {
      assert IsRunning(w, c.id, c.row.modelRef);
      assert i != c.id ==> IsRunning(w, i, ref);
      assert j != c.id ==> IsRunning(w, j, ref);
    }
  }

  lemma StepWithin(w: World, c: Call)
    requires CrashOk(w) && SoloOk(w, c)
    ensures var w' := Step(w, c).0;
      forall id | id in w'.rollouts && w'.rollouts[id].status == Running :: RunningWithin(w', w'.rollouts[id])
  {
    hide WorldVerified, RowsOk;
    var w' := Step(w, c).0;
    StepFrame(w, c);
    if WritesEnvelope(c) {
      PublishWithin(w, c);
    } else if WritesRows(c) {
      WriteWithin(w, c);
    } else {
      hide Step, SoloOk, WithinOneMove, OneRunning;
      forall id | id in w'.rollouts && w'.rollouts[id].status == Running ensures RunningWithin(w', w'.rollouts[id]) {
        assert RunningWithin(w, w.rollouts[id]);
      }
    }
  }

  lemma PublishWithin(w: World, c: Call)
    requires CrashOk(w) && SoloOk(w, c) && WritesEnvelope(c)
    ensures var w' := Step(w, c).0;
      forall id | id in w'.rollouts && w'.rollouts[id].status == Running :: RunningWithin(w', w'.rollouts[id])
  {
    hide WorldVerified, RowsOk;
    var w' := Step(w, c).0;
    StepFrame(w, c);
    var ref := Target(c);
    if !c.RegPublishActive? {
      assert IsRunning(w, c.id, ref);
      assert WithinOneMove(c.row, NewEnvelope(c));
    }
    assert c.RegPublishActive? ==> forall i :: !IsRunning(w, i, ref);
    assert w'.active == w.active && w'.rollouts == w.rollouts;
    hide Step, WithinOneMove, NewEnvelope, HasRunning;
    forall id | id in w'.rollouts && w'.rollouts[id].status == Running ensures RunningWithin(w', w'.rollouts[id]) {
      assert RunningWithin(w, w.rollouts[id]);
      if w.rollouts[id].modelRef == ref {
        assert IsRunning(w, id, ref);
        assert id == c.id;
      }
    }
  }

  lemma WriteWithin(w: World, c: Call)
    requires CrashOk(w) && SoloOk(w, c) && WritesRows(c)
    ensures var w' := Step(w, c).0;
      forall id | id in w'.rollouts && w'.rollouts[id].status == Running :: RunningWithin(w', w'.rollouts[id])
  {
    hide WorldVerified, RowsOk, OneRunning;
    var w' := Step(w, c).0;
    StepFrame(w, c);
    assert w'.active == w.active && w'.envelopes == w.envelopes;
    forall id | id in w'.rollouts && w'.rollouts[id].status == Running ensures RunningWithin(w', w'.rollouts[id]) {
      if id in w.rollouts && w'.rollouts[id] == w.rollouts[id] {
        assert RunningWithin(w, w.rollouts[id]);
      } else if !c.CreateInsert? {
        assert RunningWithin(w, w.rollouts[c.id]);
      }
    }
  }

  lemma {:induction false} CutCrashOk(w: World, c: Call, k: nat)
    requires CrashOk(w) && SoloOk(w, c) && CallVerified(w, c)
    ensures var (w', c') := Steps(w, c, k); CrashOk(w') && SoloOk(w', c') && CallVerified(w', c')
  {
    hide Step, CrashOk, SoloOk, CallVerified;
    if k > 0 {
      CutCrashOk(w, c, k - 1);
      var (w', c') := Steps(w, c, k - 1);
      StepCrashOk(w', c');
      StepSolo(w', c');
      assert WorldVerified(w') by {
        CrashVerified(w');
      }
      StepVerified(w', c');
    }
  }

  lemma CrashVerified(w: World)
    requires CrashOk(w)
    ensures WorldVerified(w)
  {
    hide WorldVerified;
  }

  lemma StartSolo(w: World, r: Request)
    ensures SoloOk(w, Start(r)) && CallVerified(w, Start(r))
  {
    hide Verified;
  }

  lemma QuietCrashOk(w: World, e: Event)
    requires CrashOk(w) && (e.Elapse? || e.Inject?)
    ensures CrashOk(SerialApply(w, e))
  {
    var w' := SerialApply(w, e);
    assert ManifestsGrow(w, w');
    QuietEvent(w, e);
    hide SerialApply, WithinOneMove, ManifestsGrow, WorldVerified;
    WorldVerifiedPersists(w, w');
    assert OneRunning(w') by {
      assert forall i, ref :: IsRunning(w', i, ref) == IsRunning(w, i, ref);
    }
    hide OneRunning;
    forall id | id in w'.rollouts && w'.rollouts[id].status == Running ensures RunningWithin(w', w'.rollouts[id]) {
      assert RunningWithin(w, w.rollouts[id]);
    }
  }

  /** Whatever calls crash wherever, etcd stays within one move of every running rollout past `pending`. */
  lemma {:induction false} CrashedCallsStayClose(events: seq<Event>)
    ensures CrashOk(SerialRun(EMPTY_WORLD, events))
  {
    if events != [] {
      var front, e := events[..|events| - 1], events[|events| - 1];
      CrashedCallsStayClose(front);
      var w := SerialRun(EMPTY_WORLD, front);
      hide CrashOk, SoloOk, CallVerified, Steps, Serve;
      match e
      case Whole(r) =>
        StartSolo(w, r);
        CutCrashOk(w, Start(r), Remaining(Start(r)));
        WholeIsCut(w, r);
      case Cut(r, k) =>
        StartSolo(w, r);
        CutCrashOk(w, Start(r), k);
      case _ => QuietCrashOk(w, e);
    }
  }

  lemma WholeIsCut(w: World, r: Request)
    ensures Serve(w, r).0 == Steps(w, Start(r), Remaining(Start(r))).0
  {
    hide Complete, Steps;
    StepsComplete(w, Start(r));
  }

  /** An advance or revert of this rollout, human or automatic, the automatic ones issued for its recorded stage. */
  predicate Moves(r: Request, id: RolloutId, stage: Stage) {
    r == Promote(id) || r == Abort(id) || r == AutoAdvance(id, stage) || r == AutoRollback(id, stage)
  }

  predicate Reverts(r: Request) {
    r.Abort? || r.AutoRollback?
  }

  /**
   The next advance or revert that completes after any crashes succeeds on a running rollout and makes etcd
   describe its row exactly; the registry pointer agrees too, except after a revert over a half-done activation.
   */
  lemma NextCallRepairs(w: World, id: RolloutId, r: Request)
    requires CrashOk(w) && id in w.rollouts && w.rollouts[id].status == Running
    requires Moves(r, id, w.rollouts[id].stage)
    ensures var row := w.rollouts[id];
      var (w', o) := Serve(w, r);
      && (if Reverts(r) then o == Reverted else o == Advanced(Next(row.stage).value))
      && id in w'.rollouts && row.modelRef in w'.envelopes && row.modelRef in w'.active
      && w'.envelopes[row.modelRef] == RowEnvelope(w'.rollouts[id])
      && (w'.rollouts[id].status != Running ==>
            (w'.active[row.modelRef] == w'.envelopes[row.modelRef].stable <==>
               !Reverts(r) || w.active[row.modelRef] == row.stableVersionId))
  {
    hide Complete, OneRunning;
    var row := w.rollouts[id];
    assert RunningWithin(w, row) && RowOk(row);
    assert RowVerified(w, row);
    hide CrashOk, RowsOk, WorldVerified, WithinOneMove;
    ServeMeans(w, r);
    hide Serve;
  }
}
