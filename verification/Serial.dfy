/**
 Calls run one at a time, either to completion or cut off after any number of accesses, with rows written
 around the service and time passing in between.
 */
module Serial {
  import opened Prelude
  import opened Stages
  import opened Protocol
  import opened Interleaving

  // ----- Running one call -----

  ghost function Complete(w: World, c: Call): (World, Outcome)
    decreases Remaining(c)
  {
    if c.Done? then (w, c.outcome)
    else
      StepProgress(w, c);
      var (w', c') := Step(w, c);
      Complete(w', c')
  }

  ghost function Serve(w: World, r: Request): (World, Outcome) {
    Complete(w, Start(r))
  }

  /** The first `k` accesses of a call. */
  ghost function Steps(w: World, c: Call, k: nat): (World, Call) {
    if k == 0 then (w, c)
    else
      var (w', c') := Steps(w, c, k - 1);
      Step(w', c')
  }

  lemma {:induction false} StepsToward(w: World, c: Call, k: nat)
    ensures var (w', c') := Steps(w, c, k);
      Complete(w', c') == Complete(w, c) && (c'.Done? || Remaining(c') + k <= Remaining(c))
  {
    hide Step;
    if k > 0 {
      StepsToward(w, c, k - 1);
      var (w', c') := Steps(w, c, k - 1);
      StepProgress(w', c');
      if c'.Done? {
        DoneStays(w', c');
      }
    }
  }

  lemma DoneStays(w: World, c: Call)
    requires c.Done?
    ensures Step(w, c) == (w, c)
  {
  }

  /** Enough accesses finish the call. */
  lemma StepsComplete(w: World, c: Call)
    ensures var (w', c') := Steps(w, c, Remaining(c)); c'.Done? && Complete(w, c) == (w', c'.outcome)
  {
    hide Step;
    StepsToward(w, c, Remaining(c));
    var (w', c') := Steps(w, c, Remaining(c));
    StepProgress(w', c');
  }

  // ----- What whole calls do -----

  ghost function AdvanceSpec(w: World, id: RolloutId, require: Option<Stage>): (World, Outcome) {
    if id !in w.rollouts then (w, Failed(RolloutNotFound))
    else
      var row := w.rollouts[id];
      if require.Some? && row.stage != require.value then (w, Failed(ConcurrentUpdate))
      else if row.status != Running then (w, Failed(NotRunning))
      else if row.stage == Stable then (w, Failed(AlreadyFullyPromoted))
      else if row.stage == Canary50 then
        if row.versionId !in w.manifests then (w, Failed(ConstraintViolation))
        else
          (w.(active := w.active[row.modelRef := row.versionId],
              envelopes := w.envelopes[row.modelRef := StableOnly(row.versionId)],
              rollouts := w.rollouts[id := Written(row, Stable, Promoted, w.now)]),
           Advanced(Stable))
      else
        var next := Next(row.stage).value;
        (w.(envelopes := w.envelopes[row.modelRef := StageEnvelope(row, next)],
            rollouts := w.rollouts[id := Written(row, next, Running, w.now)]),
         Advanced(next))
  }

  ghost function RevertSpec(w: World, id: RolloutId, result: Status, require: Option<Stage>): (World, Outcome) {
    if id !in w.rollouts then (w, Failed(RolloutNotFound))
    else
      var row := w.rollouts[id];
      if require.Some? && row.stage != require.value then (w, Failed(ConcurrentUpdate))
      else if row.status != Running then (w, Failed(NotRunning))
      else
        (w.(envelopes := w.envelopes[row.modelRef := StableOnly(row.stableVersionId)],
            rollouts := w.rollouts[id := Written(row, row.stage, result, w.now)]),
         Reverted)
  }

  ghost function RegisterSpec(w: World, v: VersionId, ref: ModelRef, spec: string): (World, Outcome) {
    if v == "" || v in w.manifests then (w, Failed(ConstraintViolation))
    else
      var m := Manifest(ref, spec, Sign(SignedPayload(v, ref, spec)));
      var w1 := w.(manifests := w.manifests[v := m], etcdManifests := w.etcdManifests[(ref, v) := m]);
      if ref in w.active then (w1, Registered(v, false))
      else (w1.(active := w.active[ref := v], envelopes := w.envelopes[ref := StableOnly(v)]), Registered(v, true))
  }

  ghost function CreateSpec(w: World, id: RolloutId, ref: ModelRef, v: VersionId): (World, Outcome) {
    if Lookup(w, ref, v).Err? then (w, Failed(Lookup(w, ref, v).error))
    else if Lookup(w, ref, "").Err? then (w, Failed(NoActiveVersion))
    else if HasRunning(w.rollouts, ref) then (w, Failed(AlreadyRunning))
    else if id in w.rollouts || v == "" then (w, Failed(ConstraintViolation))
    else
      var row := Inserted(w, ref, v, w.active[ref]);
      (w.(envelopes := w.envelopes[ref := StageEnvelope(row, Canary1)],
          rollouts := w.rollouts[id := Written(row, Canary1, Running, w.now)]),
       Advanced(Canary1))
  }

  ghost function ServeSpec(w: World, r: Request): (World, Outcome) {
    match r
    case Register(v, ref, spec, ok) => if ok then RegisterSpec(w, v, ref, spec) else (w, Failed(InvalidJson))
    case Create(id, ref, v, ok) => if ok then CreateSpec(w, id, ref, v) else (w, Failed(InvalidJson))
    case Promote(id) => AdvanceSpec(w, id, None)
    case Abort(id) => RevertSpec(w, id, Aborted, None)
    case AutoAdvance(id, from) => AdvanceSpec(w, id, Some(from))
    case AutoRollback(id, from) => RevertSpec(w, id, RolledBack, Some(from))
  }

  lemma OneStep(w: World, c: Call)
    ensures !c.Done? ==> Complete(w, c) == Complete(Step(w, c).0, Step(w, c).1)
    ensures c.Done? ==> Complete(w, c) == (w, c.outcome)
  {
    hide Step;
  }

  lemma CompleteUpdate(w: World, c: Call)
    requires c.AdvanceUpdate? || c.RevertUpdate?
    ensures var (w', c') := Step(w, c); c'.Done? && Complete(w, c) == (w', c'.outcome)
  {
  }

  lemma CompleteAdvance(w: World, id: RolloutId, require: Option<Stage>)
    ensures Complete(w, AdvanceRead(id, require)) == AdvanceSpec(w, id, require)
  {
    hide Complete, Genuine;
    var c0 := AdvanceRead(id, require);
    OneStep(w, c0);
    var (w1, c1) := Step(w, c0);
    OneStep(w1, c1);
    if c1.AdvancePublish? {
      var (w2, c2) := Step(w1, c1);
      CompleteUpdate(w2, c2);
      assert w2.rollouts[id] == c1.row;
    } else if c1.AdvanceActivate? {
      var (w2, c2) := Step(w1, c1);
      OneStep(w2, c2);
      if !c2.Done? {
        var (w3, c3) := Step(w2, c2);
        CompleteUpdate(w3, c3);
        assert w3.rollouts[id] == c1.row;
      }
    }
  }

  lemma CompleteRevert(w: World, id: RolloutId, result: Status, require: Option<Stage>)
    ensures Complete(w, RevertRead(id, result, require)) == RevertSpec(w, id, result, require)
  {
    hide Complete, Genuine;
    var c0 := RevertRead(id, result, require);
    OneStep(w, c0);
    var (w1, c1) := Step(w, c0);
    OneStep(w1, c1);
    if c1.RevertPublish? {
      var (w2, c2) := Step(w1, c1);
      CompleteUpdate(w2, c2);
      assert w2.rollouts[id] == c1.row;
    }
  }

  lemma CompleteRegister(w: World, v: VersionId, ref: ModelRef, spec: string)
    ensures Complete(w, RegInsert(v, ref, spec)) == RegisterSpec(w, v, ref, spec)
  {
    hide Complete, SignedPayload;
    var c0 := RegInsert(v, ref, spec);
    OneStep(w, c0);
    var (w1, c1) := Step(w, c0);
    OneStep(w1, c1);
    if c1.RegPublish? {
      var (w2, c2) := Step(w1, c1);
      OneStep(w2, c2);
      var (w3, c3) := Step(w2, c2);
      OneStep(w3, c3);
      if c3.RegSetActive? {
        var (w4, c4) := Step(w3, c3);
        OneStep(w4, c4);
        var (w5, c5) := Step(w4, c4);
        OneStep(w5, c5);
      }
    }
  }

  lemma CompleteCreate(w: World, id: RolloutId, ref: ModelRef, v: VersionId)
    ensures Complete(w, CreateTarget(id, ref, v)) == CreateSpec(w, id, ref, v)
  {
    hide Complete, Genuine, HasRunning, Verified;
    var c0 := CreateTarget(id, ref, v);
    OneStep(w, c0);
    var (w1, c1) := Step(w, c0);
    OneStep(w1, c1);
    if c1.CreateActive? {
      var (w2, c2) := Step(w1, c1);
      OneStep(w2, c2);
      if c2.CreateRunning? {
        var (w3, c3) := Step(w2, c2);
        OneStep(w3, c3);
        if c3.CreateInsert? {
          CompleteInsert(w3, c3);
        }
      }
    }
  }

  lemma CompleteInsert(w: World, c: Call)
    requires c.CreateInsert?
    ensures Complete(w, c) ==
      if c.id in w.rollouts || c.versionId == "" then (w, Failed(ConstraintViolation))
      else
        var row := Inserted(w, c.modelRef, c.versionId, c.stable);
        (w.(envelopes := w.envelopes[c.modelRef := StageEnvelope(row, Canary1)],
            rollouts := w.rollouts[c.id := Written(row, Canary1, Running, w.now)]),
         Advanced(Canary1))
  {
    hide Complete;
    OneStep(w, c);
    var (w', c') := Step(w, c);
    if c'.AdvanceRead? {
      CompleteAdvance(w', c.id, None);
      var row := Inserted(w, c.modelRef, c.versionId, c.stable);
      assert w'.rollouts[c.id := Written(row, Canary1, Running, w.now)]
          == w.rollouts[c.id := Written(row, Canary1, Running, w.now)];
    } else {
      OneStep(w', c');
    }
  }

  /** Access by access and in one piece, an uninterrupted call does the same thing. */
  lemma ServeMeans(w: World, r: Request)
    ensures Serve(w, r) == ServeSpec(w, r)
  {
    hide Complete, AdvanceSpec, RevertSpec, RegisterSpec, CreateSpec;
    match r
    case Register(v, ref, spec, ok) => if ok { CompleteRegister(w, v, ref, spec); } else { OneStep(w, Start(r)); }
    case Create(id, ref, v, ok) => if ok { CompleteCreate(w, id, ref, v); } else { OneStep(w, Start(r)); }
    case Promote(id) => CompleteAdvance(w, id, None);
    case Abort(id) => CompleteRevert(w, id, Aborted, None);
    case AutoAdvance(id, from) => CompleteAdvance(w, id, Some(from));
    case AutoRollback(id, from) => CompleteRevert(w, id, RolledBack, Some(from));
  }

  // ----- Serial histories -----

  datatype Event =
    | Whole(request: Request)
    | Cut(request: Request, accesses: nat) // crashed, or its next access failed
    | Elapse(duration: nat)
    | Inject(versionId: VersionId, manifest: Manifest)

  ghost function SerialApply(w: World, e: Event): World {
    match e
    case Whole(r) => Serve(w, r).0
    case Cut(r, k) => Steps(w, Start(r), k).0
    case Elapse(d) => w.(now := w.now + d)
    case Inject(v, m) => if v == "" || v in w.manifests then w else w.(manifests := w.manifests[v := m])
  }

  ghost function SerialRun(w: World, events: seq<Event>): World {
    if events == [] then w
    else SerialApply(SerialRun(w, events[..|events| - 1]), events[|events| - 1])
  }

  // ----- Every serial history is an interleaving -----

  function Accesses(cid: nat, k: nat): seq<Action> {
    seq(k, _ => Access(cid))
  }

  ghost function AsActions(e: Event, cid: nat): seq<Action> {
    match e
    case Whole(r) => [Invoke(cid, r)] + Accesses(cid, Remaining(Start(r)))
    case Cut(r, k) => [Invoke(cid, r)] + Accesses(cid, k)
    case Elapse(d) => [Pass(d)]
    case Inject(v, m) => [DirectInsert(v, m)]
  }

  ghost function AllActions(events: seq<Event>): seq<Action> {
    if events == [] then []
    else AllActions(events[..|events| - 1]) + AsActions(events[|events| - 1], |events|)
  }

  lemma RunSnoc(s: System, actions: seq<Action>, a: Action)
    ensures Run(s, actions + [a]) == Apply(Run(s, actions), a)
  {
  }

  lemma {:induction false} SoloCall(pre: seq<Action>, cid: nat, r: Request, k: nat)
    requires cid !in Run(INITIAL, pre).calls
    ensures var s, s' := Run(INITIAL, pre), Run(INITIAL, pre + ([Invoke(cid, r)] + Accesses(cid, k)));
      && s'.w == Steps(s.w, Start(r), k).0
      && s'.calls == s.calls[cid := Steps(s.w, Start(r), k).1]
      && s'.requests == s.requests[cid := r]
  {
    hide Step, Start;
    var s := Run(INITIAL, pre);
    if k == 0 {
      assert pre + ([Invoke(cid, r)] + Accesses(cid, k)) == pre + [Invoke(cid, r)];
      RunSnoc(INITIAL, pre, Invoke(cid, r));
      hide Run;
    } else {
      SoloCall(pre, cid, r, k - 1);
      var before := pre + ([Invoke(cid, r)] + Accesses(cid, k - 1));
      assert pre + ([Invoke(cid, r)] + Accesses(cid, k)) == before + [Access(cid)];
      RunSnoc(INITIAL, before, Access(cid));
      AccessUnfold(Run(INITIAL, before), cid);
      hide Run, Apply;
    }
  }

  /** The serial model is the interleaved one, scheduled one call at a time. */
  lemma {:induction false} SerialIsInterleaved(events: seq<Event>)
    ensures var s := Run(INITIAL, AllActions(events));
      && s.w == SerialRun(EMPTY_WORLD, events)
      && forall cid | cid in s.calls :: cid <= |events|
  {
    if events != [] {
      var front, e, cid := events[..|events| - 1], events[|events| - 1], |events|;
      SerialIsInterleaved(front);
      EventScheduled(AllActions(front), e, cid);
      hide Run, AsActions, SerialApply;
    }
  }

  /** One event after a schedule that has not used its call number. */
  lemma EventScheduled(pre: seq<Action>, e: Event, cid: nat)
    requires cid !in Run(INITIAL, pre).calls
    ensures var s, s' := Run(INITIAL, pre), Run(INITIAL, pre + AsActions(e, cid));
      && s'.w == SerialApply(s.w, e)
      && forall other | other in s'.calls :: other == cid || other in s.calls
  {
    var s := Run(INITIAL, pre);
    match e
    case Whole(r) =>
      SoloCall(pre, cid, r, Remaining(Start(r)));
      StepsComplete(s.w, Start(r));
      hide Run, Steps, Complete, Start;
    case Cut(r, k) =>
      SoloCall(pre, cid, r, k);
      hide Run, Steps, Start;
    case Elapse(d) =>
      RunSnoc(INITIAL, pre, Pass(d));
      ClockTick(s, d);
      hide Run, Apply;
    case Inject(v, m) =>
      RunSnoc(INITIAL, pre, DirectInsert(v, m));
      RowInjected(s, v, m);
      hide Run, Apply, SerialApply;
  }

  lemma ClockTick(s: System, d: nat)
    ensures Apply(s, Pass(d)) == s.(w := s.w.(now := s.w.now + d))
  {
  }

  lemma RowInjected(s: System, v: VersionId, m: Manifest)
    ensures Apply(s, DirectInsert(v, m)).w == SerialApply(s.w, Inject(v, m))
    ensures Apply(s, DirectInsert(v, m)).calls == s.calls
  {
  }
}
