/** What a call still in flight can overwrite, read off the schedule so far. */
module Overtaking {
  import opened Prelude
  import opened Stages
  import opened Protocol
  import opened Interleaving
  import opened Safety

  // ----- The last envelope written for a model -----

  predicate Publishes(s: System, a: Action, ref: ModelRef) {
    a.Access? && a.cid in s.calls && WritesEnvelope(s.calls[a.cid]) && Target(s.calls[a.cid]) == ref
  }

  /** The call, as it was then, whose access last wrote the envelope of `ref`. */
  ghost function LastPublish(actions: seq<Action>, ref: ModelRef): Option<Call> {
    if actions == [] then None
    else
      var front, a := actions[..|actions| - 1], actions[|actions| - 1];
      if Publishes(Reached(front), a, ref) then Some(Reached(front).calls[a.cid]) else LastPublish(front, ref)
  }

  lemma {:induction false} LastPublishIsLive(actions: seq<Action>, ref: ModelRef)
    ensures var last, envelopes := LastPublish(actions, ref), Reached(actions).w.envelopes;
      && (last.Some? <==> ref in envelopes)
      && (last.Some? ==> WritesEnvelope(last.value) && envelopes[ref] == NewEnvelope(last.value))
  {
    if actions != [] {
      var front, a := actions[..|actions| - 1], actions[|actions| - 1];
      LastPublishIsLive(front, ref);
      ApplyEnvelopes(Reached(front), a, ref);
      hide Apply, NewEnvelope, Publishes;
    }
  }

  lemma ApplyEnvelopes(s: System, a: Action, ref: ModelRef)
    ensures var e, e' := s.w.envelopes, Apply(s, a).w.envelopes;
      if Publishes(s, a, ref) then ref in e' && e'[ref] == NewEnvelope(s.calls[a.cid])
      else (ref in e' <==> ref in e) && (ref in e ==> e'[ref] == e[ref])
  {
    if a.Access? && a.cid in s.calls {
      AccessUnfold(s, a.cid);
      StepFrame(s.w, s.calls[a.cid]);
      hide Apply, Step, NewEnvelope;
    }
  }

  // ----- A rollout that is over -----

  predicate Over(s: System, id: RolloutId) {
    id in s.w.rollouts && s.w.rollouts[id].status != Running
  }

  /** etcd shows how the rollout ended. */
  predicate FinalLive(s: System, id: RolloutId) {
    && id in s.w.rollouts && s.w.rollouts[id].modelRef in s.w.envelopes
    && s.w.envelopes[s.w.rollouts[id].modelRef] == RowEnvelope(s.w.rollouts[id])
  }

  /** The call holds a snapshot of rollout `id` and will publish `e` for it. */
  predicate WillPublish(c: Call, id: RolloutId, e: ActiveEnvelope) {
    if c.AdvanceActivate? then c.id == id && e == StableOnly(c.row.versionId)
    else PublishesFor(c, id) && NewEnvelope(c) == e
  }

  /** No call in flight will publish anything for the rollout but its end. */
  ghost predicate NothingStale(s: System, id: RolloutId)
    requires id in s.w.rollouts
  {
    forall cid, e | cid in s.calls && WillPublish(s.calls[cid], id, e) :: e == RowEnvelope(s.w.rollouts[id])
  }

  /** In `more`, the envelope of the rollout's model is written by calls on this rollout only. */
  ghost predicate OwnPublishesOnly(actions: seq<Action>, more: seq<Action>, id: RolloutId) {
    more == [] ||
    (var front, a := more[..|more| - 1], more[|more| - 1];
     var s := Reached(actions + front);
     && OwnPublishesOnly(actions, front, id)
     && id in s.w.rollouts
     && (Publishes(s, a, s.w.rollouts[id].modelRef) ==> PublishesFor(s.calls[a.cid], id)))
  }

  /** A call takes no new snapshot of a rollout that is over. */
  lemma NoNewSnapshot(w: World, c: Call, id: RolloutId, e: ActiveEnvelope)
    requires id in w.rollouts && w.rollouts[id].status != Running
    requires WillPublish(Step(w, c).1, id, e)
    ensures WillPublish(c, id, e)
  {
    hide Lookup, HasRunning, UpdateRollout, Genuine;
  }

  lemma ApplyStale(s: System, a: Action, id: RolloutId)
    requires Inv(s) && Over(s, id) && NothingStale(s, id)
    requires id in Apply(s, a).w.rollouts && Apply(s, a).w.rollouts[id] == s.w.rollouts[id]
    ensures NothingStale(Apply(s, a), id)
  {
    if a.Access? && a.cid in s.calls {
      AccessStale(s, Apply(s, a), a.cid, id) by {
        AccessUnfold(s, a.cid);
        hide Apply, Step, Inv, NothingStale;
      }
    } else {
      InvKeys(s);
      StartsClean(s, a, id);
      hide Apply, WillPublish, Inv, RowEnvelope;
    }
  }

  lemma AccessStale(s: System, s': System, cid: nat, id: RolloutId)
    requires Over(s, id) && NothingStale(s, id) && cid in s.calls
    requires s'.calls == s.calls[cid := Step(s.w, s.calls[cid]).1]
    requires id in s'.w.rollouts && s'.w.rollouts[id] == s.w.rollouts[id]
    ensures NothingStale(s', id)
  {
    hide Step, WillPublish, RowEnvelope;
    forall other, e | other in s'.calls && WillPublish(s'.calls[other], id, e) ensures e == RowEnvelope(s.w.rollouts[id]) {
      if other == cid {
        NoNewSnapshot(s.w, s.calls[cid], id, e);
      }
    }
  }

  lemma StartsClean(s: System, a: Action, id: RolloutId)
    requires !a.Access? || a.cid !in s.calls
    ensures var s' := Apply(s, a);
      forall cid, e | cid in s'.calls && WillPublish(s'.calls[cid], id, e) :: cid in s.calls && s'.calls[cid] == s.calls[cid]
  {
  }

  lemma {:induction false} StaysFinal(actions: seq<Action>, more: seq<Action>, id: RolloutId)
    requires Over(Reached(actions), id) && FinalLive(Reached(actions), id) && NothingStale(Reached(actions), id)
    requires OwnPublishesOnly(actions, more, id)
    ensures var s := Reached(actions + more); Over(s, id) && FinalLive(s, id) && NothingStale(s, id)
  {
    if more == [] {
      assert actions + more == actions;
    } else {
      var front, a := more[..|more| - 1], more[|more| - 1];
      StaysFinal(actions, front, id);
      assert (actions + more)[..|actions + more| - 1] == actions + front;
      var s := Reached(actions + front);
      assert Reached(actions + more) == Apply(s, a);
      RunKeepsInv(actions + front);
      TerminalRowsFrozen(actions, front, id);
      TerminalRowsFrozen(actions, more, id);
      assert Publishes(s, a, s.w.rollouts[id].modelRef) ==> PublishesFor(s.calls[a.cid], id);
      hide Reached, Run, OwnPublishesOnly, Inv, Publishes, Apply, NothingStale, FinalLive;
      FinalStep(s, a, id);
    }
  }

  lemma FinalStep(s: System, a: Action, id: RolloutId)
    requires Inv(s) && Over(s, id) && FinalLive(s, id) && NothingStale(s, id)
    requires Publishes(s, a, s.w.rollouts[id].modelRef) ==> PublishesFor(s.calls[a.cid], id)
    requires id in Apply(s, a).w.rollouts && Apply(s, a).w.rollouts[id] == s.w.rollouts[id]
    ensures FinalLive(Apply(s, a), id) && NothingStale(Apply(s, a), id)
  {
    ApplyEnvelopes(s, a, s.w.rollouts[id].modelRef);
    ApplyStale(s, a, id);
    hide Apply, Inv, NewEnvelope, RowEnvelope;
    if Publishes(s, a, s.w.rollouts[id].modelRef) {
      assert WillPublish(s.calls[a.cid], id, NewEnvelope(s.calls[a.cid]));
    }
    hide NothingStale;
  }

  /** A call about to publish something else for the rollout can be scheduled to do so. */
  lemma CanPublish(actions: seq<Action>, cid: nat, id: RolloutId, e: ActiveEnvelope)
    requires cid in Reached(actions).calls && PublishesFor(Reached(actions).calls[cid], id)
    requires NewEnvelope(Reached(actions).calls[cid]) == e
    requires id in Reached(actions).w.rollouts && e != RowEnvelope(Reached(actions).w.rollouts[id])
    ensures OwnPublishesOnly(actions, [Access(cid)], id) && !FinalLive(Reached(actions + [Access(cid)]), id)
  {
    var s := Reached(actions);
    RunKeepsInv(actions);
    PublisherFits(s, cid, id, e);
    hide Inv, Run, Apply, NewEnvelope, RowEnvelope;
    OneAction(actions, Access(cid));
    PublishNow(s, cid);
    OwnOne(actions, cid, id);
    hide Reached, OwnPublishesOnly;
  }

  /** So can one that has an activation to do first. */
  lemma CanActivateAndPublish(actions: seq<Action>, cid: nat, id: RolloutId, e: ActiveEnvelope)
    requires cid in Reached(actions).calls && Reached(actions).calls[cid].AdvanceActivate?
    requires WillPublish(Reached(actions).calls[cid], id, e)
    requires id in Reached(actions).w.rollouts && e != RowEnvelope(Reached(actions).w.rollouts[id])
    ensures OwnPublishesOnly(actions, [Access(cid)] + [Access(cid)], id)
    ensures !FinalLive(Reached(actions + ([Access(cid)] + [Access(cid)])), id)
  {
    hide *;
    Activated(actions, cid, id, e);
    CanPublish(actions + [Access(cid)], cid, id, e);
    assert actions + ([Access(cid)] + [Access(cid)]) == actions + [Access(cid)] + [Access(cid)];
    OwnTwo(actions, cid, id);
  }

  lemma Activated(actions: seq<Action>, cid: nat, id: RolloutId, e: ActiveEnvelope)
    requires cid in Reached(actions).calls && Reached(actions).calls[cid].AdvanceActivate?
    requires WillPublish(Reached(actions).calls[cid], id, e)
    ensures var s, s1 := Reached(actions), Reached(actions + [Access(cid)]);
      && s1.w.rollouts == s.w.rollouts && !WritesEnvelope(s.calls[cid])
      && cid in s1.calls && PublishesFor(s1.calls[cid], id) && NewEnvelope(s1.calls[cid]) == e
  {
    RunKeepsInv(actions);
    PublisherFits(Reached(actions), cid, id, e);
    ActivateFirst(Reached(actions), cid);
    OneAction(actions, Access(cid));
    hide Inv, Run, Apply, NewEnvelope, Reached, PublishesFor;
  }

  lemma PublisherFits(s: System, cid: nat, id: RolloutId, e: ActiveEnvelope)
    requires Inv(s) && cid in s.calls && WillPublish(s.calls[cid], id, e)
    ensures var c := s.calls[cid];
      && id in s.w.rollouts && s.w.rollouts[id].modelRef == c.row.modelRef
      && (c.AdvanceActivate? ==> c.row.versionId in s.w.manifests)
  {
    InvCall(s, cid);
    InvHistories(s);
    assert Snapshot(s.hist, id, s.calls[cid].row);
    SnapshotBehind(s, id, s.calls[cid].row);
    hide Inv, SnapshotsOk, NewEnvelope, SnapshotOk;
  }

  lemma OwnOne(actions: seq<Action>, cid: nat, id: RolloutId)
    requires var s := Reached(actions);
      cid in s.calls && id in s.w.rollouts && (PublishesFor(s.calls[cid], id) || !WritesEnvelope(s.calls[cid]))
    ensures OwnPublishesOnly(actions, [Access(cid)], id)
  {
    var more := [Access(cid)];
    assert more[..0] == [] && actions + [] == actions;
    hide Reached;
  }

  lemma OwnTwo(actions: seq<Action>, cid: nat, id: RolloutId)
    requires var s, s1 := Reached(actions), Reached(actions + [Access(cid)]);
      && cid in s.calls && id in s.w.rollouts && !WritesEnvelope(s.calls[cid])
      && cid in s1.calls && id in s1.w.rollouts && PublishesFor(s1.calls[cid], id)
    ensures OwnPublishesOnly(actions, [Access(cid)] + [Access(cid)], id)
  {
    OwnOne(actions, cid, id);
    var more := [Access(cid)] + [Access(cid)];
    assert more[..1] == [Access(cid)];
    hide Reached;
  }

  lemma OneAction(actions: seq<Action>, a: Action)
    ensures Reached(actions + [a]) == Apply(Reached(actions), a)
  {
  }

  lemma PublishNow(s: System, cid: nat)
    requires cid in s.calls && WritesEnvelope(s.calls[cid])
    ensures var s', c := Apply(s, Access(cid)), s.calls[cid];
      && s'.w.rollouts == s.w.rollouts && Target(c) in s'.w.envelopes && s'.w.envelopes[Target(c)] == NewEnvelope(c)
  {
    AccessUnfold(s, cid);
    StepFrame(s.w, s.calls[cid]);
    hide Step, Apply, NewEnvelope;
  }

  lemma ActivateFirst(s: System, cid: nat)
    requires cid in s.calls && s.calls[cid].AdvanceActivate? && s.calls[cid].row.versionId in s.w.manifests
    ensures var s', c := Apply(s, Access(cid)), s.calls[cid];
      && s'.w.rollouts == s.w.rollouts
      && cid in s'.calls && PublishesFor(s'.calls[cid], c.id)
      && NewEnvelope(s'.calls[cid]) == StableOnly(c.row.versionId)
  {
  }

  /**
   When an end sticks. A rollout is over: etcd shows how it ended, and goes on showing it until some other
   rollout publishes for the model, exactly when the last envelope written for the model is that one and no call
   in flight still holds a snapshot of the rollout from which it will publish another.
   */
  lemma EndSticksIff(actions: seq<Action>, id: RolloutId)
    requires Over(Reached(actions), id)
    ensures var s := Reached(actions);
      var last := LastPublish(actions, s.w.rollouts[id].modelRef);
      (forall more | OwnPublishesOnly(actions, more, id) :: FinalLive(Reached(actions + more), id))
      <==>
      (last.Some? && WritesEnvelope(last.value) && NewEnvelope(last.value) == RowEnvelope(s.w.rollouts[id])
       && NothingStale(s, id))
  {
    var s := Reached(actions);
    LastPublishIsLive(actions, s.w.rollouts[id].modelRef);
    hide LastPublish, Reached, NewEnvelope, RowEnvelope;
    if FinalLive(s, id) && NothingStale(s, id) {
      forall more | OwnPublishesOnly(actions, more, id) ensures FinalLive(Reached(actions + more), id) {
        StaysFinal(actions, more, id);
      }
    } else if !FinalLive(s, id) {
      assert actions + [] == actions && OwnPublishesOnly(actions, [], id);
    } else {
      var cid, e :| cid in s.calls && WillPublish(s.calls[cid], id, e) && e != RowEnvelope(s.w.rollouts[id]);
      if s.calls[cid].AdvanceActivate? {
        CanActivateAndPublish(actions, cid, id, e);
      } else {
        CanPublish(actions, cid, id, e);
      }
    }
  }

  // ----- Registrations that activate -----

  predicate Activates(s: System, a: Action, ref: ModelRef) {
    && a.Access? && a.cid in s.calls && WritesActive(s.calls[a.cid]) && Target(s.calls[a.cid]) == ref
    && NewActive(s.calls[a.cid]) in s.w.manifests
  }

  /** When the active pointer of `ref` was last written, and with what. */
  ghost function LastActivation(actions: seq<Action>, ref: ModelRef): Option<(nat, VersionId)> {
    if actions == [] then None
    else
      var front, a := actions[..|actions| - 1], actions[|actions| - 1];
      if Activates(Reached(front), a, ref) then Some((|front|, NewActive(Reached(front).calls[a.cid])))
      else LastActivation(front, ref)
  }

  /** When call `cid` last made an access. */
  function LastAccess(actions: seq<Action>, cid: nat): Option<nat> {
    if actions == [] then None
    else if actions[|actions| - 1] == Access(cid) then Some(|actions| - 1)
    else LastAccess(actions[..|actions| - 1], cid)
  }

  lemma {:induction false} LastActivationIsLive(actions: seq<Action>, ref: ModelRef)
    ensures var last, active := LastActivation(actions, ref), Reached(actions).w.active;
      && (last.Some? <==> ref in active)
      && (last.Some? ==> last.value.0 < |actions| && active[ref] == last.value.1)
  {
    if actions != [] {
      var front, a := actions[..|actions| - 1], actions[|actions| - 1];
      LastActivationIsLive(front, ref);
      ApplyActive(Reached(front), a, ref);
      hide Apply, NewActive, Activates;
    }
  }

  lemma ApplyActive(s: System, a: Action, ref: ModelRef)
    ensures var v, v' := s.w.active, Apply(s, a).w.active;
      if Activates(s, a, ref) then ref in v' && v'[ref] == NewActive(s.calls[a.cid])
      else (ref in v' <==> ref in v) && (ref in v ==> v'[ref] == v[ref])
  {
    if a.Access? && a.cid in s.calls {
      AccessUnfold(s, a.cid);
      StepFrame(s.w, s.calls[a.cid]);
      RefusedActivation(s.w, s.calls[a.cid]);
      hide Apply, Step, NewActive;
    }
  }

  lemma RefusedActivation(w: World, c: Call)
    ensures WritesActive(c) && NewActive(c) !in w.manifests ==> Step(w, c).0.active == w.active
  {
  }

  /** At its own check a registration saw nothing live, so whatever is live at its activation landed in between. */
  lemma {:induction false} ActivatedSinceCheck(actions: seq<Action>, cid: nat)
    requires cid in Reached(actions).calls && Reached(actions).calls[cid].RegSetActive?
    ensures var last := LastActivation(actions, Reached(actions).calls[cid].modelRef);
      && LastAccess(actions, cid).Some?
      && (last.Some? ==> last.value.0 > LastAccess(actions, cid).value)
  {
    var front, a := actions[..|actions| - 1], actions[|actions| - 1];
    var s := Reached(front);
    var ref := Reached(actions).calls[cid].modelRef;
    CameFrom(s, a, cid);
    LastAccessBefore(front, cid);
    hide Apply, Activates;
    if a == Access(cid) {
      LastActivationIsLive(front, ref);
      assert !Activates(s, a, ref) by {
        CheckActivatesNothing(s, a, ref);
      }
    } else {
      ActivatedSinceCheck(front, cid);
    }
  }

  lemma CheckActivatesNothing(s: System, a: Action, ref: ModelRef)
    requires a.Access? && a.cid in s.calls && s.calls[a.cid].RegCheck?
    ensures !Activates(s, a, ref)
  {
  }

  lemma LastAccessBefore(actions: seq<Action>, cid: nat)
    ensures LastAccess(actions, cid).Some? ==> LastAccess(actions, cid).value < |actions|
  {
  }

  lemma CameFrom(s: System, a: Action, cid: nat)
    requires cid in Apply(s, a).calls && Apply(s, a).calls[cid].RegSetActive?
    ensures cid in s.calls
    ensures if a == Access(cid)
            then s.calls[cid] == RegCheck(Apply(s, a).calls[cid].versionId, Apply(s, a).calls[cid].modelRef)
                 && Apply(s, a).calls[cid].modelRef !in s.w.active
            else s.calls[cid] == Apply(s, a).calls[cid]
  {
    hide Lookup, HasRunning, UpdateRollout, Observe;
  }

  /** The access takes a live version of `ref` away. */
  predicate Replaces(w: World, w': World, ref: ModelRef) {
    ref in w.active && (ref !in w'.active || w'.active[ref] != w.active[ref])
  }

  /**
   When a registration replaces a live version: only at its activation, and there exactly when another
   activation of the model landed after its own check and the last of them carried another version.
   */
  lemma RegistrationReplacesIff(actions: seq<Action>, cid: nat, ref: ModelRef)
    requires cid in Reached(actions).calls && cid in Reached(actions).requests
    requires Reached(actions).requests[cid].Register?
    ensures var s := Reached(actions);
      var c, last, check := s.calls[cid], LastActivation(actions, ref), LastAccess(actions, cid);
      Replaces(s.w, Apply(s, Access(cid)).w, ref) <==>
        && c.RegSetActive? && c.modelRef == ref
        && last.Some? && check.Some? && last.value.0 > check.value && last.value.1 != c.versionId
  {
    var s := Reached(actions);
    var c := s.calls[cid];
    RunKeepsInv(actions);
    InvCall(s, cid);
    LastActivationIsLive(actions, ref);
    if c.RegSetActive? {
      ActivatedSinceCheck(actions, cid);
    }
    ApplyActive(s, Access(cid), ref);
    hide Reached, Run, Inv, LastActivation, LastAccess, Apply;
  }
}
