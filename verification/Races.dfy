/**
 Concrete interleavings and crashes in which the service does not do what its documentation asks for. The exact
 conditions under which it does are proved here and in Overtaking, Agreement and Closeness.
 */
module Races {
  import opened Prelude
  import opened Stages
  import opened Protocol
  import opened Interleaving
  import opened Serial
  import opened Agreement

  const TWO_VERSIONS: seq<Event> :=
    [Whole(Register("v1", "m", "{}", true)), Whole(Register("v2", "m", "{}", true))]

  const STARTED: seq<Event> := TWO_VERSIONS + [Whole(Create("r", "m", "v2", true))]

  function Row(stage: Stage): Rollout {
    Rollout("m", "v2", stage, Running, "v1", 0, None, 0)
  }

  lemma SerialSnoc(events: seq<Event>, e: Event)
    ensures SerialRun(EMPTY_WORLD, events + [e]) == SerialApply(SerialRun(EMPTY_WORLD, events), e)
  {
  }

  lemma TwoVersionsWorld()
    ensures var w := SerialRun(EMPTY_WORLD, TWO_VERSIONS);
      && w.now == 0 && w.rollouts == map[] && w.active == map["m" := "v1"] && w.envelopes == map["m" := StableOnly("v1")]
      && w.manifests.Keys == {"v1", "v2"} && Verified(w, "v1") && Verified(w, "v2")
  {
    var r1, r2 := Register("v1", "m", "{}", true), Register("v2", "m", "{}", true);
    assert TWO_VERSIONS == ([] + [Whole(r1)]) + [Whole(r2)];
    SerialSnoc([], Whole(r1));
    SerialSnoc([Whole(r1)], Whole(r2));
    assert [] + [Whole(r1)] == [Whole(r1)];
    ServeMeans(EMPTY_WORLD, r1);
    ServeMeans(Serve(EMPTY_WORLD, r1).0, r2);
    hide Serve, SignedPayload, SerialRun;
  }

  lemma StartedWorld()
    ensures var w := SerialRun(EMPTY_WORLD, STARTED);
      && w.now == 0 && w.rollouts == map["r" := Row(Canary1)] && w.active == map["m" := "v1"]
      && w.envelopes == map["m" := ActiveEnvelope("v1", "v2", 1)]
      && w.manifests.Keys == {"v1", "v2"} && Verified(w, "v1") && Verified(w, "v2")
  {
    TwoVersionsWorld();
    var c := Create("r", "m", "v2", true);
    SerialSnoc(TWO_VERSIONS, Whole(c));
    ServeMeans(SerialRun(EMPTY_WORLD, TWO_VERSIONS), c);
    hide Serve, SerialRun, Genuine;
  }

  lemma Snoc(pre: seq<Action>, a: Action) returns (next: seq<Action>)
    ensures next == pre + [a] && Run(INITIAL, next) == Apply(Run(INITIAL, pre), a)
  {
    hide Apply;
    RunSnoc(INITIAL, pre, a);
    next := pre + [a];
  }

  /** One access of call `cid`, seen from outside: the world and the call move by one step. */
  lemma Move(pre: seq<Action>, cid: nat) returns (next: seq<Action>)
    requires cid in Run(INITIAL, pre).calls
    ensures var s, s' := Run(INITIAL, pre), Run(INITIAL, next);
      && s'.calls.Keys == s.calls.Keys && (s'.w, s'.calls[cid]) == Step(s.w, s.calls[cid])
      && forall other | other in s.calls && other != cid :: s'.calls[other] == s.calls[other]
  {
    next := Snoc(pre, Access(cid));
    AccessUnfold(Run(INITIAL, pre), cid);
    hide Apply, Step, Run;
  }

  /** `k` accesses of call `cid` in a row. */
  lemma {:induction false} Moves(pre: seq<Action>, cid: nat, k: nat) returns (next: seq<Action>)
    requires cid in Run(INITIAL, pre).calls
    ensures var s, s' := Run(INITIAL, pre), Run(INITIAL, next);
      && s'.calls.Keys == s.calls.Keys && (s'.w, s'.calls[cid]) == Steps(s.w, s.calls[cid], k)
      && forall other | other in s.calls && other != cid :: s'.calls[other] == s.calls[other]
  {
    hide Step, Run;
    if k == 0 {
      next := pre;
    } else {
      next := Moves(pre, cid, k - 1);
      next := Move(next, cid);
    }
  }

  lemma TwoSteps(w: World, c: Call)
    ensures Steps(w, c, 1) == Step(w, c)
    ensures Steps(w, c, 2) == Step(Step(w, c).0, Step(w, c).1)
  {
  }

  lemma ThreeSteps(w: World, c: Call)
    ensures Steps(w, c, 3) == Step(Steps(w, c, 2).0, Steps(w, c, 2).1)
  {
    hide Step;
  }

  lemma Open(pre: seq<Action>, cid: nat, r: Request) returns (next: seq<Action>)
    requires cid !in Run(INITIAL, pre).calls
    ensures var s, s' := Run(INITIAL, pre), Run(INITIAL, next);
      && s'.w == s.w && s'.calls == s.calls[cid := Start(r)]
  {
    next := Snoc(pre, Invoke(cid, r));
    hide Start, Run;
  }

  /** A rollout recorded as aborted while its canary has ten percent of the traffic; the promote 10 lost to the abort 11. */
  predicate AbortOvertaken(s: System) {
    && "r" in s.w.rollouts && s.w.rollouts["r"].status == Aborted
    && "m" in s.w.envelopes && s.w.envelopes["m"] == ActiveEnvelope("v1", "v2", 10)
    && 10 in s.calls && s.calls[10] == Done(Failed(ConcurrentUpdate))
    && 11 in s.calls && s.calls[11] == Done(Reverted)
  }

  /**
   An abort does not stick: a promote that read the row before the abort publishes after it, loses its
   compare-and-swap, and leaves a tenth of the traffic on a canary whose rollout is recorded as aborted.
   Overtaking.EndSticksIff says exactly when the end of a rollout sticks.
   */
  lemma AbortedCanaryStaysLive() returns (actions: seq<Action>)
    ensures AbortOvertaken(Run(INITIAL, actions))
  {
    SerialIsInterleaved(STARTED);
    StartedWorld();
    AbortRace(SerialRun(EMPTY_WORLD, STARTED));
    hide Run, SerialRun, Genuine, Step, Start, Steps;
    var a := AllActions(STARTED);
    assert 10 !in Run(INITIAL, a).calls && 11 !in Run(INITIAL, a).calls;
    a := Open(a, 10, Promote("r"));
    a := Moves(a, 10, 1);
    a := Open(a, 11, Abort("r"));
    a := Moves(a, 11, 3);
    actions := Moves(a, 10, 2);
  }

  /** The same race seen on the shared state alone. */
  lemma AbortRace(w: World)
    requires w.now == 0 && w.rollouts == map["r" := Row(Canary1)]
    ensures var (w1, promote) := Steps(w, Start(Promote("r")), 1);
      var (w2, abort) := Steps(w1, Start(Abort("r")), 3);
      var (w3, lost) := Steps(w2, promote, 2);
      && abort == Done(Reverted) && lost == Done(Failed(ConcurrentUpdate))
      && "r" in w3.rollouts && w3.rollouts["r"].status == Aborted
      && "m" in w3.envelopes && w3.envelopes["m"] == ActiveEnvelope("v1", "v2", 10)
  {
    var p, q := Start(Promote("r")), Start(Abort("r"));
    assert Steps(w, p, 1) == (w, AdvancePublish("r", Row(Canary1), Canary10)) by {
      TwoSteps(w, p);
    }
    AbortAlone(w);
    var (w2, abort) := Steps(w, q, 3);
    LosePublished(w2);
    hide Steps, Step;
  }

  lemma AbortAlone(w: World)
    requires w.rollouts == map["r" := Row(Canary1)]
    ensures var (w', c') := Steps(w, Start(Abort("r")), 3);
      c' == Done(Reverted) && "r" in w'.rollouts && w'.rollouts["r"].status == Aborted
  {
    StepsComplete(w, Start(Abort("r")));
    CompleteRevert(w, "r", Aborted, None);
    hide Steps, Complete;
  }

  lemma LosePublished(w: World)
    requires "r" in w.rollouts && w.rollouts["r"].status == Aborted
    ensures var (w', c') := Steps(w, AdvancePublish("r", Row(Canary1), Canary10), 2);
      && c' == Done(Failed(ConcurrentUpdate)) && w'.rollouts == w.rollouts
      && "m" in w'.envelopes && w'.envelopes["m"] == ActiveEnvelope("v1", "v2", 10)
  {
    TwoSteps(w, AdvancePublish("r", Row(Canary1), Canary10));
    hide Steps;
  }

  /** Two creates that both pass the check before either inserts leave two rollouts running for one model. */
  lemma TwoRolloutsRun() returns (actions: seq<Action>)
    ensures var w := Run(INITIAL, actions).w; IsRunning(w, "r1", "m") && IsRunning(w, "r2", "m")
  {
    SerialIsInterleaved(TWO_VERSIONS);
    TwoVersionsWorld();
    var w := SerialRun(EMPTY_WORLD, TWO_VERSIONS);
    CreateUpToInsert(w, "r1");
    CreateUpToInsert(w, "r2");
    CreateRace(w);
    hide Run, SerialRun, Genuine, Step, Start, Steps, Verified;
    var a := AllActions(TWO_VERSIONS);
    assert 10 !in Run(INITIAL, a).calls && 11 !in Run(INITIAL, a).calls;
    a := Open(a, 10, Create("r1", "m", "v2", true));
    a := Open(a, 11, Create("r2", "m", "v2", true));
    a := Moves(a, 10, 3);
    a := Moves(a, 11, 3);
    a := Move(a, 10);
    actions := Move(a, 11);
  }

  lemma CreateUpToInsert(w: World, id: RolloutId)
    requires w.rollouts == map[] && w.active == map["m" := "v1"] && Verified(w, "v1") && Verified(w, "v2")
    ensures Steps(w, Start(Create(id, "m", "v2", true)), 3) == (w, CreateInsert(id, "m", "v2", "v1"))
  {
    hide Genuine;
    var c := Start(Create(id, "m", "v2", true));
    TwoSteps(w, c);
    ThreeSteps(w, c);
    hide Steps;
  }

  lemma CreateRace(w: World)
    requires w.rollouts == map[]
    ensures var w1 := Step(w, CreateInsert("r1", "m", "v2", "v1")).0;
      var w2 := Step(w1, CreateInsert("r2", "m", "v2", "v1")).0;
      IsRunning(w2, "r1", "m") && IsRunning(w2, "r2", "m")
  {
  }

  /** A single access breaks "one running rollout per model" exactly when it inserts beside a running one. */
  lemma OneRunningLostIff(w: World, c: Call)
    requires OneRunning(w)
    ensures OneRunning(Step(w, c).0) <==>
      !(c.CreateInsert? && c.id !in w.rollouts && c.versionId != "" && HasRunning(w.rollouts, c.modelRef))
  {
    hide Genuine, Lookup;
    StepFrame(w, c);
    var w' := Step(w, c).0;
    if c.CreateInsert? && c.id !in w.rollouts && c.versionId != "" {
      InsertBeside(w, c);
    } else if c.AdvanceUpdate? || c.RevertUpdate? {
      UpdateBeside(w, c);
    } else {
      assert w'.rollouts == w.rollouts;
      assert forall i, ref :: IsRunning(w', i, ref) == IsRunning(w, i, ref);
    }
  }

  lemma InsertBeside(w: World, c: Call)
    requires OneRunning(w) && c.CreateInsert? && c.id !in w.rollouts && c.versionId != ""
    ensures OneRunning(Step(w, c).0) <==> !HasRunning(w.rollouts, c.modelRef)
  {
    var w' := Step(w, c).0;
    assert w'.rollouts == w.rollouts[c.id := Inserted(w, c.modelRef, c.versionId, c.stable)];
    hide Step;
    assert IsRunning(w', c.id, c.modelRef);
    if HasRunning(w.rollouts, c.modelRef) {
      var i :| i in w.rollouts && w.rollouts[i].modelRef == c.modelRef && w.rollouts[i].status == Running;
      assert IsRunning(w', i, c.modelRef);
    } else {
      forall ref, i, j | IsRunning(w', i, ref) && IsRunning(w', j, ref) ensures i == j {
        assert i != c.id ==> IsRunning(w, i, ref);
        assert j != c.id ==> IsRunning(w, j, ref);
      }
    }
  }

  lemma UpdateBeside(w: World, c: Call)
    requires OneRunning(w) && (c.AdvanceUpdate? || c.RevertUpdate?)
    ensures OneRunning(Step(w, c).0)
  {
    var w' := Step(w, c).0;
    forall ref, i, j | IsRunning(w', i, ref) && IsRunning(w', j, ref) ensures i == j {
      assert IsRunning(w, i, ref) && IsRunning(w, j, ref);
    }
  }

  /** `v` is live for the model, by pointer and envelope, and no rollout was ever created. */
  predicate LiveWithoutRollout(w: World, v: VersionId) {
    && w.rollouts == map[]
    && "m" in w.active && w.active["m"] == v
    && "m" in w.envelopes && w.envelopes["m"] == StableOnly(v)
  }

  /**
   Two first registrations that both see no live version: the second replaces a live one with no rollout.
   Overtaking.RegistrationReplacesIff says exactly when a registration does.
   */
  lemma RegistrationReplacesLive() returns (before: seq<Action>)
    ensures LiveWithoutRollout(Run(INITIAL, before).w, "v1")
    ensures LiveWithoutRollout(Run(INITIAL, before + [Access(11), Access(11)]).w, "v2")
  {
    var a := BothRegistrationsChecked();
    var w2 := Run(INITIAL, a).w;
    ActivateBootstrap(w2, "v1");
    ActivateBootstrap(w2.(active := w2.active["m" := "v1"], envelopes := w2.envelopes["m" := StableOnly("v1")]), "v2");
    hide Run, Steps, Step, Apply;
    before := Moves(a, 10, 2);
    TwoSteps(Run(INITIAL, before).w, Run(INITIAL, before).calls[11]);
    var _ := TwoAccesses(before, 11);
  }

  lemma TwoAccesses(pre: seq<Action>, cid: nat) returns (next: seq<Action>)
    requires cid in Run(INITIAL, pre).calls
    ensures next == pre + [Access(cid), Access(cid)]
    ensures var s := Run(INITIAL, pre);
      Run(INITIAL, next).w == Step(Step(s.w, s.calls[cid]).0, Step(s.w, s.calls[cid]).1).0
  {
    hide Run, Step;
    var mid := Snoc(pre, Access(cid));
    AccessUnfold(Run(INITIAL, pre), cid);
    next := Snoc(mid, Access(cid));
    AccessUnfold(Run(INITIAL, mid), cid);
    assert pre + [Access(cid)] + [Access(cid)] == pre + [Access(cid), Access(cid)];
  }

  predicate BothSawNothingLive(s: System) {
    && s.w.active == map[] && s.w.rollouts == map[] && s.w.manifests.Keys == {"v1", "v2"}
    && 10 in s.calls && s.calls[10] == RegSetActive("v1", "m")
    && 11 in s.calls && s.calls[11] == RegSetActive("v2", "m")
  }

  lemma BothRegistrationsChecked() returns (a: seq<Action>)
    ensures BothSawNothingLive(Run(INITIAL, a))
  {
    a := [];
    assert Run(INITIAL, a) == INITIAL;
    var r1, r2 := Register("v1", "m", "{}", true), Register("v2", "m", "{}", true);
    RegisterUpToActivation(INITIAL.w, "v1");
    RegisterUpToActivation(Steps(INITIAL.w, Start(r1), 3).0, "v2");
    hide Run, Steps, Start, Step, Apply;
    a := Open(a, 10, r1);
    a := Open(a, 11, r2);
    a := Moves(a, 10, 3);
    a := Moves(a, 11, 3);
  }

  lemma ActivateBootstrap(w: World, v: VersionId)
    requires v in w.manifests
    ensures var w' := Steps(w, RegSetActive(v, "m"), 2).0;
      && w' == w.(active := w.active["m" := v], envelopes := w.envelopes["m" := StableOnly(v)])
  {
    TwoSteps(w, RegSetActive(v, "m"));
    hide Steps;
  }

  lemma RegisterUpToActivation(w: World, v: VersionId)
    requires w.active == map[] && v !in w.manifests && v != ""
    ensures var (w', c') := Steps(w, Start(Register(v, "m", "{}", true)), 3);
      && c' == RegSetActive(v, "m") && w'.active == map[] && w'.rollouts == w.rollouts
      && w'.manifests.Keys == w.manifests.Keys + {v}
  {
    hide SignedPayload;
    var c := Start(Register(v, "m", "{}", true));
    TwoSteps(w, c);
    ThreeSteps(w, c);
    hide Steps;
  }

  const HALF_PROMOTED: seq<Event> :=
    STARTED + [Whole(Promote("r"))] + [Whole(Promote("r"))] + [Cut(Promote("r"), 2)] + [Whole(Abort("r"))]

  /**
   An abort after a promotion that crashed right after moving the registry pointer: etcd serves the old
   version, the registry says the new one. Agreement.NextCallRepairs gives the exact condition.
   */
  lemma RegistryLeftBehind()
    ensures var w := SerialRun(EMPTY_WORLD, HALF_PROMOTED);
      && "m" in w.active && w.active["m"] == "v2"
      && "m" in w.envelopes && w.envelopes["m"] == StableOnly("v1")
      && "r" in w.rollouts && w.rollouts["r"].status == Aborted && w.rollouts.Keys == {"r"}
      && Verified(w, "v1") && Verified(w, "v2")
  {
    StartedWorld();
    var e1 := STARTED + [Whole(Promote("r"))];
    var e2 := e1 + [Whole(Promote("r"))];
    var e3 := e2 + [Cut(Promote("r"), 2)];
    SerialSnoc(STARTED, Whole(Promote("r")));
    SerialSnoc(e1, Whole(Promote("r")));
    SerialSnoc(e2, Cut(Promote("r"), 2));
    SerialSnoc(e3, Whole(Abort("r")));
    hide Serve, SerialRun, Genuine, Steps;
    PromoteOnce(SerialRun(EMPTY_WORLD, STARTED), Canary1);
    PromoteOnce(SerialRun(EMPTY_WORLD, e1), Canary10);
    HalfPromote(SerialRun(EMPTY_WORLD, e2));
    AbortOnce(SerialRun(EMPTY_WORLD, e3));
  }

  predicate Staged(w: World, stage: Stage, live: VersionId) {
    && w.now == 0 && w.rollouts == map["r" := Row(stage)] && w.active == map["m" := live]
    && w.manifests.Keys == {"v1", "v2"} && Verified(w, "v1") && Verified(w, "v2")
  }

  lemma PromoteOnce(w: World, stage: Stage)
    requires Staged(w, stage, "v1") && (stage == Canary1 || stage == Canary10)
    ensures Staged(Serve(w, Promote("r")).0, Next(stage).value, "v1")
  {
    hide Genuine, Complete;
    ServeMeans(w, Promote("r"));
  }

  lemma HalfPromote(w: World)
    requires Staged(w, Canary50, "v1")
    ensures Staged(Steps(w, Start(Promote("r")), 2).0, Canary50, "v2")
  {
    hide Genuine;
    TwoSteps(w, Start(Promote("r")));
    hide Steps;
  }

  lemma AbortOnce(w: World)
    requires Staged(w, Canary50, "v2")
    ensures var w' := Serve(w, Abort("r")).0;
      && w'.active == w.active && "m" in w'.envelopes && w'.envelopes["m"] == StableOnly("v1")
      && "r" in w'.rollouts && w'.rollouts["r"].status == Aborted && w'.rollouts.Keys == {"r"}
      && w'.manifests == w.manifests
  {
    hide Genuine, Complete;
    ServeMeans(w, Abort("r"));
  }

  /**
   After that, a create that crashes before publishing leaves its pending row more than one move from etcd.
   Closeness.PendingCloseIff gives the exact condition.
   */
  lemma PendingNotClose()
    ensures var w := SerialRun(EMPTY_WORLD, HALF_PROMOTED + [Cut(Create("q", "m", "v1", true), 4)]);
      && "q" in w.rollouts && w.rollouts["q"].status == Running && w.rollouts["q"].stage == Pending
      && "m" in w.envelopes && !WithinOneMove(w.rollouts["q"], w.envelopes["m"])
  {
    RegistryLeftBehind();
    var c := Create("q", "m", "v1", true);
    SerialSnoc(HALF_PROMOTED, Cut(c, 4));
    var w := SerialRun(EMPTY_WORLD, HALF_PROMOTED);
    hide SerialRun, Genuine;
    var c0 := Start(c);
    TwoSteps(w, c0);
    ThreeSteps(w, c0);
    assert Steps(w, c0, 3) == (w, CreateInsert("q", "m", "v1", "v2"));
    assert Steps(w, c0, 4) == Step(w, CreateInsert("q", "m", "v1", "v2"));
    hide Steps;
  }
}
