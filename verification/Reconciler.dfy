/** The automatic driver: it starts one analysis per stage and turns its verdict into an advance or a rollback. */
module Reconciler {
  import opened Prelude
  import opened Stages
  import opened Protocol
  import opened Interleaving
  import opened Serial
  import opened Agreement
  import opened Services

  const STAGE_GRACE: nat := 30

  datatype Phase = Unreported | Waiting | InProgress | Successful | Broken | Errored | Inconclusive

  predicate Terminal(p: Phase) {
    p == Successful || Rejects(p)
  }

  predicate Rejects(p: Phase) {
    p == Broken || p == Errored || p == Inconclusive
  }

  datatype AnalysisRun = AnalysisRun(rolloutId: RolloutId, stage: Stage, percent: nat, phase: Phase, createdAt: nat)

  predicate ForStage(run: AnalysisRun, id: RolloutId, stage: Stage) {
    run.rolloutId == id && run.stage == stage
  }

  /** The first analysis carrying both labels. */
  function Find(runs: seq<AnalysisRun>, id: RolloutId, stage: Stage): (i: Option<nat>)
    ensures i.Some? ==> i.value < |runs| && ForStage(runs[i.value], id, stage)
    ensures i.Some? ==> forall j | 0 <= j < i.value :: !ForStage(runs[j], id, stage)
    ensures i.None? ==> forall j | 0 <= j < |runs| :: !ForStage(runs[j], id, stage)
  {
    if runs == [] then None
    else if ForStage(runs[0], id, stage) then Some(0)
    else
      match Find(runs[1..], id, stage)
      case None => assert forall j | 0 < j < |runs| :: runs[j] == runs[1..][j - 1]; None
      case Some(i) => assert forall j | 0 < j < |runs| :: runs[j] == runs[1..][j - 1]; Some(i + 1)
  }

  /** Control-plane state together with the analyses the cluster knows. */
  datatype Loop = Loop(w: World, runs: seq<AnalysisRun>)

  /** One reconcile of a rollout, given the row the caller listed. */
  ghost function ReconcileSpec(s: Loop, id: RolloutId, ro: Rollout): Loop {
    if ro.stage == Stable then s
    else match Find(s.runs, id, ro.stage)
      case None =>
        if s.w.now < ro.stageEnteredAt + STAGE_GRACE then s
        else s.(runs := s.runs + [AnalysisRun(id, ro.stage, Percent(ro.stage), Unreported, s.w.now)])
      case Some(i) =>
        if s.runs[i].phase == Successful then s.(w := Serve(s.w, AutoAdvance(id, ro.stage)).0)
        else if Rejects(s.runs[i].phase) then s.(w := Serve(s.w, AutoRollback(id, ro.stage)).0)
        else s
  }

  ghost function ReconcileList(s: Loop, listed: seq<(RolloutId, Rollout)>): Loop {
    if listed == [] then s
    else ReconcileSpec(ReconcileList(s, listed[..|listed| - 1]), listed[|listed| - 1].0, listed[|listed| - 1].1)
  }

  class AnalysisClient {
    var runs: seq<AnalysisRun>

    constructor ()
      ensures runs == []
    {
      runs := [];
    }

    method FindForStage(id: RolloutId, stage: Stage) returns (run: Option<AnalysisRun>)
      ensures run.Some? <==> Find(runs, id, stage).Some?
      ensures run.Some? ==> run.value == runs[Find(runs, id, stage).value]
    {
      var found := Find(runs, id, stage);
      if found.None? {
        return None;
      }
      return Some(runs[found.value]);
    }

    method CreateForStage(id: RolloutId, stage: Stage, percent: nat, now: nat)
      modifies this
      ensures runs == old(runs) + [AnalysisRun(id, stage, percent, Unreported, now)]
    {
      runs := runs + [AnalysisRun(id, stage, percent, Unreported, now)];
    }
  }

  class Reconciler {
    const driver: RolloutService
    const client: AnalysisClient

    constructor (driver: RolloutService, client: AnalysisClient)
      ensures this.driver == driver && this.client == client
    {
      this.driver := driver;
      this.client := client;
    }

    ghost function View(): Loop
      reads this, client, driver, driver.store, driver.store.clock, driver.registry.store, driver.publisher,
            driver.registry, driver.registry.publisher
    {
      Loop(driver.View(), client.runs)
    }

    method ReconcileOne(id: RolloutId, ro: Rollout)
      requires driver.Valid()
      modifies client, driver.store, driver.publisher`envelopes, driver.registry.store`active
      ensures View() == ReconcileSpec(old(View()), id, ro)
    {
      hide Serve;
      if ro.stage == Stable {
        return;
      }
      var run := client.FindForStage(id, ro.stage);
      if run.None? {
        var now := driver.store.clock.now;
        if now - ro.stageEnteredAt < STAGE_GRACE {
          return;
        }
        client.CreateForStage(id, ro.stage, Percent(ro.stage), now);
        return;
      }
      match run.value.phase
      case Successful =>
        var _ := driver.AutoAdvanceRollout(id, ro.stage);
      case Broken =>
        var _ := driver.AutoRollbackRollout(id, ro.stage);
      case Errored =>
        var _ := driver.AutoRollbackRollout(id, ro.stage);
      case Inconclusive =>
        var _ := driver.AutoRollbackRollout(id, ro.stage);
      case _ =>
    }

    /** One tick: list the running rollouts afresh, then reconcile each. */
    method ReconcileAll() returns (ghost listed: seq<(RolloutId, Rollout)>)
      requires driver.Valid()
      modifies client, driver.store, driver.publisher`envelopes, driver.registry.store`active
      ensures Lists(old(driver.store.rollouts), listed)
      ensures View() == ReconcileList(old(View()), listed)
    {
      var running := driver.store.ListRunningRollouts();
      listed := running;
      hide ReconcileSpec, Lists;
      var i := 0;
      while i < |running|
        invariant 0 <= i <= |running|
        invariant View() == ReconcileList(old(View()), running[..i])
      {
        assert running[..i + 1][..i] == running[..i];
        ReconcileOne(running[i].0, running[i].1);
        i := i + 1;
      }
      assert running[..|running|] == running;
    }
  }

  // ----- A single reconciler, no human promote or abort -----

  datatype Move =
    | Tick(id: RolloutId) // reconcile a rollout with its current row
    | Settle(run: nat, phase: Phase) // the cluster reports on an analysis
    | Later(duration: nat)
    | Serving(request: Request) // a registration or a create

  predicate Allowed(m: Move) {
    m.Serving? ==> m.request.Register? || m.request.Create?
  }

  ghost function Do(s: Loop, m: Move): Loop {
    match m
    case Tick(id) =>
      if id in s.w.rollouts && s.w.rollouts[id].status == Running then ReconcileSpec(s, id, s.w.rollouts[id]) else s
    case Settle(i, phase) =>
      if i < |s.runs| && !Terminal(s.runs[i].phase) then s.(runs := s.runs[i := s.runs[i].(phase := phase)]) else s
    case Later(d) => s.(w := s.w.(now := s.w.now + d))
    case Serving(r) => s.(w := Serve(s.w, r).0)
  }

  ghost function DoAll(s: Loop, moves: seq<Move>): Loop {
    if moves == [] then s else Do(DoAll(s, moves[..|moves| - 1]), moves[|moves| - 1])
  }

  const IDLE := Loop(EMPTY_WORLD, [])

  /** Some analysis of this stage ended like this. */
  ghost predicate Judged(runs: seq<AnalysisRun>, id: RolloutId, stage: Stage, good: bool) {
    exists i :: 0 <= i < |runs| && ForStage(runs[i], id, stage)
                && (if good then runs[i].phase == Successful else Rejects(runs[i].phase))
  }

  /** Every stage the row has left was left on a successful analysis; a rollback followed a rejecting one. */
  ghost predicate Evidence(s: Loop, id: RolloutId)
    requires id in s.w.rollouts
  {
    var row := s.w.rollouts[id];
    && row.stage != Pending && row.status != Aborted
    && (Rank(row.stage) > 1 ==> Judged(s.runs, id, Canary1, true))
    && (Rank(row.stage) > 2 ==> Judged(s.runs, id, Canary10, true))
    && (Rank(row.stage) > 3 ==> Judged(s.runs, id, Canary50, true))
    && (row.status == RolledBack ==> Judged(s.runs, id, row.stage, false))
  }

  ghost predicate RunOk(s: Loop, run: AnalysisRun) {
    && run.rolloutId in s.w.rollouts && run.createdAt <= s.w.now
    && run.percent == Percent(run.stage)
    && var row := s.w.rollouts[run.rolloutId];
    && Rank(run.stage) <= Rank(row.stage) && run.stage != Stable
    && (row.status == Running && row.stage == run.stage ==> row.stageEnteredAt + STAGE_GRACE <= run.createdAt)
    && (row.status == Running && row.stage != run.stage ==> run.createdAt <= row.stageEnteredAt)
  }

  ghost predicate RunsDistinct(runs: seq<AnalysisRun>) {
    forall i, j | 0 <= i < j < |runs| :: !ForStage(runs[i], runs[j].rolloutId, runs[j].stage)
  }

  ghost predicate Gated(s: Loop) {
    && Agrees(s.w)
    && RunsDistinct(s.runs)
    && (forall i | 0 <= i < |s.runs| :: RunOk(s, s.runs[i]))
    && (forall id | id in s.w.rollouts :: Evidence(s, id))
    && (forall id | id in s.w.rollouts :: s.w.rollouts[id].stageEnteredAt <= s.w.now)
  }

  /** The rows of two states differ at most in `id`, and there only by the step from `a` to `b`. */
  ghost predicate OnlyRow(w: World, w': World, id: RolloutId) {
    && id in w.rollouts && id in w'.rollouts && w'.now == w.now
    && w'.rollouts == w.rollouts[id := w'.rollouts[id]]
  }

  /** In agreement, an automatic advance or rollback of a running rollout always goes through. */
  lemma AutomaticMoves(w: World, id: RolloutId)
    requires Agrees(w) && id in w.rollouts && w.rollouts[id].status == Running
    ensures var row := w.rollouts[id];
      && row.stage != Stable && row.stage != Pending
      && var w1, w2 := Serve(w, AutoAdvance(id, row.stage)).0, Serve(w, AutoRollback(id, row.stage)).0;
      && OnlyRow(w, w1, id) && OnlyRow(w, w2, id)
      && w1.rollouts[id] == Written(row, Next(row.stage).value, StatusAt(Next(row.stage).value), w.now)
      && w2.rollouts[id] == Written(row, row.stage, RolledBack, w.now)
  {
    var row := w.rollouts[id];
    RowRefAgrees(w, id);
    assert RowVerified(w, row) by {
      assert WorldVerified(w);
    }
    hide Agrees, Serve, Genuine;
    ServeMeans(w, AutoAdvance(id, row.stage));
    ServeMeans(w, AutoRollback(id, row.stage));
  }

  lemma JudgedPersists(runs: seq<AnalysisRun>, run: AnalysisRun, id: RolloutId, stage: Stage, good: bool)
    requires Judged(runs, id, stage, good)
    ensures Judged(runs + [run], id, stage, good)
  {
    var i :| 0 <= i < |runs| && ForStage(runs[i], id, stage)
             && (if good then runs[i].phase == Successful else Rejects(runs[i].phase));
    assert (runs + [run])[i] == runs[i];
  }

  lemma SettleKeepsJudged(runs: seq<AnalysisRun>, k: nat, phase: Phase, id: RolloutId, stage: Stage, good: bool)
    requires k < |runs| && !Terminal(runs[k].phase) && Judged(runs, id, stage, good)
    ensures Judged(runs[k := runs[k].(phase := phase)], id, stage, good)
  {
    var i :| 0 <= i < |runs| && ForStage(runs[i], id, stage)
             && (if good then runs[i].phase == Successful else Rejects(runs[i].phase));
    assert runs[k := runs[k].(phase := phase)][i] == runs[i];
  }

  lemma CreateGated(s: Loop, id: RolloutId, run: AnalysisRun)
    requires Gated(s) && id in s.w.rollouts && s.w.rollouts[id].status == Running
    requires s.w.rollouts[id].stage != Stable && Find(s.runs, id, s.w.rollouts[id].stage).None?
    requires s.w.now >= s.w.rollouts[id].stageEnteredAt + STAGE_GRACE
    requires run == AnalysisRun(id, s.w.rollouts[id].stage, Percent(s.w.rollouts[id].stage), Unreported, s.w.now)
    ensures Gated(s.(runs := s.runs + [run]))
  {
    hide Agrees, Judged;
    var s' := s.(runs := s.runs + [run]);
    forall i | 0 <= i < |s'.runs| ensures RunOk(s', s'.runs[i]) {
      if i < |s.runs| {
        assert RunOk(s, s.runs[i]);
      }
    }
    assert RunsDistinct(s'.runs);
    hide RunOk, RunsDistinct;
    forall other, stage, good | Judged(s.runs, other, stage, good) ensures Judged(s'.runs, other, stage, good) {
      JudgedPersists(s.runs, run, other, stage, good);
    }
    forall other | other in s'.w.rollouts ensures Evidence(s', other) {
      assert Evidence(s, other);
    }
  }

  /** A verdict moves one row; everybody else's evidence is untouched and the mover has its own. */
  lemma VerdictGated(s: Loop, w': World, id: RolloutId)
    requires Gated(s) && Agrees(w') && OnlyRow(s.w, w', id) && s.w.rollouts[id].status == Running
    requires var row, row' := s.w.rollouts[id], w'.rollouts[id];
      && row.stage != Stable
      && row'.stageEnteredAt == s.w.now
      && ((row'.stage == Next(row.stage).value && row'.status == StatusAt(row'.stage) && Judged(s.runs, id, row.stage, true))
          || (row'.stage == row.stage && row'.status == RolledBack && Judged(s.runs, id, row.stage, false)))
    ensures Gated(s.(w := w'))
  {
    hide Agrees, Judged, RunsDistinct;
    var s' := s.(w := w');
    assert Evidence(s, id);
    forall i | 0 <= i < |s'.runs| ensures RunOk(s', s'.runs[i]) {
      assert RunOk(s, s.runs[i]);
    }
    forall other | other in s'.w.rollouts ensures Evidence(s', other) {
      assert Evidence(s, other);
    }
  }

  lemma FoundJudged(s: Loop, id: RolloutId, stage: Stage)
    requires Find(s.runs, id, stage).Some?
    ensures s.runs[Find(s.runs, id, stage).value].phase == Successful ==> Judged(s.runs, id, stage, true)
    ensures Rejects(s.runs[Find(s.runs, id, stage).value].phase) ==> Judged(s.runs, id, stage, false)
  {
  }

  lemma TickGated(s: Loop, id: RolloutId)
    requires Gated(s)
    ensures Gated(Do(s, Tick(id)))
  {
    if id in s.w.rollouts && s.w.rollouts[id].status == Running {
      var row := s.w.rollouts[id];
      assert Agrees(s.w);
      AutomaticMoves(s.w, id);
      ServeAgrees(s.w, AutoAdvance(id, row.stage));
      ServeAgrees(s.w, AutoRollback(id, row.stage));
      TickUnfold(s, id);
      SpecCases(s, id, row);
      hide Serve, Agrees, Gated, Judged, OnlyRow, Do, ReconcileSpec;
      var found := Find(s.runs, id, row.stage);
      if found.None? {
        if s.w.now >= row.stageEnteredAt + STAGE_GRACE {
          CreateGated(s, id, AnalysisRun(id, row.stage, Percent(row.stage), Unreported, s.w.now));
        }
      } else {
        FoundJudged(s, id, row.stage);
        if s.runs[found.value].phase == Successful {
          VerdictGated(s, Serve(s.w, AutoAdvance(id, row.stage)).0, id);
        } else if Rejects(s.runs[found.value].phase) {
          VerdictGated(s, Serve(s.w, AutoRollback(id, row.stage)).0, id);
        }
      }
    }
  }

  lemma SettleGated(s: Loop, k: nat, phase: Phase)
    requires Gated(s)
    ensures Gated(Do(s, Settle(k, phase)))
  {
    if k < |s.runs| && !Terminal(s.runs[k].phase) {
      var s' := Do(s, Settle(k, phase));
      SettleEvidence(s, k, phase);
      SettleRuns(s, k, phase);
      hide Agrees, Judged, Evidence, RunOk, RunsDistinct;
    }
  }

  lemma SettleRuns(s: Loop, k: nat, phase: Phase)
    requires RunsDistinct(s.runs) && (forall i | 0 <= i < |s.runs| :: RunOk(s, s.runs[i]))
    requires k < |s.runs| && !Terminal(s.runs[k].phase)
    ensures var s' := Do(s, Settle(k, phase));
      RunsDistinct(s'.runs) && forall i | 0 <= i < |s'.runs| :: RunOk(s', s'.runs[i])
  {
  }

  lemma SettleEvidence(s: Loop, k: nat, phase: Phase)
    requires forall id | id in s.w.rollouts :: Evidence(s, id)
    requires k < |s.runs| && !Terminal(s.runs[k].phase)
    ensures var s' := Do(s, Settle(k, phase)); forall id | id in s'.w.rollouts :: Evidence(s', id)
  {
    hide Judged, Terminal;
    var s' := Do(s, Settle(k, phase));
    forall id, stage, good | Judged(s.runs, id, stage, good) ensures Judged(s'.runs, id, stage, good) {
      SettleKeepsJudged(s.runs, k, phase, id, stage, good);
    }
    hide Do;
    assert s'.w == s.w;
    forall id | id in s'.w.rollouts ensures Evidence(s', id) {
      assert Evidence(s, id);
    }
  }

  /** A registration leaves every row alone; a create adds one row at the first canary stage. */
  lemma ServingRows(w: World, r: Request)
    requires r.Register? || r.Create?
    ensures var w' := Serve(w, r).0;
      && w'.now == w.now
      && (w'.rollouts == w.rollouts
          || (r.Create? && r.rolloutId !in w.rollouts && exists row: Rollout ::
                row.stage == Canary1 && row.status == Running && row.stageEnteredAt == w.now
                && w'.rollouts == w.rollouts[r.rolloutId := row]))
  {
    ServeMeans(w, r);
    hide Serve, Verified, HasRunning, SignedPayload;
    if r.Create? && CreateSpec(w, r.rolloutId, r.modelRef, r.versionId).1.Advanced? && r.strategyIsJson {
      var row := Written(Inserted(w, r.modelRef, r.versionId, w.active[r.modelRef]), Canary1, Running, w.now);
      assert ServeSpec(w, r).0.rollouts == w.rollouts[r.rolloutId := row];
    }
  }

  lemma ServingGated(s: Loop, r: Request)
    requires Gated(s) && (r.Register? || r.Create?)
    ensures Gated(Do(s, Serving(r)))
  {
    ServeAgrees(s.w, r);
    ServingRows(s.w, r);
    hide Agrees, Serve;
    RowsGrown(s, Do(s, Serving(r)));
    hide Evidence, RunOk, RunsDistinct;
  }

  /** At most one row at its first canary stage is new; old rows keep their evidence and every analysis stays in order. */
  lemma RowsGrown(s: Loop, s': Loop)
    requires s'.runs == s.runs && s'.w.now == s.w.now
    requires forall id | id in s.w.rollouts :: id in s'.w.rollouts && s'.w.rollouts[id] == s.w.rollouts[id]
    requires forall id | id in s'.w.rollouts && id !in s.w.rollouts ::
               s'.w.rollouts[id].stage == Canary1 && s'.w.rollouts[id].status == Running
    requires forall i | 0 <= i < |s.runs| :: RunOk(s, s.runs[i])
    requires forall id | id in s.w.rollouts :: Evidence(s, id)
    ensures forall i | 0 <= i < |s'.runs| :: RunOk(s', s'.runs[i])
    ensures forall id | id in s'.w.rollouts :: Evidence(s', id)
  {
    hide Judged;
    forall i | 0 <= i < |s'.runs| ensures RunOk(s', s'.runs[i]) {
      assert RunOk(s, s.runs[i]);
    }
    forall id | id in s'.w.rollouts ensures Evidence(s', id) {
      if id in s.w.rollouts {
        assert Evidence(s, id);
      }
    }
  }

  lemma LaterGated(s: Loop, d: nat)
    requires Gated(s)
    ensures Gated(Do(s, Later(d)))
  {
    var s' := Do(s, Later(d));
    QuietAgrees(s.w, Elapse(d));
    hide Agrees, Judged;
    forall i | 0 <= i < |s'.runs| ensures RunOk(s', s'.runs[i]) {
      assert RunOk(s, s.runs[i]);
    }
    forall id | id in s'.w.rollouts ensures Evidence(s', id) {
      assert Evidence(s, id);
    }
  }

  /**
   In every run driven by the reconciler alone: at most one analysis per rollout and stage, each created no
   earlier than the grace period after its stage began; no stage is left without a successful analysis of that
   stage, and no rollout is rolled back without a rejecting one.
   */
  lemma {:induction false} NoStageLeftUnanalysed(moves: seq<Move>)
    requires forall i | 0 <= i < |moves| :: Allowed(moves[i])
    ensures Gated(DoAll(IDLE, moves))
  {
    if moves == [] {
      EmptyAgrees();
      hide Agrees;
    } else {
      var s := DoAll(IDLE, moves[..|moves| - 1]);
      NoStageLeftUnanalysed(moves[..|moves| - 1]);
      MoveGated(s, moves[|moves| - 1]);
      hide Gated, Do;
    }
  }

  lemma MoveGated(s: Loop, m: Move)
    requires Gated(s) && Allowed(m)
    ensures Gated(Do(s, m))
  {
    hide Gated, Do;
    match m
    case Tick(id) => TickGated(s, id);
    case Settle(i, phase) => SettleGated(s, i, phase);
    case Later(d) => LaterGated(s, d);
    case Serving(r) => ServingGated(s, r);
  }

  // ----- Progress -----

  /** Lexicographic: stages left, then whether this stage still needs its analysis. */
  ghost function Distance(s: Loop, id: RolloutId): nat {
    if id in s.w.rollouts && s.w.rollouts[id].status == Running then
      2 * (4 - Rank(s.w.rollouts[id].stage)) + (if Find(s.runs, id, s.w.rollouts[id].stage).None? then 1 else 0)
    else 0
  }

  lemma FindAppended(runs: seq<AnalysisRun>, run: AnalysisRun, id: RolloutId, stage: Stage)
    requires ForStage(run, id, stage)
    ensures Find(runs + [run], id, stage).Some?
  {
    assert (runs + [run])[|runs|] == run;
  }

  /** The rollout is over, its analysis is missing inside the grace period, or it is still undecided. */
  ghost predicate Idle(s: Loop, id: RolloutId)
    requires id in s.w.rollouts
  {
    var row := s.w.rollouts[id];
    var found := Find(s.runs, id, row.stage);
    || row.status != Running
    || (if found.None? then s.w.now < row.stageEnteredAt + STAGE_GRACE else !Terminal(s.runs[found.value].phase))
  }

  /** A reconcile changes nothing in exactly those cases; otherwise it brings the rollout closer to its end. */
  lemma TickProgress(s: Loop, id: RolloutId)
    requires Gated(s) && id in s.w.rollouts
    ensures Idle(s, id) ==> Do(s, Tick(id)) == s
    ensures !Idle(s, id) ==> Distance(Do(s, Tick(id)), id) < Distance(s, id)
  {
    var row := s.w.rollouts[id];
    if row.status == Running {
      VerdictActs(s, id);
      hide Gated, Do;
      if Find(s.runs, id, row.stage).None? {
        FindAppended(s.runs, AnalysisRun(id, row.stage, Percent(row.stage), Unreported, s.w.now), id, row.stage);
      }
    }
  }

  lemma FindKept(runs: seq<AnalysisRun>, runs': seq<AnalysisRun>, id: RolloutId, stage: Stage)
    requires |runs| <= |runs'|
    requires forall i | 0 <= i < |runs| :: ForStage(runs'[i], id, stage) == ForStage(runs[i], id, stage)
    requires forall i | |runs| <= i < |runs'| :: !ForStage(runs'[i], id, stage)
    ensures Find(runs', id, stage) == Find(runs, id, stage)
  {
  }

  /** What the rest of the cluster does leaves this rollout's row, its analysis and any verdict on it alone. */
  ghost predicate Undisturbed(s: Loop, s': Loop, id: RolloutId) {
    && id in s.w.rollouts && id in s'.w.rollouts && s'.w.rollouts[id] == s.w.rollouts[id]
    && Find(s'.runs, id, s.w.rollouts[id].stage) == Find(s.runs, id, s.w.rollouts[id].stage)
    && s.w.now <= s'.w.now
    && VerdictsStay(s, s')
  }

  predicate VerdictsStay(s: Loop, s': Loop) {
    |s.runs| <= |s'.runs| && forall i | 0 <= i < |s.runs| && Terminal(s.runs[i].phase) :: Terminal(s'.runs[i].phase)
  }

  lemma OthersUndisturbing(s: Loop, m: Move, id: RolloutId)
    requires Gated(s) && Allowed(m) && m != Tick(id) && id in s.w.rollouts
    ensures Undisturbed(s, Do(s, m), id)
  {
    hide Gated, Undisturbed;
    match m
    case Tick(other) => OtherTickUndisturbing(s, other, id);
    case Settle(k, phase) => SettleUndisturbing(s, k, phase, id);
    case Later(d) => LaterUndisturbing(s, d, id);
    case Serving(r) => ServingUndisturbing(s, r, id);
  }

  lemma OtherTickUndisturbing(s: Loop, other: RolloutId, id: RolloutId)
    requires Gated(s) && other != id && id in s.w.rollouts
    ensures Undisturbed(s, Do(s, Tick(other)), id)
  {
    if other in s.w.rollouts && s.w.rollouts[other].status == Running {
      TickEffect(s, other);
      var s' := Do(s, Tick(other));
      assert id in s'.w.rollouts && s'.w.rollouts[id] == s.w.rollouts[id];
      assert |s.runs| <= |s'.runs| && s'.runs[..|s.runs|] == s.runs;
      hide Do, Gated, Find, OnlyRow;
      FindKept(s.runs, s'.runs, id, s.w.rollouts[id].stage);
    } else {
      hide Gated, Find;
    }
  }

  lemma SettleUndisturbing(s: Loop, k: nat, phase: Phase, id: RolloutId)
    requires id in s.w.rollouts
    ensures Undisturbed(s, Do(s, Settle(k, phase)), id)
  {
    FindKept(s.runs, Do(s, Settle(k, phase)).runs, id, s.w.rollouts[id].stage);
    hide Find;
  }

  lemma LaterUndisturbing(s: Loop, d: nat, id: RolloutId)
    requires id in s.w.rollouts
    ensures Undisturbed(s, Do(s, Later(d)), id)
  {
    hide Find;
  }

  lemma ServingUndisturbing(s: Loop, r: Request, id: RolloutId)
    requires id in s.w.rollouts && (r.Register? || r.Create?)
    ensures Undisturbed(s, Do(s, Serving(r)), id)
  {
    ServingRows(s.w, r);
    hide Find, Serve;
  }

  /** A reconcile either moves the rows by one automatic call, or adds one analysis for its own rollout. */
  lemma SpecEffect(s: Loop, id: RolloutId, ro: Rollout)
    ensures var s' := ReconcileSpec(s, id, ro);
      var run := AnalysisRun(id, ro.stage, Percent(ro.stage), Unreported, s.w.now);
      || (s'.w == s.w && (s'.runs == s.runs || s'.runs == s.runs + [run]))
      || (s'.runs == s.runs
          && (s'.w == Serve(s.w, AutoAdvance(id, ro.stage)).0 || s'.w == Serve(s.w, AutoRollback(id, ro.stage)).0))
  {
    hide Serve, Find;
  }

  /** A reconcile adds at most one analysis, for its own rollout, moves only its own row, and takes no time. */
  lemma TickEffect(s: Loop, id: RolloutId)
    requires Gated(s) && id in s.w.rollouts && s.w.rollouts[id].status == Running
    ensures var s' := Do(s, Tick(id));
      && s'.w.now == s.w.now && (s'.w == s.w || OnlyRow(s.w, s'.w, id)) && id in s'.w.rollouts
      && (s'.runs == s.runs || exists run: AnalysisRun :: run.rolloutId == id && s'.runs == s.runs + [run])
  {
    assert Agrees(s.w);
    AutomaticMoves(s.w, id);
    TickUnfold(s, id);
    SpecEffect(s, id, s.w.rollouts[id]);
    hide Serve, Agrees, Gated, Do, Find, ReconcileSpec;
  }

  /** Each move takes the rollout no further from its end, and only a reconcile that is not idle closer. */
  lemma MoveProgress(s: Loop, m: Move, id: RolloutId)
    requires Gated(s) && Allowed(m) && id in s.w.rollouts
    ensures var s' := Do(s, m);
      && Gated(s') && id in s'.w.rollouts && s.w.now <= s'.w.now && VerdictsStay(s, s')
      && (if m == Tick(id) && !Idle(s, id) then Distance(s', id) < Distance(s, id) else Undisturbed(s, s', id))
  {
    MoveGated(s, m);
    if m != Tick(id) {
      OthersUndisturbing(s, m, id);
      hide Gated, Do;
    } else if s.w.rollouts[id].status == Running {
      TickProgress(s, id);
      TickEffect(s, id);
      hide Gated, Do, OnlyRow, Find;
    } else {
      hide Gated;
    }
  }

  predicate Ended(s: Loop, id: RolloutId) {
    id in s.w.rollouts && (s.w.rollouts[id].status == Promoted || s.w.rollouts[id].status == RolledBack)
  }

  lemma EndedIff(s: Loop, id: RolloutId)
    requires Gated(s) && id in s.w.rollouts
    ensures Distance(s, id) == 0 <==> Ended(s, id)
    ensures Distance(s, id) <= 7
  {
  }

  /** The reconciles of a rollout in a run that were not idle. */
  ghost function Productive(s: Loop, moves: seq<Move>, id: RolloutId): nat {
    if moves == [] then 0
    else
      var front, m := moves[..|moves| - 1], moves[|moves| - 1];
      var s' := DoAll(s, front);
      Productive(s, front, id) + (if m == Tick(id) && id in s'.w.rollouts && !Idle(s', id) then 1 else 0)
  }

  /**
   In any run of a single reconciler, with whatever else the cluster does in between, at most seven reconciles of
   a rollout have any effect, and a run with as many effective ones as its distance ends it.
   */
  lemma {:induction false} BoundedReconciles(s: Loop, moves: seq<Move>, id: RolloutId)
    requires Gated(s) && id in s.w.rollouts && forall i | 0 <= i < |moves| :: Allowed(moves[i])
    ensures var s' := DoAll(s, moves);
      && Gated(s') && id in s'.w.rollouts
      && Distance(s', id) + Productive(s, moves, id) <= Distance(s, id) <= 7
      && (Productive(s, moves, id) == Distance(s, id) ==> Ended(s', id))
  {
    hide Do, Gated, Idle, Distance, Undisturbed, Ended;
    if moves != [] {
      var front, m := moves[..|moves| - 1], moves[|moves| - 1];
      BoundedReconciles(s, front, id);
      MoveProgress(DoAll(s, front), m, id);
      DistanceKept(DoAll(s, front), DoAll(s, moves), id);
    }
    EndedIff(s, id);
    EndedIff(DoAll(s, moves), id);
  }

  // ----- Endless runs -----

  /** A run that never stops. */
  type Endless = nat -> Move

  ghost function At(s: Loop, run: Endless, n: nat): Loop {
    if n == 0 then s else Do(At(s, run, n - 1), run(n - 1))
  }

  ghost predicate TickedFrom(run: Endless, id: RolloutId, n: nat) {
    exists k: nat :: k >= n && run(k) == Tick(id)
  }

  ghost predicate Reaches(s: Loop, run: Endless, t: nat) {
    exists n: nat :: At(s, run, n).w.now >= t
  }

  ghost predicate DecidedFrom(s: Loop, run: Endless, n: nat, i: nat) {
    exists k: nat :: k >= n && i < |At(s, run, k).runs| && Terminal(At(s, run, k).runs[i].phase)
  }

  /** The rollout keeps being reconciled, time keeps passing, and every analysis is decided in the end. */
  ghost predicate Fair(s: Loop, run: Endless, id: RolloutId) {
    && (forall n: nat :: Allowed(run(n)))
    && (forall n: nat :: TickedFrom(run, id, n))
    && (forall t: nat :: Reaches(s, run, t))
    && (forall n: nat, i: nat | i < |At(s, run, n).runs| :: DecidedFrom(s, run, n, i))
  }

  /** From `n` to `k` the rollout came closer to its end, or nothing about it changed. */
  lemma {:induction false} Persists(s: Loop, run: Endless, id: RolloutId, n: nat, k: nat)
    requires n <= k && Gated(s) && id in s.w.rollouts && forall i: nat :: Allowed(run(i))
    ensures var s1, s2 := At(s, run, n), At(s, run, k);
      && Gated(s1) && Gated(s2) && id in s1.w.rollouts && id in s2.w.rollouts
      && s1.w.now <= s2.w.now && VerdictsStay(s1, s2)
      && (Distance(s2, id) < Distance(s1, id) || Undisturbed(s1, s2, id))
    decreases k
  {
    hide Gated, Do, Idle, Distance;
    if k > 0 {
      if n == k {
        Persists(s, run, id, n - 1, k - 1);
        MoveProgress(At(s, run, k - 1), run(k - 1), id);
      } else {
        Persists(s, run, id, n, k - 1);
        var s1, s2 := At(s, run, n), At(s, run, k - 1);
        MoveProgress(s2, run(k - 1), id);
        DistanceKept(s1, s2, id);
        DistanceKept(s2, At(s, run, k), id);
      }
    }
  }

  lemma DistanceKept(s: Loop, s': Loop, id: RolloutId)
    ensures Undisturbed(s, s', id) ==> Distance(s', id) == Distance(s, id)
  {
    hide Find;
  }

  /** A rollout that is not over comes closer to its end some time later. */
  lemma Approaches(s: Loop, run: Endless, id: RolloutId, n: nat) returns (m: nat)
    requires Gated(s) && id in s.w.rollouts && Fair(s, run, id) && Distance(At(s, run, n), id) > 0
    ensures Distance(At(s, run, m), id) < Distance(At(s, run, n), id)
  {
    hide Gated, Do, At;
    Persists(s, run, id, n, n);
    var s1 := At(s, run, n);
    var row := s1.w.rollouts[id];
    var found := Find(s1.runs, id, row.stage);
    var ready: nat;
    if found.None? {
      assert Reaches(s, run, row.stageEnteredAt + STAGE_GRACE);
      ready :| At(s, run, ready).w.now >= row.stageEnteredAt + STAGE_GRACE;
    } else {
      assert DecidedFrom(s, run, n, found.value);
      ready :| ready >= n && found.value < |At(s, run, ready).runs| && Terminal(At(s, run, ready).runs[found.value].phase);
    }
    var from := if ready >= n then ready else n;
    assert TickedFrom(run, id, from);
    m :| m >= from && run(m) == Tick(id);
    Persists(s, run, id, n, m);
    Persists(s, run, id, ready, m);
    if !(Distance(At(s, run, m), id) < Distance(s1, id)) {
      DistanceKept(s1, At(s, run, m), id);
      assert !Idle(At(s, run, m), id);
      MoveProgress(At(s, run, m), run(m), id);
      m := m + 1;
      assert At(s, run, m) == Do(At(s, run, m - 1), run(m - 1)) by {
        AtUnfold(s, run, m);
      }
    }
  }

  lemma AtUnfold(s: Loop, run: Endless, n: nat)
    requires n > 0
    ensures At(s, run, n) == Do(At(s, run, n - 1), run(n - 1))
  {
  }

  lemma {:induction false} EndsFrom(s: Loop, run: Endless, id: RolloutId, n: nat)
    requires Gated(s) && id in s.w.rollouts && Fair(s, run, id)
    ensures exists m: nat :: Ended(At(s, run, m), id)
    decreases Distance(At(s, run, n), id)
  {
    hide Gated, Fair;
    if Distance(At(s, run, n), id) == 0 {
      assert forall i: nat :: Allowed(run(i)) by {
        FairAllowed(s, run, id);
      }
      Persists(s, run, id, n, n);
      EndedIff(At(s, run, n), id);
    } else {
      var m := Approaches(s, run, id, n);
      EndsFrom(s, run, id, m);
    }
  }

  lemma FairAllowed(s: Loop, run: Endless, id: RolloutId)
    requires Fair(s, run, id)
    ensures forall i: nat :: Allowed(run(i))
  {
  }

  /**
   Every rollout ends. In any endless run of a single reconciler without human calls, whatever else happens in
   between, a rollout that keeps being reconciled while time passes and analyses are decided is promoted or
   rolled back.
   */
  lemma EveryRolloutEnds(moves: seq<Move>, run: Endless, id: RolloutId)
    requires forall i | 0 <= i < |moves| :: Allowed(moves[i])
    requires id in DoAll(IDLE, moves).w.rollouts && Fair(DoAll(IDLE, moves), run, id)
    ensures exists n: nat :: Ended(At(DoAll(IDLE, moves), run, n), id)
  {
    NoStageLeftUnanalysed(moves);
    EndsFrom(DoAll(IDLE, moves), run, id, 0);
  }

  // ----- What each finding leads to -----

  /**
   The reconcile of a running rollout, phase by phase. No analysis yet: nothing for thirty seconds after the stage
   began, then exactly one, for this rollout, stage and share of traffic. A successful one: the next stage. A
   failed, errored or inconclusive one: rolled back where it stands, inconclusive included so that no rollout is
   orphaned. Anything else: nothing.
   */
  lemma VerdictActs(s: Loop, id: RolloutId)
    requires Gated(s) && id in s.w.rollouts && s.w.rollouts[id].status == Running
    ensures var row, s' := s.w.rollouts[id], Do(s, Tick(id));
      && id in s'.w.rollouts
      && var row' := s'.w.rollouts[id];
      match Find(s.runs, id, row.stage)
      case None =>
        if s.w.now < row.stageEnteredAt + 30 then s' == s
        else s'.w == s.w && s'.runs == s.runs + [AnalysisRun(id, row.stage, Percent(row.stage), Unreported, s.w.now)]
      case Some(i) =>
        match s.runs[i].phase
        case Successful =>
          && s'.runs == s.runs && Next(row.stage) == Some(row'.stage)
          && row'.status == (if row'.stage == Stable then Promoted else Running)
        case Broken => s'.runs == s.runs && row'.stage == row.stage && row'.status == RolledBack
        case Errored => s'.runs == s.runs && row'.stage == row.stage && row'.status == RolledBack
        case Inconclusive => s'.runs == s.runs && row'.stage == row.stage && row'.status == RolledBack
        case Unreported => s' == s
        case Waiting => s' == s
        case InProgress => s' == s
  {
    assert Agrees(s.w);
    AutomaticMoves(s.w, id);
    TickUnfold(s, id);
    SpecCases(s, id, s.w.rollouts[id]);
    hide Serve, Agrees, Gated, Do, Find, ReconcileSpec, Percent;
  }

  lemma SpecCases(s: Loop, id: RolloutId, ro: Rollout)
    requires ro.stage != Stable
    ensures var s' := ReconcileSpec(s, id, ro);
      match Find(s.runs, id, ro.stage)
      case None =>
        if s.w.now < ro.stageEnteredAt + 30 then s' == s
        else s' == s.(runs := s.runs + [AnalysisRun(id, ro.stage, Percent(ro.stage), Unreported, s.w.now)])
      case Some(i) =>
        match s.runs[i].phase
        case Successful => s' == s.(w := Serve(s.w, AutoAdvance(id, ro.stage)).0)
        case Broken => s' == s.(w := Serve(s.w, AutoRollback(id, ro.stage)).0)
        case Errored => s' == s.(w := Serve(s.w, AutoRollback(id, ro.stage)).0)
        case Inconclusive => s' == s.(w := Serve(s.w, AutoRollback(id, ro.stage)).0)
        case _ => s' == s
  {
    hide Serve, Find, Percent;
  }

  // ----- A listed tick is a sequence of single ticks -----

  ghost function TicksFor(listed: seq<(RolloutId, Rollout)>): (moves: seq<Move>)
    ensures |moves| == |listed| && forall i | 0 <= i < |listed| :: moves[i] == Tick(listed[i].0)
  {
    seq(|listed|, i requires 0 <= i < |listed| => Tick(listed[i].0))
  }

  type Rows = map<RolloutId, Rollout>

  ghost predicate ListedNow(rollouts: Rows, listed: seq<(RolloutId, Rollout)>) {
    && (forall i | 0 <= i < |listed| ::
          listed[i].0 in rollouts && listed[i].1 == rollouts[listed[i].0] && listed[i].1.status == Running)
    && (forall i, j | 0 <= i < j < |listed| :: listed[i].0 != listed[j].0)
  }

  ghost predicate OthersUntouched(rollouts: Rows, rollouts': Rows, listed: seq<(RolloutId, Rollout)>) {
    forall id | id in rollouts && (forall i | 0 <= i < |listed| :: listed[i].0 != id) ::
      id in rollouts' && rollouts'[id] == rollouts[id]
  }

  lemma OthersSnoc(r0: Rows, r1: Rows, r2: Rows, listed: seq<(RolloutId, Rollout)>)
    requires listed != [] && OthersUntouched(r0, r1, listed[..|listed| - 1])
    requires forall id | id in r1 && id != listed[|listed| - 1].0 :: id in r2 && r2[id] == r1[id]
    ensures OthersUntouched(r0, r2, listed)
  {
  }

  lemma ListedFront(rollouts: Rows, rollouts': Rows, listed: seq<(RolloutId, Rollout)>)
    requires listed != [] && ListedNow(rollouts, listed)
    ensures ListedNow(rollouts, listed[..|listed| - 1])
    ensures var (id, ro) := listed[|listed| - 1];
      OthersUntouched(rollouts, rollouts', listed[..|listed| - 1]) ==> id in rollouts' && rollouts'[id] == ro && ro.status == Running
  {
  }

  /** Acting on rows listed at the start of the tick is the same as acting on current rows. */
  lemma {:induction false} ListedRowsAreCurrent(s: Loop, listed: seq<(RolloutId, Rollout)>)
    requires Gated(s) && ListedNow(s.w.rollouts, listed)
    ensures ReconcileList(s, listed) == DoAll(s, TicksFor(listed)) && Gated(ReconcileList(s, listed))
    ensures OthersUntouched(s.w.rollouts, ReconcileList(s, listed).w.rollouts, listed)
  {
    hide Gated, ReconcileSpec, Do, ListedNow, OthersUntouched;
    if listed == [] {
      assert OthersUntouched(s.w.rollouts, s.w.rollouts, listed) by {
        NobodyTouched(s.w.rollouts);
      }
    } else {
      var front, last := listed[..|listed| - 1], listed[|listed| - 1];
      var t := ReconcileList(s, front);
      ListedFront(s.w.rollouts, t.w.rollouts, listed);
      ListedRowsAreCurrent(s, front);
      assert TicksFor(listed)[..|listed| - 1] == TicksFor(front);
      TickGated(t, last.0);
      TickTouchesOne(t, last.0);
      TickUnfold(t, last.0);
      OthersSnoc(s.w.rollouts, t.w.rollouts, Do(t, Tick(last.0)).w.rollouts, listed);
    }
  }

  lemma NobodyTouched(rollouts: Rows)
    ensures OthersUntouched(rollouts, rollouts, [])
  {
  }

  lemma TickUnfold(s: Loop, id: RolloutId)
    requires id in s.w.rollouts && s.w.rollouts[id].status == Running
    ensures Do(s, Tick(id)) == ReconcileSpec(s, id, s.w.rollouts[id])
  {
    hide ReconcileSpec;
  }

  lemma TickTouchesOne(s: Loop, id: RolloutId)
    requires Gated(s) && id in s.w.rollouts && s.w.rollouts[id].status == Running
    ensures var s' := Do(s, Tick(id));
      forall other | other in s.w.rollouts && other != id :: other in s'.w.rollouts && s'.w.rollouts[other] == s.w.rollouts[other]
  {
    TickEffect(s, id);
    hide Gated, Do;
  }
}
