/** What holds in every interleaving of service calls, crashes, clock ticks and rows written around the service. */
module Safety {
  import opened Prelude
  import opened Stages
  import opened Protocol
  import opened Interleaving

  function Reached(actions: seq<Action>): System {
    Run(INITIAL, actions)
  }

  /**
   etcd is at most one stage ahead of the database: a canary percentage that is live for a model belongs to a
   rollout of exactly that canary over exactly that stable version, recorded at the stage before it or later.
   */
  lemma OneStageAhead(actions: seq<Action>, ref: ModelRef)
    requires ref in Reached(actions).w.envelopes
    ensures var w, e := Reached(actions).w, Reached(actions).w.envelopes[ref];
      && e.percent in {0, 1, 10, 50}
      && (e.percent == 0 <==> e.canary == "")
      && (e.percent > 0 ==> exists id :: id in w.rollouts && Backs(w.rollouts[id], ref, e))
  {
    RunKeepsInv(actions);
    assert EnvelopeOk(Reached(actions).w, ref, Reached(actions).w.envelopes[ref]) by {
      hide HistoriesOk, SnapshotsOk, ServesOk, WritersOk, WorldVerified, CallsVerified, StablesSanctioned, Run;
    }
  }

  /**
   A row's recorded versions visit the stages in order without skipping one, promotion coincides with the last
   stage, the end time with being over, and at most four updates ever succeed on one rollout.
   */
  lemma RowsWalkTheStages(actions: seq<Action>, id: RolloutId)
    requires id in Reached(actions).w.rollouts
    ensures var s := Reached(actions);
      && id in s.hist
      && var h, row := s.hist[id], s.w.rollouts[id];
      && 1 <= |h| <= 5 && h[|h| - 1].row == row
      && (forall k | 0 <= k < |h| - 1 :: h[k].row.status == Running && h[k].row.stage == STAGE_ORDER[k])
      && (forall k | 0 <= k < |h| :: SameIdentity(h[k].row, row))
      && (row.stage == STAGE_ORDER[|h| - 1] || (|h| >= 2 && LegalRevert(h[|h| - 2].row, row)))
      && (row.status == Promoted <==> row.stage == Stable)
      && (row.endedAt.None? <==> row.status == Running)
      && |h| + WritesLeft(row) <= 5
  {
    RunKeepsInv(actions);
    var s := Reached(actions);
    hide Run, SnapshotsOk, ServesOk, WritersOk, WorldVerified, CallsVerified, StablesSanctioned, EnvelopesOk;
    var h := s.hist[id];
    assert IsHistory(h);
    HistoryShape(h);
    assert |h| >= 2 ==> LegalWrite(h[|h| - 2].row, h[|h| - 1].row);
    assert SameIdentity(h[|h| - 1].row, h[0].row);
  }

  /**
   One verdict, one advance: every stage of a rollout is left by at most one successful write, different
   writes come from different calls, and an automatic call only ever moves the stage it was issued for.
   */
  lemma OneVerdictOneAdvance(actions: seq<Action>, id: RolloutId, j: nat, k: nat)
    requires id in Reached(actions).hist && 1 <= j < k < |Reached(actions).hist[id]|
    ensures var s := Reached(actions);
      var h := s.hist[id];
      && h[j - 1].row.stage != h[k - 1].row.stage
      && h[j].writer != h[k].writer
      && (forall i | i == j || i == k :: h[i].writer in s.requests
            && Licence(s.requests[h[i].writer], id, h[i - 1].row, h[i].row))
      && (forall i | i == j || i == k :: s.requests[h[i].writer].AutoAdvance? || s.requests[h[i].writer].AutoRollback?
            ==> s.requests[h[i].writer].fromStage == h[i - 1].row.stage)
  {
    RunKeepsInv(actions);
    var s := Reached(actions);
    hide Run, SnapshotsOk, ServesOk, WorldVerified, CallsVerified, StablesSanctioned, EnvelopesOk;
    var h := s.hist[id];
    assert IsHistory(h);
    HistoryShape(h);
    StageTables(STAGE_ORDER[j - 1], STAGE_ORDER[k - 1]);
    assert forall i | 0 <= i < 5 :: Rank(STAGE_ORDER[i]) == i;
    assert WriterOk(s, id, j) && WriterOk(s, id, k);
  }

  /**
   The compare-and-swap compares only stage and status, yet it goes through exactly when the whole row is
   still the one the call read; a call that loses changes nothing at all.
   */
  lemma CasSucceedsIffUntouched(actions: seq<Action>, cid: nat)
    requires cid in Reached(actions).calls
    requires Reached(actions).calls[cid].AdvanceUpdate? || Reached(actions).calls[cid].RevertUpdate?
    ensures var s := Reached(actions);
      var c, s' := s.calls[cid], Apply(s, Access(cid));
      && c.id in s.w.rollouts
      && (s.w.rollouts[c.id] == c.row ==>
            s'.w == s.w.(rollouts := s.w.rollouts[c.id := NewRow(s.w, c)]) && LegalWrite(c.row, NewRow(s.w, c)))
      && (s.w.rollouts[c.id] != c.row ==>
            s'.w == s.w && s'.calls[cid] == Done(Failed(ConcurrentUpdate)))
  {
    var s := Reached(actions);
    var c := s.calls[cid];
    RunKeepsInv(actions);
    InvCall(s, cid);
    hide Run, Inv, SnapshotsOk, ServesOk, WritersOk, WorldVerified, CallsVerified, StablesSanctioned, EnvelopesOk;
    assert HistoriesOk(s) by {
      InvHistories(s);
    }
    CasOutcome(s, c);
    AccessUnfold(s, cid);
    hide Apply, Step, HistoriesOk, LegalWrite, SnapshotOk;
  }

  lemma CasOutcome(s: System, c: Call)
    requires HistoriesOk(s) && SnapshotOk(s.hist, c) && (c.AdvanceUpdate? || c.RevertUpdate?)
    ensures c.id in s.w.rollouts
    ensures s.w.rollouts[c.id] == c.row ==>
              Step(s.w, c).0 == s.w.(rollouts := s.w.rollouts[c.id := NewRow(s.w, c)])
              && LegalWrite(c.row, NewRow(s.w, c))
    ensures s.w.rollouts[c.id] != c.row ==> Step(s.w, c) == (s.w, Done(Failed(ConcurrentUpdate)))
  {
    assert Snapshot(s.hist, c.id, c.row);
    CasMeansUntouched(s, c.id, c.row);
    UpdateOutcome(s.w, c);
    hide Step, HistoriesOk;
  }

  lemma UpdateOutcome(w: World, c: Call)
    requires c.AdvanceUpdate? || c.RevertUpdate?
    ensures CasHolds(w, c.id, c.row.stage) && w.rollouts[c.id] == c.row ==>
              Step(w, c).0 == w.(rollouts := w.rollouts[c.id := NewRow(w, c)])
    ensures !CasHolds(w, c.id, c.row.stage) ==> Step(w, c) == (w, Done(Failed(ConcurrentUpdate)))
  {
  }

  lemma InvHistories(s: System)
    requires Inv(s)
    ensures HistoriesOk(s) && SnapshotsOk(s)
  {
    hide HistoriesOk, SnapshotsOk, ServesOk, WritersOk, WorldVerified, CallsVerified, StablesSanctioned, EnvelopesOk;
  }

  /**
   No bypass: whatever is live or half-live was inserted as a manifest whose signature verifies, and a version
   is a model's stable one only if its own registration saw no live version or a rollout took it to 50 percent.
   */
  lemma NoBypass(actions: seq<Action>, ref: ModelRef)
    ensures var s := Reached(actions);
      && (ref in s.w.active ==> Verified(s.w, s.w.active[ref]) && Sanctioned(s, ref, s.w.active[ref]))
      && (ref in s.w.envelopes ==>
            var e := s.w.envelopes[ref];
            && Verified(s.w, e.stable) && Sanctioned(s, ref, e.stable)
            && (e.canary != "" ==> Verified(s.w, e.canary)))
  {
    RunKeepsInv(actions);
    hide Run, HistoriesOk, SnapshotsOk, ServesOk, WritersOk, CallsVerified, EnvelopesOk, Sanctioned, Verified;
    var s := Reached(actions);
    assert ref in s.w.envelopes ==> EnvelopeVerified(s.w, s.w.envelopes[ref]);
  }

  /**
   Publishing before the compare-and-swap: even with nothing in between, etcd describes the row afterwards
   exactly when the row was still the one read, or another call had already made the same move.
   */
  lemma PublishMatchesRow(actions: seq<Action>, cid: nat)
    requires cid in Reached(actions).calls && Reached(actions).calls[cid].AdvancePublish?
    ensures var s := Reached(actions);
      var c, s2 := s.calls[cid], Apply(Apply(s, Access(cid)), Access(cid));
      && c.id in s.w.rollouts && c.id in s2.w.rollouts && c.row.modelRef in s2.w.envelopes
      && var now := s.w.rollouts[c.id];
      (s2.w.envelopes[c.row.modelRef] == RowEnvelope(s2.w.rollouts[c.id]) <==>
         now == c.row || (now.status == Running && now.stage == c.next))
  {
    var s := Reached(actions);
    var c := s.calls[cid];
    RunKeepsInv(actions);
    InvCall(s, cid);
    InvHistories(s);
    hide Run, Inv, Observe;
    assert Snapshot(s.hist, c.id, c.row);
    CasMeansUntouched(s, c.id, c.row);
    SnapshotBehind(s, c.id, c.row);
    hide IsHistory, HistoriesOk, SnapshotsOk, Snapshot, SnapshotOk;
    PublishThenUpdate(s.w, c);
    AccessUnfold(s, cid);
    AccessUnfold(Apply(s, Access(cid)), cid);
  }

  lemma PublishThenUpdate(w: World, c: Call)
    requires c.AdvancePublish? && Next(c.row.stage) == Some(c.next) && c.next != Stable
    requires c.id in w.rollouts && SameIdentity(c.row, w.rollouts[c.id]) && c.row.versionId != ""
    requires c.row.status == Running
    requires CasHolds(w, c.id, c.row.stage) <==> w.rollouts[c.id] == c.row
    ensures var w1, c1 := Step(w, c).0, Step(w, c).1;
      var w2 := Step(w1, c1).0;
      && c.id in w2.rollouts && c.row.modelRef in w2.envelopes
      && (w2.envelopes[c.row.modelRef] == RowEnvelope(w2.rollouts[c.id]) <==>
            w.rollouts[c.id] == c.row || (w.rollouts[c.id].status == Running && w.rollouts[c.id].stage == c.next))
  {
  }

  /** The version that a rollout which is over left as the only live one. */
  function FinalVersion(r: Rollout): VersionId {
    if r.status == Promoted then r.versionId else r.stableVersionId
  }

  /**
   The same for the two accesses that end a rollout, the promotion's and the revert's: etcd describes the row
   afterwards exactly when the row was still the one read, or another call had ended it on the same version.
   */
  lemma EndingMatchesRow(actions: seq<Action>, cid: nat)
    requires cid in Reached(actions).calls
    requires Reached(actions).calls[cid].AdvancePublishActive? || Reached(actions).calls[cid].RevertPublish?
    ensures var s := Reached(actions);
      var c, s2 := s.calls[cid], Apply(Apply(s, Access(cid)), Access(cid));
      && c.id in s.w.rollouts && c.id in s2.w.rollouts && c.row.modelRef in s2.w.envelopes
      && var now := s.w.rollouts[c.id];
      (s2.w.envelopes[c.row.modelRef] == RowEnvelope(s2.w.rollouts[c.id]) <==>
         now == c.row
         || (now.status != Running && FinalVersion(now) == if c.RevertPublish? then now.stableVersionId else now.versionId))
  {
    var s := Reached(actions);
    var c := s.calls[cid];
    RunKeepsInv(actions);
    InvCall(s, cid);
    InvHistories(s);
    hide Run, Inv, Observe;
    assert Snapshot(s.hist, c.id, c.row);
    CasMeansUntouched(s, c.id, c.row);
    SnapshotBehind(s, c.id, c.row);
    RowsWalkTheStages(actions, c.id);
    hide IsHistory, HistoriesOk, SnapshotsOk, Snapshot, SnapshotOk, LegalRevert;
    EndThenUpdate(s.w, c);
    AccessUnfold(s, cid);
    AccessUnfold(Apply(s, Access(cid)), cid);
  }

  lemma EndThenUpdate(w: World, c: Call)
    requires c.AdvancePublishActive? || (c.RevertPublish? && (c.result == Aborted || c.result == RolledBack))
    requires c.id in w.rollouts && SameIdentity(c.row, w.rollouts[c.id]) && c.row.versionId != ""
    requires c.row.status == Running && Rank(c.row.stage) <= Rank(w.rollouts[c.id].stage)
    requires CasHolds(w, c.id, c.row.stage) <==> w.rollouts[c.id] == c.row
    requires w.rollouts[c.id].status == Promoted <==> w.rollouts[c.id].stage == Stable
    ensures var w1, c1 := Step(w, c).0, Step(w, c).1;
      var w2, now := Step(w1, c1).0, w.rollouts[c.id];
      && c.id in w2.rollouts && c.row.modelRef in w2.envelopes
      && (w2.envelopes[c.row.modelRef] == RowEnvelope(w2.rollouts[c.id]) <==>
            now == c.row
            || (now.status != Running && FinalVersion(now) == if c.RevertPublish? then now.stableVersionId else now.versionId))
  {
  }

  // ----- The times in a row -----

  /** The row was last written at `now`: it entered its stage then, and ended then if it is over. */
  predicate WrittenAt(r: Rollout, now: nat) {
    && r.stageEnteredAt == now
    && (r.status == Running ==> r.endedAt == None)
    && (r.status != Running ==> r.endedAt == Some(now))
  }

  /** Every access leaves each row alone or writes it now, reverts included; only a new row starts now. */
  lemma StepStamps(w: World, c: Call)
    ensures var w' := Step(w, c).0;
      forall id | id in w'.rollouts ::
        if id in w.rollouts && w'.rollouts[id] == w.rollouts[id] then true
        else WrittenAt(w'.rollouts[id], w.now)
             && w'.rollouts[id].startedAt == (if id in w.rollouts then w.rollouts[id].startedAt else w.now)
  {
    hide Lookup, HasRunning, Genuine;
  }

  /**
   A successful update, field by field: an advance puts the next stage, promoted exactly at `stable`; a revert
   keeps the stage; both stamp the moment of the write and keep everything else, in every interleaving.
   */
  lemma UpdateWrites(actions: seq<Action>, cid: nat)
    requires cid in Reached(actions).calls
    requires Reached(actions).calls[cid].AdvanceUpdate? || Reached(actions).calls[cid].RevertUpdate?
    requires Reached(actions).calls[cid].id in Reached(actions).w.rollouts
    requires Reached(actions).w.rollouts[Reached(actions).calls[cid].id] == Reached(actions).calls[cid].row
    ensures var s, c := Reached(actions), Reached(actions).calls[cid];
      var now, row := s.w.now, c.row;
      var stage := if c.AdvanceUpdate? then c.next else row.stage;
      var status := if c.RevertUpdate? then c.result else if stage == Stable then Promoted else Running;
      var endedAt := if status == Running then None else Some(now);
      Apply(s, Access(cid)).w == s.w.(rollouts := s.w.rollouts[c.id :=
        Rollout(row.modelRef, row.versionId, stage, status, row.stableVersionId, row.startedAt, endedAt, now)])
  {
    CasSucceedsIffUntouched(actions, cid);
    hide Reached, Apply, LegalWrite;
  }

  /** In every interleaving a row began before it entered its stage, and one that is over ended when it was last written. */
  lemma {:induction false} RowTimes(actions: seq<Action>, id: RolloutId)
    requires id in Reached(actions).w.rollouts
    ensures var s, row := Reached(actions), Reached(actions).w.rollouts[id];
      && row.startedAt <= row.stageEnteredAt <= s.w.now
      && (row.status == Running ==> row.endedAt == None)
      && (row.status != Running ==> row.endedAt == Some(row.stageEnteredAt))
  {
    var front, a := actions[..|actions| - 1], actions[|actions| - 1];
    var s := Reached(front);
    assert Reached(actions) == Apply(s, a);
    hide Apply, Reached;
    if id in s.w.rollouts {
      RowTimes(front, id);
    }
    ApplyStamps(s, a, id);
  }

  lemma ApplyStamps(s: System, a: Action, id: RolloutId)
    requires id in Apply(s, a).w.rollouts
    ensures var s', row' := Apply(s, a), Apply(s, a).w.rollouts[id];
      && s.w.now <= s'.w.now
      && if id in s.w.rollouts && row' == s.w.rollouts[id] then true
         else WrittenAt(row', s.w.now) && row'.startedAt == (if id in s.w.rollouts then s.w.rollouts[id].startedAt else s.w.now)
  {
    if a.Access? && a.cid in s.calls {
      AccessUnfold(s, a.cid);
      StepFrame(s.w, s.calls[a.cid]);
      StepStamps(s.w, s.calls[a.cid]);
      hide Apply, Step;
    } else {
      hide Step, Start;
    }
  }

  // ----- Histories only grow -----

  lemma ApplyGrows(s: System, a: Action)
    requires Inv(s)
    ensures HistoriesGrow(s.hist, Apply(s, a).hist)
  {
    if a.Access? && a.cid in s.calls {
      AccessGrows(s, a.cid);
      hide Inv, Apply;
    } else {
      assert Quiet(s, Apply(s, a)) || Apply(s, a) == s by {
        if !a.Access? {
          InvKeys(s);
          QuietApply(s, a);
        }
      }
      hide Inv, Apply;
    }
  }

  lemma AccessGrows(s: System, cid: nat)
    requires Inv(s) && cid in s.calls
    ensures HistoriesGrow(s.hist, Apply(s, Access(cid)).hist)
  {
    InvHistories(s);
    InvCall(s, cid);
    hide Inv, Apply;
    AccessHistories(s, cid);
  }

  lemma InvKeys(s: System)
    requires Inv(s)
    ensures s.calls.Keys == s.requests.Keys
  {
    hide HistoriesOk, SnapshotsOk, WritersOk, WorldVerified, CallsVerified, StablesSanctioned, EnvelopesOk, Serves;
  }

  lemma {:induction false} RunGrows(actions: seq<Action>, more: seq<Action>)
    ensures HistoriesGrow(Reached(actions).hist, Reached(actions + more).hist)
  {
    if more == [] {
      assert actions + more == actions;
    } else {
      var m := more[..|more| - 1];
      RunGrows(actions, m);
      RunKeepsInv(actions + m);
      var last := more[|more| - 1];
      assert (actions + more)[..|actions + more| - 1] == actions + m;
      ApplyGrows(Reached(actions + m), last);
      assert Reached(actions + more) == Apply(Reached(actions + m), last);
      hide Run, Apply, Inv;
    }
  }

  lemma ReachedHistory(actions: seq<Action>, id: RolloutId)
    requires id in Reached(actions).w.rollouts || id in Reached(actions).hist
    ensures var s := Reached(actions);
      && id in s.w.rollouts && id in s.hist && IsHistory(s.hist[id]) && 0 < |s.hist[id]|
      && s.hist[id][|s.hist[id]| - 1].row == s.w.rollouts[id]
  {
    RunKeepsInv(actions);
    InvHistories(Reached(actions));
    hide Run, Inv, SnapshotsOk;
    assert IsHistory(Reached(actions).hist[id]);
  }

  /** A rollout that is over never changes again, whatever calls are still in flight. */
  lemma TerminalRowsFrozen(actions: seq<Action>, more: seq<Action>, id: RolloutId)
    requires id in Reached(actions).w.rollouts && Reached(actions).w.rollouts[id].status != Running
    ensures id in Reached(actions + more).w.rollouts
    ensures Reached(actions + more).w.rollouts[id] == Reached(actions).w.rollouts[id]
  {
    hide Reached, IsHistory;
    ReachedHistory(actions, id);
    RunGrows(actions, more);
    ReachedHistory(actions + more, id);
    OverMeansLast(Reached(actions).hist[id], Reached(actions + more).hist[id]);
  }

  lemma OverMeansLast(h: seq<Entry>, h': seq<Entry>)
    requires IsHistory(h') && 0 < |h| && h <= h'
    requires h[|h| - 1].row.status != Running
    ensures h == h'
  {
    assert h'[|h| - 1] == h[|h| - 1];
    assert |h| < |h'| ==> LegalWrite(h'[|h| - 1].row, h'[|h| - 1 + 1].row);
  }
}
