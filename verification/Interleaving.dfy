/**
 Any number of service calls in flight at once, interleaved access by access. A call that is never scheduled
 again has crashed, or its next store or etcd access failed. Histories are kept only to state properties.
 */
module Interleaving {
  import opened Prelude
  import opened Stages
  import opened Protocol

  /** One version of a rollout row and the call that wrote it. */
  datatype Entry = Entry(row: Rollout, writer: nat)

  datatype System = System(
    w: World,
    requests: map<nat, Request>,
    calls: map<nat, Call>,
    hist: map<RolloutId, seq<Entry>>)

  datatype Action =
    | Invoke(cid: nat, request: Request)
    | Access(cid: nat)
    | Pass(duration: nat)
    | DirectInsert(versionId: VersionId, manifest: Manifest) // a row written around the service

  const INITIAL := System(EMPTY_WORLD, map[], map[], map[])

  function Observe(hist: map<RolloutId, seq<Entry>>, before: map<RolloutId, Rollout>,
                   after: map<RolloutId, Rollout>, writer: nat): map<RolloutId, seq<Entry>>
  {
    map id | id in after ::
      if id !in hist then [Entry(after[id], writer)]
      else if id in before && before[id] == after[id] then hist[id]
      else hist[id] + [Entry(after[id], writer)]
  }

  function Apply(s: System, a: Action): System {
    match a
    case Invoke(cid, request) =>
      if cid in s.calls then s
      else s.(requests := s.requests[cid := request], calls := s.calls[cid := Start(request)])
    case Access(cid) =>
      if cid !in s.calls then s
      else
        var (w', c') := Step(s.w, s.calls[cid]);
        System(w', s.requests, s.calls[cid := c'], Observe(s.hist, s.w.rollouts, w'.rollouts, cid))
    case Pass(d) => s.(w := s.w.(now := s.w.now + d))
    case DirectInsert(v, m) =>
      if v == "" || v in s.w.manifests then s
      else s.(w := s.w.(manifests := s.w.manifests[v := m]))
  }

  function Run(s: System, actions: seq<Action>): System {
    if actions == [] then s
    else Apply(Run(s, actions[..|actions| - 1]), actions[|actions| - 1])
  }

  // ----- Row histories -----

  predicate SameIdentity(a: Rollout, b: Rollout) {
    && a.modelRef == b.modelRef && a.versionId == b.versionId
    && a.stableVersionId == b.stableVersionId && a.startedAt == b.startedAt
  }

  predicate EndedExactlyWhenOver(r: Rollout) {
    r.endedAt.None? <==> r.status == Running
  }

  predicate LegalAdvance(a: Rollout, b: Rollout) {
    Next(a.stage) == Some(b.stage) && b.status == StatusAt(b.stage)
  }

  predicate LegalRevert(a: Rollout, b: Rollout) {
    b.stage == a.stage && (b.status == Aborted || b.status == RolledBack)
  }

  predicate LegalWrite(a: Rollout, b: Rollout) {
    && a.status == Running
    && SameIdentity(a, b)
    && EndedExactlyWhenOver(b)
    && (LegalAdvance(a, b) || LegalRevert(a, b))
  }

  ghost predicate IsHistory(h: seq<Entry>) {
    && |h| > 0
    && h[0].row.stage == Pending && h[0].row.status == Running && h[0].row.endedAt.None?
    && h[0].row.versionId != ""
    && forall k | 0 <= k < |h| - 1 :: LegalWrite(h[k].row, h[k + 1].row)
  }

  /** Successful UpdateRollout writes a row can still take. */
  function WritesLeft(r: Rollout): nat {
    if r.status == Running then 4 - Rank(r.stage) else 0
  }

  /**
   A row walks the staged sequence one stage at a time and may stop anywhere: version k of a row that was
   written again is running at the k-th stage, and there are never more than four writes after the insert.
   */
  lemma {:induction false} HistoryShape(h: seq<Entry>)
    requires IsHistory(h)
    ensures |h| <= 5
    ensures forall k | 0 <= k < |h| - 1 :: h[k].row.status == Running && h[k].row.stage == STAGE_ORDER[k]
    ensures var last := h[|h| - 1].row;
            && (last.status == Promoted <==> last.stage == Stable)
            && EndedExactlyWhenOver(last)
            && (last.status == Running || last.status == Promoted ==> last.stage == STAGE_ORDER[|h| - 1])
            && (last.status == Aborted || last.status == RolledBack ==>
                  |h| >= 2 && last.stage == STAGE_ORDER[|h| - 2])
            && |h| + WritesLeft(last) <= 5
    ensures forall k | 0 <= k < |h| :: SameIdentity(h[k].row, h[0].row)
  {
    if |h| > 1 {
      var g := h[..|h| - 1];
      assert forall k | 0 <= k < |g| - 1 :: LegalWrite(g[k].row, g[k + 1].row) by {
        forall k | 0 <= k < |g| - 1 ensures LegalWrite(g[k].row, g[k + 1].row) {
          assert LegalWrite(h[k].row, h[k + 1].row);
        }
      }
      HistoryShape(g);
      assert LegalWrite(h[|h| - 2].row, h[|h| - 1].row);
      assert g[|g| - 1] == h[|h| - 2];
    }
  }

  /** Stage and status alone identify a version of a row, so comparing them compares whole rows. */
  lemma {:induction false} NoAba(h: seq<Entry>, j: nat)
    requires IsHistory(h) && j < |h|
    requires h[j].row.stage == h[|h| - 1].row.stage && h[|h| - 1].row.status == Running
    ensures j == |h| - 1
  {
    HistoryShape(h);
    assert forall i | 0 <= i < 5 :: Rank(STAGE_ORDER[i]) == i;
  }

  lemma AppendWrite(h: seq<Entry>, e: Entry)
    requires IsHistory(h) && LegalWrite(h[|h| - 1].row, e.row)
    ensures IsHistory(h + [e])
  {
  }

  // ----- What one access can change -----

  predicate WritesRows(c: Call) {
    c.CreateInsert? || c.AdvanceUpdate? || c.RevertUpdate?
  }

  predicate WritesEnvelope(c: Call) {
    c.RegPublishActive? || c.AdvancePublishActive? || c.AdvancePublish? || c.RevertPublish?
  }

  /** The next access of `c` publishes an envelope on behalf of rollout `id`. */
  predicate PublishesFor(c: Call, id: RolloutId) {
    (c.AdvancePublish? || c.AdvancePublishActive? || c.RevertPublish?) && c.id == id
  }

  predicate WritesActive(c: Call) {
    c.RegSetActive? || c.AdvanceActivate?
  }

  /** The model whose active key or pointer a writing call overwrites. */
  function Target(c: Call): ModelRef
    requires WritesEnvelope(c) || WritesActive(c)
  {
    if c.RegPublishActive? || c.RegSetActive? then c.modelRef else c.row.modelRef
  }

  function NewEnvelope(c: Call): ActiveEnvelope
    requires WritesEnvelope(c)
  {
    match c
    case RegPublishActive(v, _) => StableOnly(v)
    case AdvancePublishActive(_, row) => StableOnly(row.versionId)
    case AdvancePublish(_, row, next) => ActiveEnvelope(row.stableVersionId, row.versionId, Percent(next))
    case RevertPublish(_, row, _) => StableOnly(row.stableVersionId)
  }

  function NewActive(c: Call): VersionId
    requires WritesActive(c)
  {
    if c.RegSetActive? then c.versionId else c.row.versionId
  }

  /** Each access writes at most one table or key, and exactly this value. */
  lemma StepFrame(w: World, c: Call)
    ensures var w' := Step(w, c).0;
            && (WritesRows(c) || w'.rollouts == w.rollouts)
            && w'.envelopes == (if WritesEnvelope(c) then w.envelopes[Target(c) := NewEnvelope(c)] else w.envelopes)
            && (w'.active == w.active || (WritesActive(c) && w'.active == w.active[Target(c) := NewActive(c)]))
            && (WritesActive(c) && NewActive(c) in w.manifests ==> w'.active == w.active[Target(c) := NewActive(c)])
            && (c.RegInsert? || w'.manifests == w.manifests)
            && w'.now == w.now
  {
  }

  /** Nothing recorded about a manifest is ever lost or altered. */
  lemma StepManifests(w: World, c: Call)
    ensures ManifestsGrow(w, Step(w, c).0)
  {
  }

  ghost predicate ManifestsGrow(w: World, w': World) {
    forall v | v in w.manifests :: v in w'.manifests && w'.manifests[v] == w.manifests[v]
  }

  // ----- Histories and the snapshots calls hold -----

  ghost predicate HistoriesOk(s: System) {
    && s.hist.Keys == s.w.rollouts.Keys
    && forall id | id in s.hist ::
         IsHistory(s.hist[id]) && s.hist[id][|s.hist[id]| - 1].row == s.w.rollouts[id]
  }

  ghost predicate Snapshot(hist: map<RolloutId, seq<Entry>>, id: RolloutId, row: Rollout) {
    && id in hist
    && row.status == Running
    && exists k :: 0 <= k < |hist[id]| && hist[id][k].row == row
  }

  /** A call that acts on a row acts on a version the row really had while running. */
  ghost predicate SnapshotOk(hist: map<RolloutId, seq<Entry>>, c: Call) {
    match c
    case AdvanceActivate(id, row) => Snapshot(hist, id, row) && row.stage == Canary50
    case AdvancePublishActive(id, row) => Snapshot(hist, id, row) && row.stage == Canary50
    case AdvancePublish(id, row, next) =>
      Snapshot(hist, id, row) && Next(row.stage) == Some(next) && next != Stable
    case AdvanceUpdate(id, row, next) => Snapshot(hist, id, row) && Next(row.stage) == Some(next)
    case RevertRead(_, result, _) => result == Aborted || result == RolledBack
    case RevertPublish(id, row, result) => Snapshot(hist, id, row) && (result == Aborted || result == RolledBack)
    case RevertUpdate(id, row, result) => Snapshot(hist, id, row) && (result == Aborted || result == RolledBack)
    case _ => true
  }

  ghost predicate SnapshotsOk(s: System) {
    forall cid | cid in s.calls :: SnapshotOk(s.hist, s.calls[cid])
  }

  ghost predicate HistoriesGrow(h: map<RolloutId, seq<Entry>>, h': map<RolloutId, seq<Entry>>) {
    forall id | id in h :: id in h' && h[id] <= h'[id]
  }

  lemma SnapshotOkPersists(h: map<RolloutId, seq<Entry>>, h': map<RolloutId, seq<Entry>>, c: Call)
    requires HistoriesGrow(h, h') && SnapshotOk(h, c)
    ensures SnapshotOk(h', c)
  {
  }

  /** A snapshot that still passes the CAS test is the current row, field for field. */
  lemma CasMeansUntouched(s: System, id: RolloutId, row: Rollout)
    requires HistoriesOk(s) && Snapshot(s.hist, id, row)
    ensures CasHolds(s.w, id, row.stage) <==> s.w.rollouts[id] == row
  {
    var h := s.hist[id];
    var k :| 0 <= k < |h| && h[k].row == row;
    assert IsHistory(h);
    if CasHolds(s.w, id, row.stage) {
      NoAba(h, k);
    }
  }

  /** The new version a row-writing call produces when its write goes through. */
  function NewRow(w: World, c: Call): Rollout
    requires WritesRows(c)
  {
    match c
    case CreateInsert(_, ref, v, stable) => Inserted(w, ref, v, stable)
    case AdvanceUpdate(_, row, next) => Written(row, next, StatusAt(next), w.now)
    case RevertUpdate(_, row, result) => Written(row, row.stage, result, w.now)
  }

  /** A write either changes nothing or puts exactly one legal new version on top of the version it read. */
  lemma RowWrite(s: System, c: Call)
    requires HistoriesOk(s) && SnapshotOk(s.hist, c) && WritesRows(c)
    ensures var w' := Step(s.w, c).0;
      || w'.rollouts == s.w.rollouts
      || (w'.rollouts == s.w.rollouts[c.id := NewRow(s.w, c)]
          && if c.CreateInsert? then c.id !in s.w.rollouts && c.versionId != ""
             else c.id in s.w.rollouts && s.w.rollouts[c.id] == c.row && LegalWrite(c.row, NewRow(s.w, c))
                  && (c.AdvanceUpdate? ==> LegalAdvance(c.row, NewRow(s.w, c)))
                  && (c.RevertUpdate? ==> LegalRevert(c.row, NewRow(s.w, c))))
  {
    if !c.CreateInsert? {
      assert Snapshot(s.hist, c.id, c.row);
      CasMeansUntouched(s, c.id, c.row);
    }
  }

  lemma ObserveSame(hist: map<RolloutId, seq<Entry>>, rollouts: map<RolloutId, Rollout>, writer: nat)
    requires hist.Keys == rollouts.Keys
    ensures Observe(hist, rollouts, rollouts, writer) == hist
  {
  }

  lemma ObserveWrite(hist: map<RolloutId, seq<Entry>>, rollouts: map<RolloutId, Rollout>, id: RolloutId,
                     b: Rollout, writer: nat)
    requires hist.Keys == rollouts.Keys
    requires id in rollouts ==> rollouts[id] != b
    ensures Observe(hist, rollouts, rollouts[id := b], writer) ==
            hist[id := (if id in hist then hist[id] else []) + [Entry(b, writer)]]
  {
    var after := rollouts[id := b];
    var x := Observe(hist, rollouts, after, writer);
    var y := hist[id := (if id in hist then hist[id] else []) + [Entry(b, writer)]];
    assert x.Keys == y.Keys;
    assert [] + [Entry(b, writer)] == [Entry(b, writer)];
    forall i | i in y ensures x[i] == y[i] {
      assert i in after;
    }
  }

  /** The history map after an access: unchanged, or one entry longer at one row. */
  lemma AccessHist(s: System, cid: nat)
    requires HistoriesOk(s) && cid in s.calls && SnapshotOk(s.hist, s.calls[cid])
    ensures var c, s' := s.calls[cid], Apply(s, Access(cid));
      || (s'.hist == s.hist && s'.w.rollouts == s.w.rollouts)
      || (WritesRows(c)
          && s'.w.rollouts == s.w.rollouts[c.id := NewRow(s.w, c)]
          && s'.hist == s.hist[c.id := (if c.id in s.hist then s.hist[c.id] else []) + [Entry(NewRow(s.w, c), cid)]]
          && if c.CreateInsert? then c.id !in s.hist && c.versionId != ""
             else c.id in s.hist && s.w.rollouts[c.id] == c.row && LegalWrite(c.row, NewRow(s.w, c))
                  && (c.AdvanceUpdate? ==> LegalAdvance(c.row, NewRow(s.w, c)))
                  && (c.RevertUpdate? ==> LegalRevert(c.row, NewRow(s.w, c))))
  {
    hide Genuine, IsHistory, Observe, SnapshotOk;
    var c, s' := s.calls[cid], Apply(s, Access(cid));
    StepFrame(s.w, c);
    if WritesRows(c) {
      RowWrite(s, c);
    }
    if s'.w.rollouts == s.w.rollouts {
      ObserveSame(s.hist, s.w.rollouts, cid);
    } else {
      ObserveWrite(s.hist, s.w.rollouts, c.id, NewRow(s.w, c), cid);
    }
  }

  lemma AccessHistories(s: System, cid: nat)
    requires HistoriesOk(s) && cid in s.calls && SnapshotOk(s.hist, s.calls[cid])
    ensures HistoriesOk(Apply(s, Access(cid))) && HistoriesGrow(s.hist, Apply(s, Access(cid)).hist)
  {
    hide Apply, Step;
    var c, s' := s.calls[cid], Apply(s, Access(cid));
    AccessHist(s, cid);
    if s'.hist != s.hist {
      if c.CreateInsert? {
        assert IsHistory(s'.hist[c.id]);
      } else {
        AppendWrite(s.hist[c.id], Entry(NewRow(s.w, c), cid));
      }
    }
  }

  lemma AccessSnapshots(s: System, cid: nat)
    requires HistoriesOk(s) && SnapshotsOk(s) && cid in s.calls
    ensures SnapshotsOk(Apply(s, Access(cid)))
  {
    var c, s' := s.calls[cid], Apply(s, Access(cid));
    AccessHistories(s, cid);
    AccessSnapshot(s, cid);
    hide Step, Observe, SnapshotOk;
    forall other | other in s'.calls ensures SnapshotOk(s'.hist, s'.calls[other]) {
      if other != cid {
        SnapshotOkPersists(s.hist, s'.hist, s.calls[other]);
      }
    }
  }

  lemma AccessSnapshot(s: System, cid: nat)
    requires HistoriesOk(s) && cid in s.calls && SnapshotOk(s.hist, s.calls[cid])
    ensures SnapshotOk(Apply(s, Access(cid)).hist, Apply(s, Access(cid)).calls[cid])
  {
    var c, s' := s.calls[cid], Apply(s, Access(cid));
    assert s'.calls[cid] == Step(s.w, c).1;
    AccessHistories(s, cid);
    hide Apply, Step, SnapshotOk, HistoriesGrow;
    forall id | id in s.w.rollouts && s.w.rollouts[id].status == Running
      ensures Snapshot(s.hist, id, s.w.rollouts[id])
    {
      assert IsHistory(s.hist[id]);
    }
    hide IsHistory, HistoriesOk, Snapshot;
    StepSnapshot(s.w, s.hist, c);
    SnapshotOkPersists(s.hist, s'.hist, Step(s.w, c).1);
  }

  lemma StepSnapshot(w: World, hist: map<RolloutId, seq<Entry>>, c: Call)
    requires SnapshotOk(hist, c)
    requires forall id | id in w.rollouts && w.rollouts[id].status == Running :: Snapshot(hist, id, w.rollouts[id])
    ensures SnapshotOk(hist, Step(w, c).1)
  {
    hide Genuine, Snapshot, Lookup, HasRunning, UpdateRollout;
  }

  // ----- Who wrote what -----

  predicate AdvanceTicket(r: Request, id: RolloutId, stage: Stage) {
    match r
    case Promote(i) => i == id
    case Create(i, _, _, _) => i == id
    case AutoAdvance(i, from) => i == id && from == stage
    case _ => false
  }

  predicate RevertTicket(r: Request, id: RolloutId, stage: Stage, result: Status) {
    match r
    case Abort(i) => i == id && result == Aborted
    case AutoRollback(i, from) => i == id && from == stage && result == RolledBack
    case _ => false
  }

  predicate RegisterTicket(r: Request, v: VersionId, ref: ModelRef) {
    r.Register? && r.versionId == v && r.modelRef == ref
  }

  predicate CreateTicket(r: Request, id: RolloutId) {
    r.Create? && r.rolloutId == id
  }

  /** The call in flight is doing what its request asked for. */
  predicate Serves(r: Request, c: Call) {
    match c
    case RegInsert(v, ref, _) => RegisterTicket(r, v, ref)
    case RegPublish(v, ref, _) => RegisterTicket(r, v, ref)
    case RegCheck(v, ref) => RegisterTicket(r, v, ref)
    case RegSetActive(v, ref) => RegisterTicket(r, v, ref)
    case RegPublishActive(v, ref) => RegisterTicket(r, v, ref)
    case CreateTarget(id, _, _) => CreateTicket(r, id)
    case CreateActive(id, _, _) => CreateTicket(r, id)
    case CreateRunning(id, _, _, _) => CreateTicket(r, id)
    case CreateInsert(id, _, _, _) => CreateTicket(r, id)
    case AdvanceRead(id, None) => r == Promote(id) || CreateTicket(r, id)
    case AdvanceRead(id, Some(from)) => r == AutoAdvance(id, from)
    case AdvanceActivate(id, row) => AdvanceTicket(r, id, row.stage)
    case AdvancePublishActive(id, row) => AdvanceTicket(r, id, row.stage)
    case AdvancePublish(id, row, _) => AdvanceTicket(r, id, row.stage)
    case AdvanceUpdate(id, row, _) => AdvanceTicket(r, id, row.stage)
    case RevertRead(id, result, None) => r == Abort(id) && result == Aborted
    case RevertRead(id, result, Some(from)) => r == AutoRollback(id, from) && result == RolledBack
    case RevertPublish(id, row, result) => RevertTicket(r, id, row.stage, result)
    case RevertUpdate(id, row, result) => RevertTicket(r, id, row.stage, result)
    case Done(_) => true
  }

  ghost predicate ServesOk(s: System) {
    && s.calls.Keys == s.requests.Keys
    && forall cid | cid in s.calls :: Serves(s.requests[cid], s.calls[cid])
  }

  lemma StepServes(w: World, r: Request, c: Call)
    requires Serves(r, c)
    ensures Serves(r, Step(w, c).1)
  {
    hide Genuine, UpdateRollout, HasRunning, Lookup;
  }

  lemma StartServes(r: Request)
    ensures Serves(r, Start(r))
  {
  }

  /** The write from `a` to `b` is one that request `r` may make. */
  predicate Licence(r: Request, id: RolloutId, a: Rollout, b: Rollout) {
    || (AdvanceTicket(r, id, a.stage) && LegalAdvance(a, b))
    || (RevertTicket(r, id, a.stage, b.status) && LegalRevert(a, b))
  }

  ghost predicate WriterOk(s: System, id: RolloutId, k: nat)
    requires id in s.hist && 1 <= k < |s.hist[id]|
  {
    var writer := s.hist[id][k].writer;
    && writer in s.calls && writer in s.requests && s.calls[writer].Done?
    && Licence(s.requests[writer], id, s.hist[id][k - 1].row, s.hist[id][k].row)
  }

  ghost predicate WritersOk(s: System) {
    && (forall id, k | id in s.hist && 1 <= k < |s.hist[id]| :: WriterOk(s, id, k))
    && (forall id, j, k | id in s.hist && 1 <= j < k < |s.hist[id]| :: s.hist[id][j].writer != s.hist[id][k].writer)
  }

  lemma AccessWriters(s: System, cid: nat)
    requires HistoriesOk(s) && ServesOk(s) && WritersOk(s) && cid in s.calls && SnapshotOk(s.hist, s.calls[cid])
    ensures WritersOk(Apply(s, Access(cid)))
  {
    var c, s' := s.calls[cid], Apply(s, Access(cid));
    AccessHist(s, cid);
    WriteFinishes(s.w, c);
    assert Serves(s.requests[cid], c);
    assert s'.calls == s.calls[cid := Step(s.w, c).1] && s'.requests == s.requests;
    assert cid in s.requests;
    assert WritesRows(c) && c.id in s.hist ==> IsHistory(s.hist[c.id]) && |s.hist[c.id]| > 0;
    hide Apply, Step, Observe, IsHistory, HistoriesOk, ServesOk, Snapshot, SnapshotOk;
    if s'.hist == s.hist {
      OldWriters(s, s');
    } else {
      NewWriter(s, s', cid);
    }
  }

  /** Calls only finish, and finished calls stay as they are. */
  ghost predicate DoneStays(s: System, s': System) {
    && (forall cid | cid in s.requests :: cid in s'.requests && s'.requests[cid] == s.requests[cid])
    && (forall cid | cid in s.calls && s.calls[cid].Done? :: cid in s'.calls && s'.calls[cid].Done?)
  }

  lemma OldWriters(s: System, s': System)
    requires WritersOk(s) && s'.hist == s.hist && DoneStays(s, s')
    ensures WritersOk(s')
  {
    hide Licence;
    forall id, k | id in s'.hist && 1 <= k < |s'.hist[id]| ensures WriterOk(s', id, k) {
      assert WriterOk(s, id, k);
    }
  }

  lemma NewWriter(s: System, s': System, cid: nat)
    requires WritersOk(s) && DoneStays(s, s') && cid in s.calls && cid in s.requests && Serves(s.requests[cid], s.calls[cid])
    requires WritesRows(s.calls[cid])
    requires var c, b := s.calls[cid], NewRow(s.w, s.calls[cid]);
      && s'.hist == s.hist[c.id := (if c.id in s.hist then s.hist[c.id] else []) + [Entry(b, cid)]]
      && if c.CreateInsert? then c.id !in s.hist
         else c.id in s.hist && |s.hist[c.id]| > 0 && s.hist[c.id][|s.hist[c.id]| - 1].row == c.row
              && cid in s'.calls && s'.calls[cid].Done?
              && (c.AdvanceUpdate? ==> LegalAdvance(c.row, b))
              && (c.RevertUpdate? ==> LegalRevert(c.row, b))
    ensures WritersOk(s')
  {
    hide NewRow, LegalAdvance, LegalRevert, AdvanceTicket, RevertTicket;
    var c := s.calls[cid];
    if !c.CreateInsert? {
      WriteLicensed(s.w, s.requests[cid], c);
    }
    hide Licence;
    forall id, k | id in s'.hist && 1 <= k < |s'.hist[id]| ensures WriterOk(s', id, k) {
      if id in s.hist && k < |s.hist[id]| {
        assert WriterOk(s, id, k);
      }
    }
    forall id, j, k | id in s'.hist && 1 <= j < k < |s'.hist[id]|
      ensures s'.hist[id][j].writer != s'.hist[id][k].writer
    {
      assert WriterOk(s, id, j);
    }
  }

  lemma WriteLicensed(w: World, r: Request, c: Call)
    requires Serves(r, c) && (c.AdvanceUpdate? || c.RevertUpdate?)
    requires c.AdvanceUpdate? ==> LegalAdvance(c.row, NewRow(w, c))
    requires c.RevertUpdate? ==> LegalRevert(c.row, NewRow(w, c))
    ensures Licence(r, c.id, c.row, NewRow(w, c))
  {
  }

  lemma WriteFinishes(w: World, c: Call)
    ensures c.AdvanceUpdate? || c.RevertUpdate? || c.Done? ==> Step(w, c).1.Done?
  {
    hide Genuine;
  }

  // ----- Every version in use is a verified manifest -----

  ghost predicate CallVerified(w: World, c: Call) {
    match c
    case RegPublish(v, _, m) => Verified(w, v) && w.manifests[v] == m
    case RegCheck(v, _) => Verified(w, v)
    case RegSetActive(v, _) => Verified(w, v)
    case RegPublishActive(v, _) => Verified(w, v)
    case CreateActive(_, _, v) => v == "" || Verified(w, v)
    case CreateRunning(_, _, v, stable) => (v == "" || Verified(w, v)) && Verified(w, stable)
    case CreateInsert(_, _, v, stable) => (v == "" || Verified(w, v)) && Verified(w, stable)
    case AdvanceActivate(_, row) => RowVerified(w, row)
    case AdvancePublishActive(_, row) => RowVerified(w, row)
    case AdvancePublish(_, row, _) => RowVerified(w, row)
    case AdvanceUpdate(_, row, _) => RowVerified(w, row)
    case RevertPublish(_, row, _) => RowVerified(w, row)
    case RevertUpdate(_, row, _) => RowVerified(w, row)
    case _ => true
  }

  ghost predicate RowVerified(w: World, r: Rollout) {
    Verified(w, r.versionId) && Verified(w, r.stableVersionId)
  }

  ghost predicate EnvelopeVerified(w: World, e: ActiveEnvelope) {
    Verified(w, e.stable) && (e.canary == "" || Verified(w, e.canary))
  }

  ghost predicate WorldVerified(w: World) {
    && (forall ref | ref in w.active :: Verified(w, w.active[ref]))
    && (forall ref | ref in w.envelopes :: EnvelopeVerified(w, w.envelopes[ref]))
    && (forall id | id in w.rollouts :: RowVerified(w, w.rollouts[id]))
    && (forall k | k in w.etcdManifests :: Verified(w, k.1) && w.manifests[k.1] == w.etcdManifests[k])
  }

  ghost predicate CallsVerified(s: System) {
    forall cid | cid in s.calls :: CallVerified(s.w, s.calls[cid])
  }

  lemma CallVerifiedPersists(w: World, w': World, c: Call)
    requires ManifestsGrow(w, w') && CallVerified(w, c)
    ensures CallVerified(w', c)
  {
    hide Genuine;
  }

  /** If the state and the call only name verified versions, so do the state and the call after one access. */
  lemma StepVerified(w: World, c: Call)
    requires WorldVerified(w) && CallVerified(w, c)
    ensures WorldVerified(Step(w, c).0) && CallVerified(Step(w, c).0, Step(w, c).1)
  {
    if c.RegInsert? {
      RegInsertVerified(w, c);
    } else {
      StepWorldVerified(w, c);
      StepCallVerified(w, c);
    }
  }

  lemma StepWorldVerified(w: World, c: Call)
    requires WorldVerified(w) && CallVerified(w, c) && !c.RegInsert?
    ensures WorldVerified(Step(w, c).0)
  {
    hide Genuine, HasRunning;
    var w' := Step(w, c).0;
    StepFrame(w, c);
    forall v ensures Verified(w', v) == Verified(w, v) {}
    hide Verified;
    if WritesRows(c) {
      assert w'.etcdManifests == w.etcdManifests;
      forall id | id in w'.rollouts ensures RowVerified(w', w'.rollouts[id]) {
        if id in w.rollouts {
          assert RowVerified(w, w.rollouts[id]);
        }
      }
    } else if WritesEnvelope(c) {
      assert w'.etcdManifests == w.etcdManifests;
      forall ref | ref in w'.envelopes ensures EnvelopeVerified(w', w'.envelopes[ref]) {
        if ref in w.envelopes {
          assert EnvelopeVerified(w, w.envelopes[ref]);
        }
      }
    } else if WritesActive(c) {
      assert w'.etcdManifests == w.etcdManifests;
    }
  }

  lemma StepCallVerified(w: World, c: Call)
    requires WorldVerified(w) && CallVerified(w, c) && !c.RegInsert?
    ensures CallVerified(Step(w, c).0, Step(w, c).1)
  {
    hide Genuine, HasRunning, EnvelopeVerified;
    StepFrame(w, c);
  }

  lemma RegInsertVerified(w: World, c: Call)
    requires WorldVerified(w) && c.RegInsert?
    ensures WorldVerified(Step(w, c).0) && CallVerified(Step(w, c).0, Step(w, c).1)
  {
    var (w', c') := Step(w, c);
    if c'.RegPublish? {
      assert Verified(w', c.versionId);
      WorldVerifiedPersists(w, w');
    }
  }

  lemma WorldVerifiedPersists(w: World, w': World)
    requires WorldVerified(w) && ManifestsGrow(w, w')
    requires w'.active == w.active && w'.envelopes == w.envelopes && w'.rollouts == w.rollouts
    requires w'.etcdManifests == w.etcdManifests
    ensures WorldVerified(w')
  {
    hide Genuine;
  }

  // ----- How a version becomes stable -----

  /** The registration that published `v` saw no live version of `ref`. */
  predicate Bootstraps(r: Request, c: Call, ref: ModelRef, v: VersionId) {
    && RegisterTicket(r, v, ref)
    && (c.RegSetActive? || c.RegPublishActive? || c == Done(Registered(v, true)))
  }

  ghost predicate ReachedCanary50(h: seq<Entry>, ref: ModelRef, v: VersionId) {
    exists k :: 0 <= k < |h| && h[k].row.modelRef == ref && h[k].row.versionId == v && h[k].row.stage == Canary50
  }

  ghost predicate BootstrapSanction(s: System, ref: ModelRef, v: VersionId) {
    exists cid :: cid in s.calls && cid in s.requests && Bootstraps(s.requests[cid], s.calls[cid], ref, v)
  }

  ghost predicate RolloutSanction(s: System, ref: ModelRef, v: VersionId) {
    exists id :: id in s.hist && ReachedCanary50(s.hist[id], ref, v)
  }

  /** The only two ways a version becomes a model's stable one. */
  ghost predicate Sanctioned(s: System, ref: ModelRef, v: VersionId) {
    BootstrapSanction(s, ref, v) || RolloutSanction(s, ref, v)
  }

  /** The stable version a call has captured, with its model. */
  function Carried(c: Call): Option<(ModelRef, VersionId)> {
    match c
    case CreateRunning(_, ref, _, stable) => Some((ref, stable))
    case CreateInsert(_, ref, _, stable) => Some((ref, stable))
    case AdvanceActivate(_, row) => Some((row.modelRef, row.stableVersionId))
    case AdvancePublishActive(_, row) => Some((row.modelRef, row.stableVersionId))
    case AdvancePublish(_, row, _) => Some((row.modelRef, row.stableVersionId))
    case AdvanceUpdate(_, row, _) => Some((row.modelRef, row.stableVersionId))
    case RevertPublish(_, row, _) => Some((row.modelRef, row.stableVersionId))
    case RevertUpdate(_, row, _) => Some((row.modelRef, row.stableVersionId))
    case _ => None
  }

  ghost predicate CallSanctioned(s: System, c: Call) {
    Carried(c).Some? ==> Sanctioned(s, Carried(c).value.0, Carried(c).value.1)
  }

  ghost predicate StablesSanctioned(s: System) {
    && (forall ref | ref in s.w.active :: Sanctioned(s, ref, s.w.active[ref]))
    && (forall ref | ref in s.w.envelopes :: Sanctioned(s, ref, s.w.envelopes[ref].stable))
    && (forall id | id in s.w.rollouts ::
          Sanctioned(s, s.w.rollouts[id].modelRef, s.w.rollouts[id].stableVersionId))
    && (forall cid | cid in s.calls :: CallSanctioned(s, s.calls[cid]))
  }

  ghost predicate SanctionsGrow(s: System, s': System) {
    forall ref, v | Sanctioned(s, ref, v) :: Sanctioned(s', ref, v)
  }

  lemma AccessSanctions(s: System, cid: nat)
    requires HistoriesOk(s) && ServesOk(s) && cid in s.calls
    requires SnapshotOk(s.hist, s.calls[cid]) && CallVerified(s.w, s.calls[cid])
    ensures SanctionsGrow(s, Apply(s, Access(cid)))
  {
    var s' := Apply(s, Access(cid));
    AccessHistories(s, cid);
    forall ref, v | Sanctioned(s, ref, v) ensures Sanctioned(s', ref, v) {
      if BootstrapSanction(s, ref, v) {
        BootstrapPersists(s, cid, ref, v);
      } else {
        hide Apply, HistoriesOk, ReachedCanary50;
        var id :| id in s.hist && ReachedCanary50(s.hist[id], ref, v);
        ReachedPersists(s.hist[id], s'.hist[id], ref, v);
      }
    }
  }

  lemma ReachedPersists(h: seq<Entry>, h': seq<Entry>, ref: ModelRef, v: VersionId)
    requires h <= h' && ReachedCanary50(h, ref, v)
    ensures ReachedCanary50(h', ref, v)
  {
  }

  lemma BootstrapPersists(s: System, cid: nat, ref: ModelRef, v: VersionId)
    requires ServesOk(s) && cid in s.calls && CallVerified(s.w, s.calls[cid]) && BootstrapSanction(s, ref, v)
    ensures BootstrapSanction(Apply(s, Access(cid)), ref, v)
  {
  }

  lemma CanarySanction(s: System, id: RolloutId, row: Rollout)
    requires Snapshot(s.hist, id, row) && row.stage == Canary50
    ensures Sanctioned(s, row.modelRef, row.versionId)
  {
  }

  lemma AccessStables(s: System, cid: nat)
    requires HistoriesOk(s) && ServesOk(s) && StablesSanctioned(s) && cid in s.calls
    requires SnapshotOk(s.hist, s.calls[cid]) && CallVerified(s.w, s.calls[cid])
    ensures StablesSanctioned(Apply(s, Access(cid)))
  {
    var c, s' := s.calls[cid], Apply(s, Access(cid));
    AccessSanctions(s, cid);
    if c.AdvanceActivate? || c.AdvancePublishActive? {
      CanarySanction(s, c.id, c.row);
    } else if c.RegSetActive? || c.RegPublishActive? {
      assert Serves(s.requests[cid], c);
      assert Bootstraps(s.requests[cid], c, c.modelRef, c.versionId);
      assert Sanctioned(s, c.modelRef, c.versionId);
    }
    StepStables(s, s', cid);
  }

  /** What may become stable at a single access, given that the call's own promotions are sanctioned. */
  lemma StepStables(s: System, s': System, cid: nat)
    requires cid in s.calls && s' == Apply(s, Access(cid))
    requires StablesSanctioned(s) && SanctionsGrow(s, s')
    requires var c := s.calls[cid];
      && (c.AdvanceActivate? || c.AdvancePublishActive? ==> Sanctioned(s, c.row.modelRef, c.row.versionId))
      && (c.RegSetActive? || c.RegPublishActive? ==> Sanctioned(s, c.modelRef, c.versionId))
    ensures StablesSanctioned(s')
  {
    hide Genuine, Sanctioned, Observe, HasRunning;
    StepWorldSanctioned(s, s', cid);
    StepCallSanctioned(s, s', cid);
    forall other | other in s'.calls ensures CallSanctioned(s', s'.calls[other]) {
      if other != cid {
        CallSanctionedPersists(s, s', s.calls[other]);
      }
    }
  }

  lemma StepWorldSanctioned(s: System, s': System, cid: nat)
    requires cid in s.calls && s' == Apply(s, Access(cid))
    requires StablesSanctioned(s) && SanctionsGrow(s, s')
    requires var c := s.calls[cid];
      && (c.AdvanceActivate? || c.AdvancePublishActive? ==> Sanctioned(s, c.row.modelRef, c.row.versionId))
      && (c.RegSetActive? || c.RegPublishActive? ==> Sanctioned(s, c.modelRef, c.versionId))
    ensures forall ref | ref in s'.w.active :: Sanctioned(s', ref, s'.w.active[ref])
    ensures forall ref | ref in s'.w.envelopes :: Sanctioned(s', ref, s'.w.envelopes[ref].stable)
    ensures forall id | id in s'.w.rollouts ::
              Sanctioned(s', s'.w.rollouts[id].modelRef, s'.w.rollouts[id].stableVersionId)
  {
    hide Genuine, Sanctioned, Observe, HasRunning;
    var c := s.calls[cid];
    assert CallSanctioned(s, c);
    StepFrame(s.w, c);
    StepInserts(s.w, c);
    assert s'.w == Step(s.w, c).0;
    hide Apply, Step, Lookup;
    forall id | id in s'.w.rollouts
      ensures Sanctioned(s', s'.w.rollouts[id].modelRef, s'.w.rollouts[id].stableVersionId)
    {
      if id in s.w.rollouts {
        assert Sanctioned(s, s.w.rollouts[id].modelRef, s.w.rollouts[id].stableVersionId);
      }
    }
  }

  /** A row present before keeps its identity columns; a new one carries the values its call captured. */
  lemma StepInserts(w: World, c: Call)
    ensures var w' := Step(w, c).0; forall id | id in w'.rollouts ::
      if id in w.rollouts then SameIdentity(w.rollouts[id], w'.rollouts[id])
      else c.CreateInsert? && w'.rollouts[id] == Inserted(w, c.modelRef, c.versionId, c.stable)
  {
  }

  lemma StepCallSanctioned(s: System, s': System, cid: nat)
    requires cid in s.calls && s' == Apply(s, Access(cid)) && StablesSanctioned(s) && SanctionsGrow(s, s')
    ensures CallSanctioned(s', s'.calls[cid])
  {
    AccessUnfold(s, cid);
    StepCarried(s.w, s.calls[cid]);
    hide Sanctioned, Apply, Step, Carried;
    assert CallSanctioned(s, s.calls[cid]);
  }

  /** A call captures a stable version only from the active pointer or from a rollout row. */
  lemma StepCarried(w: World, c: Call)
    ensures var carried := Carried(Step(w, c).1);
      || carried.None?
      || carried == Carried(c)
      || (carried.value.0 in w.active && w.active[carried.value.0] == carried.value.1)
      || exists id :: id in w.rollouts
           && w.rollouts[id].modelRef == carried.value.0 && w.rollouts[id].stableVersionId == carried.value.1
  {
  }

  lemma CallSanctionedPersists(s: System, s': System, c: Call)
    requires SanctionsGrow(s, s') && CallSanctioned(s, c)
    ensures CallSanctioned(s', c)
  {
    hide Sanctioned;
  }

  // ----- etcd never runs more than one stage ahead of the row -----

  function StageOfPercent(p: nat): Stage {
    if p == 1 then Canary1 else if p == 10 then Canary10 else if p == 50 then Canary50 else Pending
  }

  /** `r` justifies the canary half of `e`: right versions, and recorded at least up to the stage before. */
  predicate Backs(r: Rollout, ref: ModelRef, e: ActiveEnvelope) {
    && r.modelRef == ref && r.versionId == e.canary && r.stableVersionId == e.stable
    && Rank(r.stage) + 1 >= Rank(StageOfPercent(e.percent))
  }

  ghost predicate EnvelopeOk(w: World, ref: ModelRef, e: ActiveEnvelope) {
    && (e.percent == 0 || e.percent == 1 || e.percent == 10 || e.percent == 50)
    && (e.percent == 0 <==> e.canary == "")
    && (e.percent > 0 ==> exists id :: id in w.rollouts && Backs(w.rollouts[id], ref, e))
  }

  ghost predicate EnvelopesOk(w: World) {
    forall ref | ref in w.envelopes :: EnvelopeOk(w, ref, w.envelopes[ref])
  }

  ghost predicate RowsAdvance(w: World, w': World) {
    forall id | id in w.rollouts ::
      && id in w'.rollouts && SameIdentity(w.rollouts[id], w'.rollouts[id])
      && Rank(w.rollouts[id].stage) <= Rank(w'.rollouts[id].stage)
  }

  lemma EnvelopePersists(w: World, w': World, ref: ModelRef, e: ActiveEnvelope)
    requires RowsAdvance(w, w') && EnvelopeOk(w, ref, e)
    ensures EnvelopeOk(w', ref, e)
  {
  }

  lemma AccessRowsAdvance(s: System, cid: nat)
    requires HistoriesOk(s) && cid in s.calls && SnapshotOk(s.hist, s.calls[cid])
    ensures RowsAdvance(s.w, Apply(s, Access(cid)).w)
  {
    hide Apply, Step, IsHistory, SnapshotOk;
    AccessHist(s, cid);
  }

  lemma SnapshotBehind(s: System, id: RolloutId, row: Rollout)
    requires HistoriesOk(s) && Snapshot(s.hist, id, row)
    ensures SameIdentity(row, s.w.rollouts[id]) && Rank(row.stage) <= Rank(s.w.rollouts[id].stage)
    ensures row.versionId != ""
  {
    var h := s.hist[id];
    var k :| 0 <= k < |h| && h[k].row == row;
    assert IsHistory(h);
    HistoryShape(h);
    assert SameIdentity(h[k].row, h[0].row) && SameIdentity(h[|h| - 1].row, h[0].row);
    assert forall i | 0 <= i < 5 :: Rank(STAGE_ORDER[i]) == i;
  }

  lemma AccessEnvelopes(s: System, cid: nat)
    requires HistoriesOk(s) && EnvelopesOk(s.w) && cid in s.calls && SnapshotOk(s.hist, s.calls[cid])
    ensures EnvelopesOk(Apply(s, Access(cid)).w)
  {
    var c, s' := s.calls[cid], Apply(s, Access(cid));
    AccessRowsAdvance(s, cid);
    StepFrame(s.w, c);
    if c.AdvancePublish? {
      SnapshotBehind(s, c.id, c.row);
      PublishBacked(s.w, c);
    }
    hide Genuine, Observe, RowsAdvance, EnvelopeOk, SnapshotOk, IsHistory;
    forall ref | ref in s'.w.envelopes ensures EnvelopeOk(s'.w, ref, s'.w.envelopes[ref]) {
      if ref in s.w.envelopes && s'.w.envelopes[ref] == s.w.envelopes[ref] {
        EnvelopePersists(s.w, s'.w, ref, s.w.envelopes[ref]);
      } else if !c.AdvancePublish? {
        StableOnlyOk(s'.w, ref, s'.w.envelopes[ref].stable);
      }
    }
  }

  lemma StableOnlyOk(w: World, ref: ModelRef, v: VersionId)
    ensures EnvelopeOk(w, ref, StableOnly(v))
  {
  }

  lemma PublishBacked(w: World, c: Call)
    requires c.AdvancePublish? && Next(c.row.stage) == Some(c.next) && c.next != Stable
    requires c.id in w.rollouts && SameIdentity(c.row, w.rollouts[c.id]) && c.row.versionId != ""
    requires Rank(c.row.stage) <= Rank(w.rollouts[c.id].stage)
    ensures EnvelopeOk(Step(w, c).0, c.row.modelRef, Step(w, c).0.envelopes[c.row.modelRef])
  {
  }

  // ----- Every run -----

  ghost predicate Inv(s: System) {
    && HistoriesOk(s) && SnapshotsOk(s) && ServesOk(s) && WritersOk(s)
    && WorldVerified(s.w) && CallsVerified(s) && StablesSanctioned(s) && EnvelopesOk(s.w)
  }

  lemma InvCall(s: System, cid: nat)
    requires Inv(s) && cid in s.calls
    ensures cid in s.requests && Serves(s.requests[cid], s.calls[cid])
    ensures SnapshotOk(s.hist, s.calls[cid]) && CallVerified(s.w, s.calls[cid])
  {
    hide HistoriesOk, WritersOk, WorldVerified, StablesSanctioned, EnvelopesOk, Serves, SnapshotOk, CallVerified;
  }

  lemma AccessUnfold(s: System, cid: nat)
    requires cid in s.calls
    ensures var s' := Apply(s, Access(cid));
      && s'.w == Step(s.w, s.calls[cid]).0 && s'.calls == s.calls[cid := Step(s.w, s.calls[cid]).1]
      && s'.requests == s.requests
  {
    hide Step;
  }

  lemma AccessServes(s: System, cid: nat)
    requires ServesOk(s) && CallsVerified(s) && WorldVerified(s.w) && cid in s.calls
    ensures ServesOk(Apply(s, Access(cid))) && CallsVerified(Apply(s, Access(cid)))
    ensures WorldVerified(Apply(s, Access(cid)).w)
  {
    var c, s' := s.calls[cid], Apply(s, Access(cid));
    AccessUnfold(s, cid);
    hide Apply, Step, Serves, CallVerified, ManifestsGrow, WorldVerified;
    StepManifests(s.w, c);
    assert CallVerified(s.w, c);
    StepVerified(s.w, c);
    StepServes(s.w, s.requests[cid], c);
    forall other | other in s'.calls ensures CallVerified(s'.w, s'.calls[other]) {
      if other != cid {
        CallVerifiedPersists(s.w, s'.w, s.calls[other]);
      }
    }
  }

  lemma AccessKeepsInv(s: System, cid: nat)
    requires Inv(s) && cid in s.calls
    ensures Inv(Apply(s, Access(cid)))
  {
    InvCall(s, cid);
    hide Apply, Step, HistoriesOk, SnapshotsOk, ServesOk, WritersOk, WorldVerified, CallsVerified;
    hide StablesSanctioned, EnvelopesOk, CallVerified, Serves, SnapshotOk;
    AccessServes(s, cid);
    AccessHistories(s, cid);
    AccessSnapshots(s, cid);
    AccessWriters(s, cid);
    AccessStables(s, cid);
    AccessEnvelopes(s, cid);
  }

  /** `s'` is `s` with more manifests, a later clock or a newly started call. */
  ghost predicate Quiet(s: System, s': System) {
    && s'.hist == s.hist
    && ManifestsGrow(s.w, s'.w)
    && s'.w.active == s.w.active && s'.w.envelopes == s.w.envelopes && s'.w.rollouts == s.w.rollouts
    && s'.w.etcdManifests == s.w.etcdManifests
    && s'.calls.Keys == s'.requests.Keys
    && (forall cid | cid in s.calls :: cid in s'.calls && s'.calls[cid] == s.calls[cid])
    && (forall cid | cid in s.requests :: cid in s'.requests && s'.requests[cid] == s.requests[cid])
    && (forall cid | cid in s'.calls && cid !in s.calls :: s'.calls[cid] == Start(s'.requests[cid]))
  }

  lemma QuietCalls(s: System, s': System)
    requires SnapshotsOk(s) && ServesOk(s) && CallsVerified(s) && Quiet(s, s')
    ensures SnapshotsOk(s') && ServesOk(s') && CallsVerified(s')
  {
    hide Start, Serves, SnapshotOk, CallVerified, ManifestsGrow;
    forall cid | cid in s'.calls
      ensures SnapshotOk(s'.hist, s'.calls[cid]) && Serves(s'.requests[cid], s'.calls[cid])
      ensures CallVerified(s'.w, s'.calls[cid])
    {
      if cid in s.calls {
        CallVerifiedPersists(s.w, s'.w, s.calls[cid]);
      } else {
        StartServes(s'.requests[cid]);
        StartOk(s'.w, s'.hist, s'.requests[cid]);
      }
    }
  }

  lemma StartOk(w: World, hist: map<RolloutId, seq<Entry>>, r: Request)
    ensures SnapshotOk(hist, Start(r)) && CallVerified(w, Start(r))
  {
    hide Verified;
  }

  lemma QuietEnvelopes(w: World, w': World)
    requires EnvelopesOk(w) && w'.envelopes == w.envelopes && w'.rollouts == w.rollouts
    ensures EnvelopesOk(w')
  {
  }

  lemma QuietKeepsInv(s: System, s': System)
    requires Inv(s) && Quiet(s, s')
    ensures Inv(s')
  {
    hide IsHistory, WorldVerified, EnvelopesOk, SnapshotsOk, CallsVerified, ServesOk, WritersOk, StablesSanctioned;
    QuietCalls(s, s');
    WorldVerifiedPersists(s.w, s'.w);
    OldWriters(s, s');
    QuietStables(s, s');
    QuietEnvelopes(s.w, s'.w);
  }

  lemma QuietStables(s: System, s': System)
    requires StablesSanctioned(s)
    requires Quiet(s, s')
    ensures StablesSanctioned(s')
  {
    forall ref, v | Sanctioned(s, ref, v) ensures Sanctioned(s', ref, v) {
      if BootstrapSanction(s, ref, v) {
        var cid :| cid in s.calls && cid in s.requests && Bootstraps(s.requests[cid], s.calls[cid], ref, v);
        assert Bootstraps(s'.requests[cid], s'.calls[cid], ref, v);
      }
    }
    hide Sanctioned;
    forall cid | cid in s'.calls ensures CallSanctioned(s', s'.calls[cid]) {
      if cid in s.calls {
        CallSanctionedPersists(s, s', s.calls[cid]);
      }
    }
  }

  lemma QuietApply(s: System, a: Action)
    requires s.calls.Keys == s.requests.Keys && !a.Access?
    ensures Quiet(s, Apply(s, a))
  {
    hide Start;
  }

  lemma ApplyKeepsInv(s: System, a: Action)
    requires Inv(s)
    ensures Inv(Apply(s, a))
  {
    assert s.calls.Keys == s.requests.Keys by {
      assert ServesOk(s);
    }
    hide Inv, Start, Step, Observe, Quiet;
    if !a.Access? {
      QuietApply(s, a);
      QuietKeepsInv(s, Apply(s, a));
    } else if a.cid in s.calls {
      AccessKeepsInv(s, a.cid);
    }
  }

  lemma {:induction false} RunKeepsInv(actions: seq<Action>)
    ensures Inv(Run(INITIAL, actions))
  {
    hide Inv;
    if actions == [] {
      InitialInv();
    } else {
      RunKeepsInv(actions[..|actions| - 1]);
      ApplyKeepsInv(Run(INITIAL, actions[..|actions| - 1]), actions[|actions| - 1]);
    }
  }

  lemma InitialInv()
    ensures Inv(INITIAL)
  {
  }
}
