/** The two etcd-fed manifest caches: data-plane's, which routes requests, and edge-gateway's, which lists models. */
module Caches {
  import opened Prelude
  import opened Keys

  // ----- What arrives from etcd -----

  /** A manifest's spec text together with what its worker_ref field reads as, if it is usable JSON. */
  datatype Spec = Spec(text: string, workerRef: Option<string>)

  const NO_SPEC := Spec("", None)

  /** A raw value: either not JSON, or a JSON object with the fields it has. `text` is the bytes as they are. */
  datatype Value =
    | Text(text: string)
    | Doc(text: string,
          versionId: Option<string>, modelRef: Option<string>, specJson: Option<Spec>, signature: Option<string>,
          stable: Option<string>, canary: Option<string>, percent: Option<int>)

  datatype Manifest = Manifest(versionId: string, modelRef: string, spec: Spec, signature: string)

  datatype ActivePointer = ActivePointer(stable: string, canary: string, percent: int)

  /** `verdict` is what the signature verifier answers for this delivery; a failed verifier call counts as no. */
  datatype Op =
    | Put(key: string, value: Value, verdict: bool)
    | Delete(key: string)
    | RelistStart

  type ManifestId = (string, string)

  // ----- The data-plane cache -----

  /** Missing fields fall back to the key or to empty. */
  function DecodeManifest(value: Value, id: ManifestId): Option<Manifest> {
    match value
    case Text(_) => None
    case Doc(_, v, ref, spec, signature, _, _, _) =>
      Some(Manifest(OrElse(v, id.1), OrElse(ref, id.0), OrElse(spec, NO_SPEC), OrElse(signature, "")))
  }

  function OrElse<T>(o: Option<T>, d: T): T {
    if o.Some? then o.value else d
  }

  /** A value that is not JSON is a bare stable version. */
  function DecodeActive(value: Value): ActivePointer {
    match value
    case Text(text) => ActivePointer(text, "", 0)
    case Doc(_, _, _, _, _, stable, canary, percent) =>
      ActivePointer(OrElse(stable, ""), OrElse(canary, ""), OrElse(percent, 0))
  }

  datatype DataPlane = DataPlane(
    manifests: map<ManifestId, Manifest>,
    active: map<string, ActivePointer>,
    untrusted: set<ManifestId>)

  const EMPTY_DATA_PLANE := DataPlane(map[], map[], {})

  function PutManifest(s: DataPlane, id: ManifestId, value: Value, verdict: bool): DataPlane {
    match DecodeManifest(value, id)
    case None => s
    case Some(m) =>
      if verdict then s.(manifests := s.manifests[id := m], untrusted := s.untrusted - {id})
      else s.(untrusted := s.untrusted + {id})
  }

  /** The manifest entry a deleted key names; with no slash the version part is empty. */
  function DeletedId(key: string): Option<ManifestId> {
    match Strip(key, MANIFESTS_PREFIX)
    case None => None
    case Some(rest) =>
      match SplitAtSlash(rest)
      case Some(id) => Some(id)
      case None => Some((rest, ""))
  }

  function DeletedRef(key: string): Option<string> {
    if MANIFESTS_PREFIX <= key then None else Strip(key, ACTIVE_PREFIX)
  }

  function DataPlaneApply(s: DataPlane, op: Op): DataPlane {
    match op
    case RelistStart => s.(untrusted := {})
    case Put(key, value, verdict) =>
      (match ParseKey(key)
       case ManifestKey(ref, v) => PutManifest(s, (ref, v), value, verdict)
       case ActiveKey(ref) => s.(active := s.active[ref := DecodeActive(value)])
       case OtherKey => s)
    case Delete(key) =>
      match (DeletedId(key), DeletedRef(key))
      case (Some(id), _) => s.(manifests := s.manifests - {id}, untrusted := s.untrusted - {id})
      case (None, Some(ref)) => s.(active := s.active - {ref})
      case (None, None) => s
  }

  function DataPlaneReplay(s: DataPlane, ops: seq<Op>): DataPlane {
    if ops == [] then s else DataPlaneApply(DataPlaneReplay(s, ops[..|ops| - 1]), ops[|ops| - 1])
  }

  // ----- The edge-gateway cache -----

  datatype Edge = Edge(manifests: map<ManifestId, Manifest>, active: map<string, ActivePointer>)

  const EMPTY_EDGE := Edge(map[], map[])

  /** Every signed field is required; otherwise the envelope is malformed. */
  function EdgeDecodeManifest(value: Value): Option<Manifest> {
    if value.Doc? && value.versionId.Some? && value.modelRef.Some? && value.specJson.Some? && value.signature.Some? then
      Some(Manifest(value.versionId.value, value.modelRef.value, value.specJson.value, value.signature.value))
    else None
  }

  predicate FitsI32(p: int) {
    -0x8000_0000 <= p < 0x8000_0000
  }

  /** Anything that is not an envelope with a stable field is taken as a bare version. */
  function EdgeDecodeActive(value: Value): ActivePointer {
    if value.Doc? && value.stable.Some? && FitsI32(OrElse(value.percent, 0)) then
      ActivePointer(value.stable.value, OrElse(value.canary, ""), OrElse(value.percent, 0))
    else ActivePointer(value.text, "", 0)
  }

  function EdgeApply(s: Edge, op: Op): Edge {
    match op
    case RelistStart => s
    case Put(key, value, verdict) =>
      (match ParseKey(key)
       case ManifestKey(ref, v) =>
         (match EdgeDecodeManifest(value)
          case Some(m) => if verdict then s.(manifests := s.manifests[(ref, v) := m]) else s
          case None => s)
       case ActiveKey(ref) => s.(active := s.active[ref := EdgeDecodeActive(value)])
       case OtherKey => s)
    case Delete(key) =>
      match Strip(key, MANIFESTS_PREFIX)
      case Some(rest) =>
        (match SplitAtSlash(rest)
         case Some(id) => s.(manifests := s.manifests - {id})
         case None => s)
      case None =>
        match Strip(key, ACTIVE_PREFIX)
        case Some(ref) => s.(active := s.active - {ref})
        case None => s
  }

  function EdgeReplay(s: Edge, ops: seq<Op>): Edge {
    if ops == [] then s else EdgeApply(EdgeReplay(s, ops[..|ops| - 1]), ops[|ops| - 1])
  }

  /** Model and stable version of every pointer whose manifest is cached. */
  function ListActive(s: Edge): set<(string, string)> {
    set ref | ref in s.active && (ref, s.active[ref].stable) in s.manifests :: (ref, s.active[ref].stable)
  }

  // ----- The caches as objects -----

  function AsPuts(kvs: seq<(string, Value, bool)>): (ops: seq<Op>)
    ensures |ops| == |kvs| && forall i | 0 <= i < |kvs| :: ops[i] == Put(kvs[i].0, kvs[i].1, kvs[i].2)
  {
    seq(|kvs|, i requires 0 <= i < |kvs| => Put(kvs[i].0, kvs[i].1, kvs[i].2))
  }

  class DataPlaneCache {
    var manifests: map<ManifestId, Manifest>
    var active: map<string, ActivePointer>
    var untrusted: set<ManifestId>

    constructor ()
      ensures View() == EMPTY_DATA_PLANE
    {
      manifests, active, untrusted := map[], map[], {};
    }

    ghost function View(): DataPlane
      reads this
    {
      DataPlane(manifests, active, untrusted)
    }

    method HandleManifestKv(ref: string, version: string, value: Value, verdict: bool)
      modifies this
      ensures View() == PutManifest(old(View()), (ref, version), value, verdict)
    {
      if value.Text? {
        return;
      }
      var m := Manifest(OrElse(value.versionId, version), OrElse(value.modelRef, ref),
                        OrElse(value.specJson, NO_SPEC), OrElse(value.signature, ""));
      if !verdict {
        untrusted := untrusted + {(ref, version)};
        return;
      }
      untrusted := untrusted - {(ref, version)};
      manifests := manifests[(ref, version) := m];
    }

    method HandlePut(key: string, value: Value, verdict: bool)
      modifies this
      ensures View() == DataPlaneApply(old(View()), Put(key, value, verdict))
    {
      match ParseKey(key)
      case ManifestKey(ref, version) => HandleManifestKv(ref, version, value, verdict);
      case ActiveKey(ref) => active := active[ref := DecodeActive(value)];
      case OtherKey =>
    }

    method HandleDelete(key: string)
      modifies this
      ensures View() == DataPlaneApply(old(View()), Delete(key))
    {
      if MANIFESTS_PREFIX <= key {
        var rest := key[|MANIFESTS_PREFIX|..];
        var split := SplitAtSlash(rest);
        var id := if split.Some? then split.value else (rest, "");
        manifests := manifests - {id};
        untrusted := untrusted - {id};
      } else if ACTIVE_PREFIX <= key {
        active := active - {key[|ACTIVE_PREFIX|..]};
      }
    }

    /** A full re-list: the untrusted set is rebuilt, cached manifests stay. */
    method SyncOnce(kvs: seq<(string, Value, bool)>)
      modifies this
      ensures View() == DataPlaneReplay(old(View()), [RelistStart] + AsPuts(kvs))
    {
      untrusted := {};
      ghost var ops := [RelistStart] + AsPuts(kvs);
      assert ops[..1] == [RelistStart] && ops[..0] == [];
      var i := 0;
      while i < |kvs|
        invariant 0 <= i <= |kvs|
        invariant View() == DataPlaneReplay(old(View()), ops[..i + 1])
      {
        assert ops[..i + 2][..i + 1] == ops[..i + 1];
        HandlePut(kvs[i].0, kvs[i].1, kvs[i].2);
        i := i + 1;
      }
      assert ops[..|ops|] == ops;
    }
  }

  class EdgeCache {
    var manifests: map<ManifestId, Manifest>
    var active: map<string, ActivePointer>

    constructor ()
      ensures View() == EMPTY_EDGE
    {
      manifests, active := map[], map[];
    }

    ghost function View(): Edge
      reads this
    {
      Edge(manifests, active)
    }

    method DispatchKv(key: string, value: Value, verdict: bool)
      modifies this
      ensures View() == EdgeApply(old(View()), Put(key, value, verdict))
    {
      match ParseKey(key)
      case ManifestKey(ref, version) =>
        var decoded := EdgeDecodeManifest(value);
        if decoded.Some? && verdict {
          manifests := manifests[(ref, version) := decoded.value];
        }
      case ActiveKey(ref) => active := active[ref := EdgeDecodeActive(value)];
      case OtherKey =>
    }

    method HandleDelete(key: string)
      modifies this
      ensures View() == EdgeApply(old(View()), Delete(key))
    {
      if MANIFESTS_PREFIX <= key {
        var split := SplitAtSlash(key[|MANIFESTS_PREFIX|..]);
        if split.Some? {
          manifests := manifests - {split.value};
        }
      } else if ACTIVE_PREFIX <= key {
        active := active - {key[|ACTIVE_PREFIX|..]};
      }
    }

    method SyncOnce(kvs: seq<(string, Value, bool)>)
      modifies this
      ensures View() == EdgeReplay(old(View()), [RelistStart] + AsPuts(kvs))
    {
      ghost var ops := [RelistStart] + AsPuts(kvs);
      assert ops[..1] == [RelistStart] && ops[..0] == [];
      var i := 0;
      while i < |kvs|
        invariant 0 <= i <= |kvs|
        invariant View() == EdgeReplay(old(View()), ops[..i + 1])
      {
        assert ops[..i + 2][..i + 1] == ops[..i + 1];
        DispatchKv(kvs[i].0, kvs[i].1, kvs[i].2);
        i := i + 1;
      }
      assert ops[..|ops|] == ops;
    }
  }

  // ----- The data-plane cache is the replay of what verified -----

  predicate DeliversManifest(op: Op, id: ManifestId) {
    op.Put? && ParseKey(op.key) == ManifestKey(id.0, id.1) && op.value.Doc?
  }

  predicate Trusts(op: Op, id: ManifestId) {
    DeliversManifest(op, id) && op.verdict
  }

  predicate Distrusts(op: Op, id: ManifestId) {
    DeliversManifest(op, id) && !op.verdict
  }

  predicate Deletes(op: Op, id: ManifestId) {
    op.Delete? && DeletedId(op.key) == Some(id)
  }

  /** Delivery `i` is the last trusted one of `id`, and no deletion came after it. */
  ghost predicate LastTrusted(ops: seq<Op>, id: ManifestId, i: nat) {
    && i < |ops| && Trusts(ops[i], id)
    && forall j | i < j < |ops| :: !Trusts(ops[j], id) && !Deletes(ops[j], id)
  }

  /** Delivery `i` failed and nothing after it decided about `id` again. */
  ghost predicate LastDistrusted(ops: seq<Op>, id: ManifestId, i: nat) {
    && i < |ops| && Distrusts(ops[i], id)
    && forall j | i < j < |ops| :: !DeliversManifest(ops[j], id) && !Deletes(ops[j], id) && !ops[j].RelistStart?
  }

  /** The pointer of `ref` was last set by delivery `i` and not deleted since. */
  ghost predicate LastPointer(ops: seq<Op>, ref: string, i: nat) {
    && i < |ops| && SetsPointer(ops[i], ref)
    && forall j | i < j < |ops| ::
         !SetsPointer(ops[j], ref) && !DropsPointer(ops[j], ref)
  }

  ghost predicate EverTrusted(ops: seq<Op>, id: ManifestId) {
    exists i: nat :: LastTrusted(ops, id, i)
  }

  ghost predicate EndsDistrusted(ops: seq<Op>, id: ManifestId) {
    exists i: nat :: LastDistrusted(ops, id, i)
  }

  lemma TrustedSnoc(ops: seq<Op>, id: ManifestId, i: nat)
    requires ops != []
    ensures var front, op := ops[..|ops| - 1], ops[|ops| - 1];
      LastTrusted(ops, id, i) <==>
        (if i == |ops| - 1 then Trusts(op, id) else LastTrusted(front, id, i) && !Trusts(op, id) && !Deletes(op, id))
  {
    hide Trusts, Deletes;
    var front := ops[..|ops| - 1];
    assert forall j | 0 <= j < |front| :: front[j] == ops[j];
  }

  lemma DistrustedSnoc(ops: seq<Op>, id: ManifestId, i: nat)
    requires ops != []
    ensures var front, op := ops[..|ops| - 1], ops[|ops| - 1];
      LastDistrusted(ops, id, i) <==>
        (if i == |ops| - 1 then Distrusts(op, id)
         else LastDistrusted(front, id, i) && !DeliversManifest(op, id) && !Deletes(op, id) && !op.RelistStart?)
  {
    hide DeliversManifest, Distrusts, Deletes;
    var front := ops[..|ops| - 1];
    assert forall j | 0 <= j < |front| :: front[j] == ops[j];
  }

  lemma EndsDistrustedSnoc(ops: seq<Op>, id: ManifestId)
    requires ops != []
    ensures var front, op := ops[..|ops| - 1], ops[|ops| - 1];
      EndsDistrusted(ops, id) <==>
        (Distrusts(op, id)
         || (EndsDistrusted(front, id) && !DeliversManifest(op, id) && !Deletes(op, id) && !op.RelistStart?))
  {
    var front, op := ops[..|ops| - 1], ops[|ops| - 1];
    if EndsDistrusted(ops, id) {
      var i: nat :| LastDistrusted(ops, id, i);
      DistrustedSnoc(ops, id, i);
    }
    DistrustedSnoc(ops, id, |ops| - 1);
    if EndsDistrusted(front, id) {
      var i: nat :| LastDistrusted(front, id, i);
      DistrustedSnoc(ops, id, i);
    }
  }

  lemma EverTrustedSnoc(ops: seq<Op>, id: ManifestId)
    requires ops != []
    ensures var front, op := ops[..|ops| - 1], ops[|ops| - 1];
      EverTrusted(ops, id) <==> Trusts(op, id) || (EverTrusted(front, id) && !Deletes(op, id))
  {
    var front, op := ops[..|ops| - 1], ops[|ops| - 1];
    if EverTrusted(ops, id) {
      var i: nat :| LastTrusted(ops, id, i);
      TrustedSnoc(ops, id, i);
    }
    TrustedSnoc(ops, id, |ops| - 1);
    if EverTrusted(front, id) {
      var i: nat :| LastTrusted(front, id, i);
      TrustedSnoc(ops, id, i);
    }
  }

  lemma ApplyManifest(s: DataPlane, op: Op, id: ManifestId)
    ensures var s' := DataPlaneApply(s, op);
      && (id in s'.manifests <==> Trusts(op, id) || (id in s.manifests && !Deletes(op, id)))
      && (Trusts(op, id) ==> id in s'.manifests && Some(s'.manifests[id]) == DecodeManifest(op.value, id))
      && (id in s'.manifests && !Trusts(op, id) ==> s'.manifests[id] == s.manifests[id])
      && (id in s'.untrusted <==>
            (Distrusts(op, id)
             || (id in s.untrusted && !DeliversManifest(op, id) && !Deletes(op, id) && !op.RelistStart?)))
  {
    hide SplitAtSlash, Strip;
  }

  /** A manifest is cached for `id` exactly when some delivery of `id` verified and was not deleted since. */
  lemma {:induction false} CachedIffVerified(ops: seq<Op>, id: ManifestId)
    ensures id in DataPlaneReplay(EMPTY_DATA_PLANE, ops).manifests <==> EverTrusted(ops, id)
  {
    hide DataPlaneApply, EverTrusted, Trusts, Deletes;
    if ops == [] {
      NothingTrusted(id);
    } else {
      CachedIffVerified(ops[..|ops| - 1], id);
      EverTrustedSnoc(ops, id);
      ApplyManifest(DataPlaneReplay(EMPTY_DATA_PLANE, ops[..|ops| - 1]), ops[|ops| - 1], id);
    }
  }

  lemma NothingTrusted(id: ManifestId)
    ensures !EverTrusted([], id) && !EndsDistrusted([], id)
  {
  }

  /** The cached manifest is the last verified delivery's: failed deliveries neither replace nor remove it. */
  lemma {:induction false} CachedIsLastVerified(ops: seq<Op>, id: ManifestId, i: nat)
    requires LastTrusted(ops, id, i)
    ensures var s := DataPlaneReplay(EMPTY_DATA_PLANE, ops);
      id in s.manifests && Some(s.manifests[id]) == DecodeManifest(ops[i].value, id)
  {
    assert i < |ops|;
    TrustedSnoc(ops, id, i);
    hide DataPlaneApply, LastTrusted, Trusts, Deletes, DecodeManifest;
    ApplyManifest(DataPlaneReplay(EMPTY_DATA_PLANE, ops[..|ops| - 1]), ops[|ops| - 1], id);
    if i < |ops| - 1 {
      CachedIsLastVerified(ops[..|ops| - 1], id, i);
    }
  }

  /** The degraded set is exactly the ids whose last decision since the last re-list start was a failure. */
  lemma {:induction false} UntrustedIffLastFailed(ops: seq<Op>, id: ManifestId)
    ensures id in DataPlaneReplay(EMPTY_DATA_PLANE, ops).untrusted <==> EndsDistrusted(ops, id)
  {
    hide DataPlaneApply, EndsDistrusted, Distrusts, DeliversManifest, Deletes;
    if ops == [] {
      NothingTrusted(id);
    } else {
      UntrustedIffLastFailed(ops[..|ops| - 1], id);
      EndsDistrustedSnoc(ops, id);
      ApplyManifest(DataPlaneReplay(EMPTY_DATA_PLANE, ops[..|ops| - 1]), ops[|ops| - 1], id);
    }
  }

  /** The pointer of a model is its last delivered value, unless deleted since. */
  lemma {:induction false} PointerIsLastDelivered(ops: seq<Op>, ref: string, i: nat)
    requires LastPointer(ops, ref, i)
    ensures var s := DataPlaneReplay(EMPTY_DATA_PLANE, ops);
      ref in s.active && s.active[ref] == DecodeActive(ops[i].value)
  {
    hide SplitAtSlash, Strip;
    var front := ops[..|ops| - 1];
    if i < |front| {
      assert forall j | 0 <= j < |front| :: front[j] == ops[j];
      PointerIsLastDelivered(front, ref, i);
    }
  }

  predicate SetsPointer(op: Op, ref: string) {
    op.Put? && ParseKey(op.key) == ActiveKey(ref)
  }

  predicate DropsPointer(op: Op, ref: string) {
    op.Delete? && DeletedRef(op.key) == Some(ref)
  }

  /** And a model has a pointer only if some delivery of it survives. */
  lemma {:induction false} PointerIffDelivered(ops: seq<Op>, ref: string)
    ensures ref in DataPlaneReplay(EMPTY_DATA_PLANE, ops).active <==> exists i: nat :: LastPointer(ops, ref, i)
  {
    if ops != [] {
      var front, op := ops[..|ops| - 1], ops[|ops| - 1];
      PointerIffDelivered(front, ref);
      ApplyPointer(DataPlaneReplay(EMPTY_DATA_PLANE, front), op, ref);
      hide DataPlaneApply;
      PointerSnoc(ops, ref, |ops| - 1);
      if i: nat :| LastPointer(ops, ref, i) {
        PointerSnoc(ops, ref, i);
      }
      if i: nat :| LastPointer(front, ref, i) {
        PointerSnoc(ops, ref, i);
      }
      hide LastPointer, SetsPointer, DropsPointer;
    }
  }

  lemma ApplyPointer(s: DataPlane, op: Op, ref: string)
    ensures ref in DataPlaneApply(s, op).active <==>
      SetsPointer(op, ref) || (ref in s.active && !DropsPointer(op, ref))
  {
    hide SplitAtSlash;
  }

  lemma PointerSnoc(ops: seq<Op>, ref: string, i: nat)
    requires ops != []
    ensures var front, op := ops[..|ops| - 1], ops[|ops| - 1];
      LastPointer(ops, ref, i) <==>
        (if i == |ops| - 1 then SetsPointer(op, ref)
         else LastPointer(front, ref, i) && !SetsPointer(op, ref) && !DropsPointer(op, ref))
  {
  }

  // ----- Manifests found under another name -----

  function SignedName(m: Manifest): ManifestId {
    (m.modelRef, m.versionId)
  }

  /** The document carries no other name than the one its key gives it. */
  predicate NamedByKey(value: Value, id: ManifestId) {
    value.Doc? && (value.modelRef.None? || value.modelRef.value == id.0)
    && (value.versionId.None? || value.versionId.value == id.1)
  }

  /**
   The signature covers the names inside the document, the cache files it under its key: every cached manifest
   is signed for the model and version it is served as exactly when every last verified document agrees with
   its key.
   */
  lemma ServedAsSignedIff(ops: seq<Op>)
    ensures (var s := DataPlaneReplay(EMPTY_DATA_PLANE, ops);
             forall id | id in s.manifests :: SignedName(s.manifests[id]) == id)
        <==> (forall id: ManifestId, i: nat | LastTrusted(ops, id, i) :: NamedByKey(ops[i].value, id))
  {
    hide DataPlaneReplay;
    var s := DataPlaneReplay(EMPTY_DATA_PLANE, ops);
    forall id: ManifestId, i: nat | LastTrusted(ops, id, i)
      ensures id in s.manifests && (SignedName(s.manifests[id]) == id <==> NamedByKey(ops[i].value, id))
    {
      NamedIff(ops, id, i);
    }
    hide LastTrusted, NamedByKey, SignedName;
    forall id | id in s.manifests ensures EverTrusted(ops, id) {
      CachedIffVerified(ops, id);
    }
  }

  lemma NamedIff(ops: seq<Op>, id: ManifestId, i: nat)
    requires LastTrusted(ops, id, i)
    ensures var s := DataPlaneReplay(EMPTY_DATA_PLANE, ops);
      id in s.manifests && (SignedName(s.manifests[id]) == id <==> NamedByKey(ops[i].value, id))
  {
    CachedIsLastVerified(ops, id, i);
    assert Trusts(ops[i], id);
    hide DataPlaneReplay, LastTrusted;
  }

  /** A re-list in which every well-formed manifest verifies leaves nothing degraded, whatever came before. */
  lemma {:induction false} CleanRelistHeals(s: DataPlane, kvs: seq<(string, Value, bool)>)
    requires forall i | 0 <= i < |kvs| && ParseKey(kvs[i].0).ManifestKey? && kvs[i].1.Doc? :: kvs[i].2
    ensures DataPlaneReplay(s, [RelistStart] + AsPuts(kvs)).untrusted == {}
  {
    hide ParseKey;
    var ops := [RelistStart] + AsPuts(kvs);
    if kvs == [] {
      assert ops == [RelistStart] && ops[..0] == [];
    } else {
      var front := kvs[..|kvs| - 1];
      CleanRelistHeals(s, front);
      assert ops[..|ops| - 1] == [RelistStart] + AsPuts(front);
    }
  }

  // ----- The edge cache -----

  /** A verified manifest document with every signed field; the edge ignores any other. */
  predicate EdgeTrusts(op: Op, id: ManifestId) {
    && Trusts(op, id)
    && op.value.versionId.Some? && op.value.modelRef.Some? && op.value.specJson.Some? && op.value.signature.Some?
  }

  ghost predicate LastEdgeTrusted(ops: seq<Op>, id: ManifestId, i: nat) {
    && i < |ops| && EdgeTrusts(ops[i], id)
    && forall j | i < j < |ops| :: !EdgeTrusts(ops[j], id) && !Deletes(ops[j], id)
  }

  /** The cached manifest has exactly the document's fields. */
  predicate HasFields(m: Manifest, value: Value) {
    && value.Doc? && value.versionId == Some(m.versionId) && value.modelRef == Some(m.modelRef)
    && value.specJson == Some(m.spec) && value.signature == Some(m.signature)
  }

  /**
   The edge caches a manifest iff some complete delivery of it verified and was not deleted since, and it is the
   last such: failed and incomplete deliveries neither replace nor remove it.
   */
  lemma {:induction false} EdgeCachedIff(ops: seq<Op>, id: ManifestId)
    ensures var s := EdgeReplay(EMPTY_EDGE, ops);
      && (id in s.manifests <==> exists i: nat :: LastEdgeTrusted(ops, id, i))
      && (forall i: nat | LastEdgeTrusted(ops, id, i) :: id in s.manifests && HasFields(s.manifests[id], ops[i].value))
  {
    if ops != [] {
      var front, op := ops[..|ops| - 1], ops[|ops| - 1];
      EdgeCachedIff(front, id);
      EdgeNamed(front);
      ApplyEdge(EdgeReplay(EMPTY_EDGE, front), op, id);
      hide EdgeApply, EdgeTrusts, Deletes, HasFields;
      forall i: nat ensures LastEdgeTrusted(ops, id, i) <==>
        (if i == |front| then EdgeTrusts(op, id)
         else LastEdgeTrusted(front, id, i) && !EdgeTrusts(op, id) && !Deletes(op, id))
      {
        EdgeTrustedSnoc(ops, id, i);
      }
      assert forall i: nat | i < |front| :: front[i] == ops[i];
      if i: nat :| LastEdgeTrusted(front, id, i) {
        assert LastEdgeTrusted(ops, id, i) <==> !EdgeTrusts(op, id) && !Deletes(op, id);
      }
      assert LastEdgeTrusted(ops, id, |front|) <==> EdgeTrusts(op, id);
    }
  }

  lemma EdgeTrustedSnoc(ops: seq<Op>, id: ManifestId, i: nat)
    requires ops != []
    ensures var front, op := ops[..|ops| - 1], ops[|ops| - 1];
      LastEdgeTrusted(ops, id, i) <==>
        (if i == |front| then EdgeTrusts(op, id)
         else LastEdgeTrusted(front, id, i) && !EdgeTrusts(op, id) && !Deletes(op, id))
  {
    hide EdgeTrusts, Deletes;
    var front := ops[..|ops| - 1];
    assert forall j | 0 <= j < |front| :: front[j] == ops[j];
  }

  lemma {:induction false} EdgeNamed(ops: seq<Op>)
    ensures forall id | id in EdgeReplay(EMPTY_EDGE, ops).manifests :: id.1 != ""
  {
    if ops != [] {
      EdgeNamed(ops[..|ops| - 1]);
      hide SplitAtSlash, Strip;
    }
  }

  lemma ApplyEdge(s: Edge, op: Op, id: ManifestId)
    requires forall other | other in s.manifests :: other.1 != ""
    ensures var s' := EdgeApply(s, op);
      && (id in s'.manifests <==> EdgeTrusts(op, id) || (id in s.manifests && !Deletes(op, id)))
      && (EdgeTrusts(op, id) ==> id in s'.manifests && HasFields(s'.manifests[id], op.value))
      && (id in s'.manifests && !EdgeTrusts(op, id) ==> s'.manifests[id] == s.manifests[id])
  {
  }

  /** The edge's pointer of a model is the stable version last delivered and not dropped since. */
  lemma {:induction false} EdgePointerIsLast(ops: seq<Op>, ref: string, i: nat)
    requires LastPointer(ops, ref, i)
    ensures var s := EdgeReplay(EMPTY_EDGE, ops);
      && ref in s.active
      && s.active[ref].stable ==
         if ops[i].value.Doc? && ops[i].value.stable.Some?
            && (ops[i].value.percent.Some? ==> FitsI32(ops[i].value.percent.value))
         then ops[i].value.stable.value else ops[i].value.text
  {
    hide SplitAtSlash;
    var front := ops[..|ops| - 1];
    PointerSnoc(ops, ref, i);
    if i < |front| {
      EdgePointerIsLast(front, ref, i);
    }
  }

  // ----- The two caches agree -----

  /** A delivery both caches read the same way: complete envelopes or bare text, as the publisher writes them. */
  predicate Complete(op: Op) {
    op.Put? && op.value.Doc? ==>
      match ParseKey(op.key)
      case ManifestKey(_, _) => EdgeDecodeManifest(op.value).Some?
      case ActiveKey(_) => op.value.stable.Some? && FitsI32(OrElse(op.value.percent, 0))
      case OtherKey => true
  }

  /** That condition is exact. For a manifest: any missing signed field makes the two caches read it differently. */
  lemma ManifestReadAlikeIff(value: Value, id: ManifestId)
    ensures DecodeManifest(value, id) == EdgeDecodeManifest(value) <==>
      (value.Doc? ==>
         value.versionId.Some? && value.modelRef.Some? && value.specJson.Some? && value.signature.Some?)
  {
  }

  /** For an active pointer: so does a missing stable version, or a percentage outside 32 bits. */
  lemma ActiveReadAlikeIff(value: Value)
    requires value.Doc? ==> value.text != ""
    ensures DecodeActive(value) == EdgeDecodeActive(value) <==>
      (value.Doc? ==> value.stable.Some? && (value.percent.Some? ==> FitsI32(value.percent.value)))
  {
  }

  predicate SameCache(d: DataPlane, e: Edge) {
    d.manifests == e.manifests && d.active == e.active && forall id | id in d.manifests :: id.1 != ""
  }

  lemma ApplyAlike(d: DataPlane, e: Edge, op: Op)
    requires SameCache(d, e) && Complete(op)
    ensures SameCache(DataPlaneApply(d, op), EdgeApply(e, op))
  {
  }

  /** Fed the same deliveries and the same verifier answers, both caches hold the same manifests and pointers. */
  lemma {:induction false} CachesAgree(ops: seq<Op>)
    requires forall i | 0 <= i < |ops| :: Complete(ops[i])
    ensures SameCache(DataPlaneReplay(EMPTY_DATA_PLANE, ops), EdgeReplay(EMPTY_EDGE, ops))
  {
    if ops != [] {
      CachesAgree(ops[..|ops| - 1]);
      hide DataPlaneApply, EdgeApply, SameCache, Complete;
      ApplyAlike(DataPlaneReplay(EMPTY_DATA_PLANE, ops[..|ops| - 1]), EdgeReplay(EMPTY_EDGE, ops[..|ops| - 1]),
                 ops[|ops| - 1]);
    } else {
      assert SameCache(EMPTY_DATA_PLANE, EMPTY_EDGE);
    }
  }

  /** The edge lists a model at a version exactly when data-plane would serve that version as its stable one. */
  lemma ListedIffServable(ops: seq<Op>, ref: string, v: string)
    requires forall i | 0 <= i < |ops| :: Complete(ops[i])
    ensures var d, e := DataPlaneReplay(EMPTY_DATA_PLANE, ops), EdgeReplay(EMPTY_EDGE, ops);
      (ref, v) in ListActive(e) <==> ref in d.active && d.active[ref].stable == v && (ref, v) in d.manifests
  {
    CachesAgree(ops);
    hide DataPlaneReplay, EdgeReplay;
  }
}
