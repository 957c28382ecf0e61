/**
 * The unified interface (`HealthModelIntegration`): it joins a model configuration, a
 * signal catalogue and the health documents the state client returns. The client's
 * answers enter as values: one entity's document, or the snapshot dict that
 * `get_all_entities_health` returns (keyed by the "id" of each item).
 */
module Integration {
  import opened Wrappers
  import opened Dicts
  import opened Json
  import opened Text
  import opened Signals
  import opened ModelConfig
  import opened StateClient

  // ---------------------------------------------------------------------------
  // Health documents as the client produces them
  // ---------------------------------------------------------------------------

  /**
   * A document the integration may call `.get` on: an object whose "details", when
   * present, is an object and whose "state", when present, is a string. Anything else
   * makes the Python code raise AttributeError.
   */
  predicate WellFormedHealth(h: Json) {
    && h.JObj?
    && (Member(h, "details").None? || Member(h, "details").value.JObj?)
    && (Member(h, "state").None? || Member(h, "state").value.JStr?)
  }

  /** The snapshot returned by `get_all_entities_health`: every document is well formed. */
  predicate Snapshot(all: Dict<Json, Json>) {
    forall i :: 0 <= i < |all| ==> WellFormedHealth(all[i].1)
  }

  /** Every document the normaliser produces is well formed, with both `details` and `state` present. */
  lemma NormalizedWellFormed(data: Json, now: string)
    requires NormalizeResponse(data, now).Ok?
    ensures WellFormedHealth(NormalizeResponse(data, now).value)
    ensures var h := NormalizeResponse(data, now).value;
      && Member(h, "details").Some? && Member(h, "details").value.JObj?
      && Member(h, "state").Some? && Member(h, "state").value.JStr?
  {
    NormalizedFields(data, now);
  }

  /** Every snapshot the keying loop builds is one the integration can read. */
  lemma {:induction false} KeyedSnapshot(items: seq<Json>, now: string)
    requires Keyed(items, now).Ok?
    ensures Snapshot(Keyed(items, now).value)
  {
    if |items| > 0 {
      var n := |items| - 1;
      var acc := Keyed(items[..n], now).value;
      var normalized := NormalizeResponse(items[n], now).value;
      KeyedSnapshot(items[..n], now);
      NormalizedWellFormed(items[n], now);
      PutPairs(acc, ItemId(items[n]), normalized);
      var r := Put(acc, ItemId(items[n]), normalized);
      forall i | 0 <= i < |r| ensures WellFormedHealth(r[i].1) {
        assert r[i] in r;
      }
    }
  }

  /** `health.get('details', {})` */
  function Details(h: Json): Json {
    MemberOr(h, "details", JObj([]))
  }

  // ---------------------------------------------------------------------------
  // Entity health (`get_entity_health`)
  // ---------------------------------------------------------------------------

  /**
   * The document with the configured entity's name and type written into it, when the
   * entity is configured.
   */
  function Annotated(health: Json, entity: Option<HealthModelEntity>): (r: Json)
    requires health.JObj?
    ensures r.JObj?
    ensures entity.None? ==> r == health
    ensures entity.Some? ==> Member(r, "entity_name") == Some(JStr(entity.value.name))
    ensures entity.Some? ==> Member(r, "entity_type") == Some(JStr(entity.value.entityType.Value()))
    ensures forall k :: k != "entity_name" && k != "entity_type" ==> Member(r, k) == Member(health, k)
  {
    match entity
    case None => health
    case Some(e) =>
      var named := SetMember(health, "entity_name", JStr(e.name));
      var r := SetMember(named, "entity_type", JStr(e.entityType.Value()));
      SetMemberOther(named, "entity_type", JStr(e.entityType.Value()), "entity_name");
      assert forall k :: k != "entity_name" && k != "entity_type" ==> Member(r, k) == Member(health, k) by {
        forall k | k != "entity_name" && k != "entity_type" ensures Member(r, k) == Member(health, k) {
          SetMemberOther(health, "entity_name", JStr(e.name), k);
          SetMemberOther(named, "entity_type", JStr(e.entityType.Value()), k);
        }
      }
      r
  }

  // ---------------------------------------------------------------------------
  // Workload health (`get_workload_health`)
  // ---------------------------------------------------------------------------

  /** The document of the model's root entity carries this kind in its details. */
  const RootKind: Json := JStr("System_HealthModelRoot")

  predicate IsRoot(h: Json) {
    Member(Details(h), "kind") == Some(RootKind)
  }

  /** What the workload reports when the snapshot is empty. */
  const UnknownHealth: Json :=
    JObj([("state", JStr("Unknown")), ("state_color", JStr("gray")), ("state_code", JStr("UNKNOWN"))])

  /** The position of the first root document in the snapshot, or its length if there is none. */
  function FirstRoot(all: Dict<Json, Json>): (k: nat)
    ensures k <= |all|
    ensures k < |all| ==> IsRoot(all[k].1)
    ensures forall j :: 0 <= j < k ==> !IsRoot(all[j].1)
  {
    if |all| == 0 then 0
    else if IsRoot(all[0].1) then 0
    else 1 + FirstRoot(all[1..])
  }

  /** The document `get_workload_health` returns for a snapshot. */
  function WorkloadHealth(all: Dict<Json, Json>): Json {
    var k := FirstRoot(all);
    if k < |all| then all[k].1
    else if |all| > 0 then all[0].1
    else UnknownHealth
  }

  /**
   * The workload document is a root document exactly when the snapshot holds one, and
   * then it is the first; otherwise it is the first document, or Unknown/gray for an
   * empty snapshot.
   */
  lemma WorkloadHealthChoice(all: Dict<Json, Json>)
    ensures IsRoot(WorkloadHealth(all)) <==> exists i :: 0 <= i < |all| && IsRoot(all[i].1)
    ensures forall i :: 0 <= i < |all| && IsRoot(all[i].1) ==>
      exists k :: 0 <= k <= i && WorkloadHealth(all) == all[k].1 && IsRoot(all[k].1)
    ensures (forall i :: 0 <= i < |all| ==> !IsRoot(all[i].1)) ==>
      WorkloadHealth(all) == if |all| > 0 then all[0].1 else UnknownHealth
  {
    var k := FirstRoot(all);
    if k == |all| && |all| > 0 {
      assert !IsRoot(all[0].1);
    }
    if k == |all| && |all| == 0 {
      assert Details(UnknownHealth) == JObj([]);
    }
  }

  // ---------------------------------------------------------------------------
  // Dependency lists of one entity (`_get_entity_deps`)
  // ---------------------------------------------------------------------------

  datatype DepsInfo = DepsInfo(dependsOn: seq<string>, dependedBy: seq<string>)

  /** The sources of the edges, one per edge, in list order. */
  function SourceIds(es: seq<EntityDependency>): (r: seq<string>)
    ensures |r| == |es|
    ensures forall i :: 0 <= i < |es| ==> r[i] == es[i].sourceEntityId
    ensures forall s :: s in r <==> exists d :: d in es && d.sourceEntityId == s
  {
    var r := seq(|es|, i requires 0 <= i < |es| => es[i].sourceEntityId);
    assert forall i :: 0 <= i < |es| ==> r[i] == es[i].sourceEntityId;
    assert forall s :: s in r ==> exists d :: d in es && d.sourceEntityId == s by {
      forall s | s in r ensures exists d :: d in es && d.sourceEntityId == s {
        var i :| 0 <= i < |r| && r[i] == s;
        assert es[i] in es;
      }
    }
    assert forall d :: d in es ==> d.sourceEntityId in r by {
      forall d | d in es ensures d.sourceEntityId in r {
        var i :| 0 <= i < |es| && es[i] == d;
        assert r[i] == d.sourceEntityId;
      }
    }
    r
  }

  /** The targets of the edges, one per edge, in list order. */
  function TargetIds(es: seq<EntityDependency>): (r: seq<string>)
    ensures |r| == |es|
    ensures forall i :: 0 <= i < |es| ==> r[i] == es[i].targetEntityId
    ensures forall t :: t in r <==> exists d :: d in es && d.targetEntityId == t
  {
    var r := seq(|es|, i requires 0 <= i < |es| => es[i].targetEntityId);
    assert forall i :: 0 <= i < |es| ==> r[i] == es[i].targetEntityId;
    assert forall t :: t in r ==> exists d :: d in es && d.targetEntityId == t by {
      forall t | t in r ensures exists d :: d in es && d.targetEntityId == t {
        var i :| 0 <= i < |r| && r[i] == t;
        assert es[i] in es;
      }
    }
    assert forall d :: d in es ==> d.targetEntityId in r by {
      forall d | d in es ensures d.targetEntityId in r {
        var i :| 0 <= i < |es| && es[i] == d;
        assert r[i] == d.targetEntityId;
      }
    }
    r
  }

  /**
   * What an entity depends on (the sources of the edges into it) and what depends on it
   * (the targets of the edges out of it), one entry per edge, in list order.
   */
  function EntityDeps(deps: seq<EntityDependency>, entityId: string): (r: DepsInfo)
    ensures |r.dependsOn| == |DependenciesOf(deps, entityId)| && |r.dependedBy| == |DependentsOf(deps, entityId)|
    ensures forall i :: 0 <= i < |r.dependsOn| ==> r.dependsOn[i] == DependenciesOf(deps, entityId)[i].sourceEntityId
    ensures forall i :: 0 <= i < |r.dependedBy| ==> r.dependedBy[i] == DependentsOf(deps, entityId)[i].targetEntityId
    ensures forall s :: s in r.dependsOn <==>
      exists d :: d in deps && d.targetEntityId == entityId && d.sourceEntityId == s
    ensures forall t :: t in r.dependedBy <==>
      exists d :: d in deps && d.sourceEntityId == entityId && d.targetEntityId == t
  {
    DepsInfo(SourceIds(DependenciesOf(deps, entityId)), TargetIds(DependentsOf(deps, entityId)))
  }

  // ---------------------------------------------------------------------------
  // Health tree (`get_health_tree`)
  // ---------------------------------------------------------------------------

  datatype TreeNode = TreeNode(
    name: string,
    entityType: string,
    state: Json,
    stateColor: Json,
    timestamp: Json,
    parent: Option<string>,
    signals: Dict<string, string>,
    dependencies: DepsInfo)

  /** `all_health.get(entity_id, {})`: the snapshot is keyed by the items' ids. */
  function HealthOf(all: Dict<Json, Json>, entityId: string): Json {
    Get(all, JStr(entityId)).GetOr(JObj([]))
  }

  /** The node of one configured entity. */
  function NodeFor(entityId: string, e: HealthModelEntity, deps: seq<EntityDependency>, all: Dict<Json, Json>): TreeNode {
    var health := HealthOf(all, entityId);
    TreeNode(e.name, e.entityType.Value(),
      MemberOr(health, "state", JStr(Unknown.Value())),
      MemberOr(health, "state_color", JStr("gray")),
      MemberOr(health, "timestamp", JNull),
      e.parentEntityId, e.signals, EntityDeps(deps, entityId))
  }

  /** The tree: one node per configured entity, in configuration order. */
  function HealthTree(entities: Dict<string, HealthModelEntity>, deps: seq<EntityDependency>, all: Dict<Json, Json>)
    : (tree: Dict<string, TreeNode>)
    ensures Keys(tree) == Keys(entities)
  {
    seq(|entities|, i requires 0 <= i < |entities| => (entities[i].0, NodeFor(entities[i].0, entities[i].1, deps, all)))
  }

  /** Storing the next entity's node extends the tree of the entities before it. */
  lemma TreeGrows(entities: Dict<string, HealthModelEntity>, deps: seq<EntityDependency>, all: Dict<Json, Json>, i: nat)
    requires UniqueKeys(entities) && i < |entities|
    ensures Put(HealthTree(entities[..i], deps, all), entities[i].0, NodeFor(entities[i].0, entities[i].1, deps, all))
            == HealthTree(entities[..i + 1], deps, all)
  {
    var tree := HealthTree(entities[..i], deps, all);
    var node := NodeFor(entities[i].0, entities[i].1, deps, all);
    assert Keys(tree) == Keys(entities[..i]);
    forall j | 0 <= j < i ensures Keys(tree)[j] != entities[i].0 {
      assert Keys(tree)[j] == entities[j].0;
    }
    PutAbsent(tree, entities[i].0, node);
    var grown := HealthTree(entities[..i + 1], deps, all);
    assert |grown| == i + 1;
    forall j | 0 <= j < i + 1 ensures grown[j] == (tree + [(entities[i].0, node)])[j] {
      assert entities[..i + 1][j] == entities[j];
      if j < i {
        assert entities[..i][j] == entities[j];
      }
    }
  }

  /**
   * Each configured entity's node reports the entity's own name, type, parent and signal
   * map, its dependency lists, and the state, colour and timestamp of its document in the
   * snapshot; an entity the snapshot does not cover reports Unknown, gray and no timestamp.
   */
  lemma TreeNodes(entities: Dict<string, HealthModelEntity>, deps: seq<EntityDependency>, all: Dict<Json, Json>, i: nat)
    requires UniqueKeys(entities) && i < |entities|
    ensures var id := entities[i].0;
      var e := entities[i].1;
      var node := Get(HealthTree(entities, deps, all), id);
      && node.Some?
      && node.value.name == e.name && node.value.entityType == e.entityType.Value()
      && node.value.parent == e.parentEntityId && node.value.signals == e.signals
      && node.value.dependencies == EntityDeps(deps, id)
      && (Get(all, JStr(id)).None? ==>
            node.value.state == JStr("Unknown") && node.value.stateColor == JStr("gray") && node.value.timestamp == JNull)
      && (Get(all, JStr(id)).Some? ==>
            var doc := Get(all, JStr(id)).value;
            && node.value.state == MemberOr(doc, "state", JStr("Unknown"))
            && node.value.stateColor == MemberOr(doc, "state_color", JStr("gray"))
            && node.value.timestamp == MemberOr(doc, "timestamp", JNull))
  {
    var tree := HealthTree(entities, deps, all);
    forall j | 0 <= j < i ensures tree[j].0 != entities[i].0 {
      assert tree[j].0 == entities[j].0;
    }
    GetFirst(tree, entities[i].0, i);
    if Get(all, JStr(entities[i].0)).None? {
      assert HealthOf(all, entities[i].0) == JObj([]);
    }
  }

  // ---------------------------------------------------------------------------
  // Dependency impact (`get_dependency_impact`)
  // ---------------------------------------------------------------------------

  /** `severity_levels.get(criticality, 0)` */
  function SeverityLevel(criticality: string): (level: nat)
    ensures level <= 3
  {
    if criticality == "critical" then 3
    else if criticality == "high" then 2
    else if criticality == "medium" then 1
    else 0
  }

  /** `severity_map.get(level, "low")` */
  function SeverityName(level: nat): string {
    if level == 3 then "critical"
    else if level == 2 then "high"
    else if level == 1 then "medium"
    else "low"
  }

  /** The four named criticalities are the severity levels' names, and nothing else names a level above 0. */
  lemma SeverityNames(criticality: string)
    ensures criticality in ["critical", "high", "medium", "low"] ==> SeverityName(SeverityLevel(criticality)) == criticality
    ensures SeverityLevel(criticality) == 3 <==> criticality == "critical"
    ensures SeverityLevel(criticality) == 0 <==> criticality !in ["critical", "high", "medium"]
  {
  }

  /** Only level 3 is named "critical", and only level 0 "low". */
  lemma SeverityNameLevels(level: nat)
    requires level <= 3
    ensures SeverityName(level) == "critical" <==> level == 3
    ensures SeverityName(level) == "low" <==> level == 0
  {
  }

  /** The highest severity level among the edges (0 for none). */
  function MaxSeverity(ds: seq<EntityDependency>): (m: nat)
    ensures m <= 3
    ensures forall d :: d in ds ==> SeverityLevel(d.criticality) <= m
    ensures |ds| > 0 ==> exists d :: d in ds && SeverityLevel(d.criticality) == m
    ensures |ds| == 0 ==> m == 0
  {
    if |ds| == 0 then 0
    else
      var init := ds[..|ds| - 1];
      var last := ds[|ds| - 1];
      assert ds == init + [last];
      var m := MaxSeverity(init);
      if SeverityLevel(last.criticality) > m then SeverityLevel(last.criticality) else m
  }

  datatype AffectedService = AffectedService(entityId: string, entityName: string, criticality: string, dependencyType: string)

  /** The affected-services list: one entry per edge whose target is a configured entity, in edge order. */
  function Affected(ds: seq<EntityDependency>, entities: Dict<string, HealthModelEntity>): (r: seq<AffectedService>)
    ensures |r| <= |ds|
    ensures forall a :: a in r <==> exists d :: (d in ds && Get(entities, d.targetEntityId).Some? &&
      a == AffectedService(Get(entities, d.targetEntityId).value.id, Get(entities, d.targetEntityId).value.name,
                           d.criticality, d.dependencyType))
  {
    if |ds| == 0 then []
    else
      var init := ds[..|ds| - 1];
      var last := ds[|ds| - 1];
      assert ds == init + [last];
      Affected(init, entities) +
        match Get(entities, last.targetEntityId)
        case Some(e) => [AffectedService(e.id, e.name, last.criticality, last.dependencyType)]
        case None => []
  }

  /** One more edge raises the maximum to its own level if that is higher. */
  lemma MaxSeverityStep(ds: seq<EntityDependency>, i: nat)
    requires i < |ds|
    ensures var m := MaxSeverity(ds[..i]);
      MaxSeverity(ds[..i + 1]) == if SeverityLevel(ds[i].criticality) > m then SeverityLevel(ds[i].criticality) else m
  {
    assert ds[..i + 1][..i] == ds[..i];
  }

  /** One more edge adds its entry when its target is configured. */
  lemma AffectedStep(ds: seq<EntityDependency>, entities: Dict<string, HealthModelEntity>, i: nat)
    requires i < |ds|
    ensures Affected(ds[..i + 1], entities) == Affected(ds[..i], entities) +
      match Get(entities, ds[i].targetEntityId)
      case Some(e) => [AffectedService(e.id, e.name, ds[i].criticality, ds[i].dependencyType)]
      case None => []
  {
    assert ds[..i + 1][..i] == ds[..i];
  }

  datatype DependencyImpact = DependencyImpact(
    failedEntity: string,
    failedEntityName: Option<string>,
    affectedServices: seq<AffectedService>,
    impactSeverity: string)

  /**
   * The impact of a failure is "critical" exactly when some edge out of the failed
   * entity is critical, and "low" exactly when none is critical, high or medium.
   */
  lemma ImpactSeverity(deps: seq<EntityDependency>, entityId: string)
    ensures var s := SeverityName(MaxSeverity(DependentsOf(deps, entityId)));
      && (s == "critical" <==> exists d :: d in deps && d.sourceEntityId == entityId && d.criticality == "critical")
      && (s == "low" <==> forall d :: d in deps && d.sourceEntityId == entityId ==>
            d.criticality !in ["critical", "high", "medium"])
  {
    var ds := DependentsOf(deps, entityId);
    var m := MaxSeverity(ds);
    SeverityNameLevels(m);
    if m == 3 {
      var d :| d in ds && SeverityLevel(d.criticality) == 3;
      SeverityNames(d.criticality);
    } else {
      forall d | d in deps && d.sourceEntityId == entityId ensures d.criticality != "critical" {
        assert d in ds;
        SeverityNames(d.criticality);
      }
    }
    if m == 0 {
      forall d | d in deps && d.sourceEntityId == entityId ensures d.criticality !in ["critical", "high", "medium"] {
        assert d in ds;
        SeverityNames(d.criticality);
      }
    } else {
      var d :| d in ds && SeverityLevel(d.criticality) == m;
      SeverityNames(d.criticality);
    }
  }

  // ---------------------------------------------------------------------------
  // Health summary (`get_health_summary`)
  // ---------------------------------------------------------------------------

  datatype Bucket = HealthyBucket | DegradedBucket | UnhealthyBucket | UnknownBucket

  /** `health.get("state", "Unknown")` of a well-formed document. */
  function StateText(h: Json): string {
    match MemberOr(h, "state", JStr("Unknown"))
    case JStr(s) => s
    case _ => "Unknown"
  }

  /** The bucket a document is counted in: its lower-cased state, with every other state counted unknown. */
  function BucketOf(h: Json): Bucket {
    var state := Lower(StateText(h));
    if state == "healthy" then HealthyBucket
    else if state == "degraded" then DegradedBucket
    else if state == "unhealthy" then UnhealthyBucket
    else UnknownBucket
  }

  /** The bucket of each state the client reports. */
  function BucketFor(st: HealthState): Bucket {
    match st
    case Healthy => HealthyBucket
    case Degraded => DegradedBucket
    case Unhealthy => UnhealthyBucket
    case Unknown => UnknownBucket
  }

  /** A document reporting one of the client's states, in any letter case, lands in that state's bucket. */
  lemma BucketOfState(h: Json, st: HealthState, spelling: string)
    requires Member(h, "state") == Some(JStr(spelling)) && Lower(spelling) == Lower(st.Value())
    ensures BucketOf(h) == BucketFor(st)
  {
    assert StateText(h) == spelling;
    assert Lower("Healthy") == "healthy";
    assert Lower("Degraded") == "degraded";
    assert Lower("Unhealthy") == "unhealthy";
    assert Lower("Unknown") == "unknown";
  }

  datatype SummaryEntry = SummaryEntry(entityId: Json, entityName: Json)

  /** `{"entity_id": ..., "entity_name": details.get('displayName', entity_id)}` */
  function EntryOf(entityId: Json, h: Json): SummaryEntry {
    SummaryEntry(entityId, MemberOr(Details(h), "displayName", entityId))
  }

  /** The entries of one bucket, in snapshot order. */
  function InBucket(all: Dict<Json, Json>, b: Bucket): (r: seq<SummaryEntry>)
    ensures |r| <= |all|
    ensures forall e :: e in r <==> exists i :: 0 <= i < |all| && BucketOf(all[i].1) == b && e == EntryOf(all[i].0, all[i].1)
  {
    if |all| == 0 then []
    else
      var n := |all| - 1;
      var init := InBucket(all[..n], b);
      assert forall i :: 0 <= i < n ==> all[..n][i] == all[i];
      init + if BucketOf(all[n].1) == b then [EntryOf(all[n].0, all[n].1)] else []
  }

  /** One more document adds its entry to its own bucket only. */
  lemma InBucketStep(all: Dict<Json, Json>, b: Bucket, i: nat)
    requires i < |all|
    ensures InBucket(all[..i + 1], b)
            == InBucket(all[..i], b) + if BucketOf(all[i].1) == b then [EntryOf(all[i].0, all[i].1)] else []
  {
    assert all[..i + 1][..i] == all[..i];
  }

  datatype HealthSummary = HealthSummary(
    totalEntities: nat,
    healthyCount: nat,
    degradedCount: nat,
    unhealthyCount: nat,
    unknownCount: nat,
    healthy: seq<SummaryEntry>,
    degraded: seq<SummaryEntry>,
    unhealthy: seq<SummaryEntry>,
    unknown: seq<SummaryEntry>)

  /** The four buckets split the snapshot: their sizes add up to its size. */
  lemma {:induction false} SummaryCountsAddUp(all: Dict<Json, Json>)
    ensures |InBucket(all, HealthyBucket)| + |InBucket(all, DegradedBucket)| +
            |InBucket(all, UnhealthyBucket)| + |InBucket(all, UnknownBucket)| == |all|
  {
    if |all| > 0 {
      SummaryCountsAddUp(all[..|all| - 1]);
    }
  }

  /** In a snapshot (whose keys are distinct) each entity is listed in its own bucket and in no other. */
  lemma SummaryExclusive(all: Dict<Json, Json>, i: nat, b: Bucket)
    requires UniqueKeys(all) && i < |all|
    ensures EntryOf(all[i].0, all[i].1) in InBucket(all, BucketOf(all[i].1))
    ensures b != BucketOf(all[i].1) ==> forall e :: e in InBucket(all, b) ==> e.entityId != all[i].0
  {
  }

  // ---------------------------------------------------------------------------
  // Critical path (`get_critical_path`)
  // ---------------------------------------------------------------------------

  /** The trace starts at the API's root entity. */
  const CriticalRoot := "root"

  /** Only critical and high edges are followed. */
  predicate Critical(d: EntityDependency) {
    d.criticality == "critical" || d.criticality == "high"
  }

  /** Every entity the trace can reach: the root and the sources of the edges. */
  ghost function Universe(deps: seq<EntityDependency>): set<string> {
    {CriticalRoot} + Sources(deps)
  }

  /** The sources of the edges. */
  ghost function Sources(deps: seq<EntityDependency>): set<string> {
    if |deps| == 0 then {} else Sources(deps[..|deps| - 1]) + {deps[|deps| - 1].sourceEntityId}
  }

  lemma {:induction false} SourcesMembers(deps: seq<EntityDependency>, d: EntityDependency)
    requires d in deps
    ensures d.sourceEntityId in Sources(deps)
  {
    var init := deps[..|deps| - 1];
    if d != deps[|deps| - 1] {
      assert deps == init + [deps[|deps| - 1]];
      SourcesMembers(init, d);
    }
  }

  /** The entry at position j is the source of a followed edge into an earlier entry. */
  ghost predicate Justified(deps: seq<EntityDependency>, path: seq<string>, j: nat)
    requires j < |path|
  {
    exists d, m :: d in deps && Critical(d) && 0 <= m < j && d.sourceEntityId == path[j] && d.targetEntityId == path[m]
  }

  /** Every followed edge into this entity starts at a visited entity. */
  ghost predicate Closed(deps: seq<EntityDependency>, x: string, visited: set<string>) {
    forall d :: d in deps && Critical(d) && d.targetEntityId == x ==> d.sourceEntityId in visited
  }

  /** A path that begins at the root and whose other entries are each justified by an earlier one. */
  ghost predicate Trail(deps: seq<EntityDependency>, path: seq<string>) {
    && (|path| > 0 ==> path[0] == CriticalRoot)
    && Distinct(path)
    && forall j :: 0 < j < |path| ==> Justified(deps, path, j)
  }

  /** Extending a trail by a justified entry keeps it a trail. */
  lemma TrailExtends(deps: seq<EntityDependency>, path: seq<string>, q: seq<string>)
    requires Trail(deps, path) && |path| <= |q| && q[..|path|] == path
    requires |path| > 0 || (|q| > 0 && q[0] == CriticalRoot)
    requires Distinct(q)
    requires forall j :: |path| <= j < |q| && j > 0 ==> Justified(deps, q, j)
    ensures Trail(deps, q)
  {
    forall j | 0 < j < |path| ensures Justified(deps, q, j) {
      assert Justified(deps, path, j);
      var d, m :| d in deps && Critical(d) && 0 <= m < j && d.sourceEntityId == path[j] && d.targetEntityId == path[m];
      assert q[m] == path[m] && q[j] == path[j];
    }
    if |path| > 0 {
      assert q[0] == path[0];
    }
  }

  /** Visiting an unvisited entity that the root, or a followed edge into the trail, leads to extends the trail. */
  lemma Visit(deps: seq<EntityDependency>, path: seq<string>, entityId: string)
    requires Trail(deps, path) && entityId !in path
    requires |path| == 0 ==> entityId == CriticalRoot
    requires |path| > 0 ==> exists d :: (d in deps && Critical(d) &&
      d.sourceEntityId == entityId && d.targetEntityId in path)
    ensures Trail(deps, path + [entityId])
  {
    var q := path + [entityId];
    if |path| > 0 {
      var d :| d in deps && Critical(d) && d.sourceEntityId == entityId && d.targetEntityId in path;
      var m :| 0 <= m < |path| && path[m] == d.targetEntityId;
      assert q[m] == path[m];
      assert Justified(deps, q, |path|);
    }
    TrailExtends(deps, path, q);
  }

  /** Entries that were closed stay closed when the trail grows and more entities are visited. */
  lemma StaysClosed(deps: seq<EntityDependency>, before: seq<string>, after: seq<string>,
                    visited: set<string>, visited': set<string>, from: nat)
    requires |before| <= |after| && after[..|before|] == before && visited <= visited'
    requires forall j :: from <= j < |before| ==> Closed(deps, before[j], visited)
    requires forall j :: |before| <= j < |after| ==> Closed(deps, after[j], visited')
    ensures forall j :: from <= j < |after| ==> Closed(deps, after[j], visited')
  {
    forall j | from <= j < |after| ensures Closed(deps, after[j], visited') {
      if j < |before| {
        assert after[..|before|][j] == before[j];
      }
    }
  }

  /** The entities listed on a path. */
  ghost function Elems(path: seq<string>): set<string> {
    if |path| == 0 then {} else Elems(path[..|path| - 1]) + {path[|path| - 1]}
  }

  lemma {:induction false} ElemsMembers(path: seq<string>)
    ensures forall x :: x in Elems(path) <==> x in path
  {
    if |path| > 0 {
      var init := path[..|path| - 1];
      ElemsMembers(init);
      assert path == init + [path[|path| - 1]];
    }
  }

  lemma ElemsAppend(path: seq<string>, x: string)
    ensures Elems(path + [x]) == Elems(path) + {x}
  {
    assert (path + [x])[..|path|] == path;
  }

  /** An edge into the entity is an edge of the model, so its source is in the universe. */
  lemma EdgeInto(deps: seq<EntityDependency>, entityId: string, k: nat)
    requires k < |DependenciesOf(deps, entityId)|
    ensures var d := DependenciesOf(deps, entityId)[k];
      d in deps && d.targetEntityId == entityId && d.sourceEntityId in Universe(deps)
  {
    var d := DependenciesOf(deps, entityId)[k];
    assert d in DependenciesOf(deps, entityId);
    SourcesMembers(deps, d);
  }

  /** A subset is no larger than its superset. */
  lemma {:induction false} SubsetSize(a: set<string>, b: set<string>)
    requires a <= b
    ensures |a| <= |b|
    decreases |a|
  {
    if a != {} {
      var x :| x in a;
      SubsetSize(a - {x}, b - {x});
    }
  }

  /** Visiting a new entity of the universe leaves fewer entities to visit. */
  lemma FewerLeft(universe: set<string>, visited: set<string>, visited': set<string>, x: string)
    requires x in universe && x !in visited && visited + {x} <= visited'
    ensures |universe - visited'| < |universe - visited|
  {
    SubsetSize(universe - visited', (universe - visited) - {x});
  }

  /**
   * The state of `trace_critical` for `entityId` after following its first k edges: the
   * entity was appended to the path, and every followed edge's source has been visited.
   */
  ghost predicate Following(deps: seq<EntityDependency>, path: seq<string>, entityId: string, visited: set<string>,
                            visited': set<string>, path': seq<string>, k: nat)
  {
    var dependencies := DependenciesOf(deps, entityId);
    && k <= |dependencies|
    && Trail(deps, path') && |path| < |path'| && path'[..|path| + 1] == path + [entityId]
    && visited' == Elems(path') && visited + {entityId} <= visited' <= Universe(deps)
    && (forall j :: |path| + 1 <= j < |path'| ==> Closed(deps, path'[j], visited'))
    && (forall m :: 0 <= m < k && Critical(dependencies[m]) ==> dependencies[m].sourceEntityId in visited')
  }

  /**
   * What `trace_critical` may be called with: a trail and its visited set, and an entity
   * of the universe that is the root on an empty trail, or else the source of a followed
   * edge into the trail.
   */
  ghost predicate MayVisit(deps: seq<EntityDependency>, path: seq<string>, entityId: string, visited: set<string>) {
    && Trail(deps, path) && visited == Elems(path)
    && visited <= Universe(deps) && entityId in Universe(deps)
    && (|path| == 0 ==> entityId == CriticalRoot)
    && (|path| > 0 ==> exists d :: (d in deps && Critical(d) && d.sourceEntityId == entityId && d.targetEntityId in path))
  }

  /**
   * What `trace_critical` leaves behind: the trail extended, the entity visited, the
   * visited set still the trail's entries, and every entry added closed.
   */
  ghost predicate Traced(deps: seq<EntityDependency>, path: seq<string>, entityId: string, visited: set<string>,
                         visited': set<string>, path': seq<string>)
  {
    && Trail(deps, path') && |path| <= |path'| && path'[..|path|] == path
    && visited' == Elems(path')
    && entityId in visited' && visited <= visited' <= Universe(deps)
    && forall j :: |path| <= j < |path'| ==> Closed(deps, path'[j], visited')
  }

  /** An entity already visited is returned from at once, and that call meets the contract. */
  lemma AlreadyVisited(deps: seq<EntityDependency>, path: seq<string>, entityId: string, visited: set<string>)
    requires MayVisit(deps, path, entityId, visited) && entityId in visited
    ensures Traced(deps, path, entityId, visited, visited, path)
  {
    assert path[..|path|] == path;
  }

  /** Visiting an unvisited entity starts the state of `trace_critical` with no edge followed yet. */
  lemma StartFollowing(deps: seq<EntityDependency>, path: seq<string>, entityId: string, visited: set<string>)
    requires MayVisit(deps, path, entityId, visited) && entityId !in visited
    ensures Following(deps, path, entityId, visited, visited + {entityId}, path + [entityId], 0)
  {
    ElemsMembers(path);
    Visit(deps, path, entityId);
    ElemsAppend(path, entityId);
    assert (path + [entityId])[..|path| + 1] == path + [entityId];
  }

  /** Before following the k-th edge, the recursive visit of its source may start, and fewer entities are left. */
  lemma ReadyToFollow(deps: seq<EntityDependency>, path: seq<string>, entityId: string, visited: set<string>,
                      visited': set<string>, path': seq<string>, k: nat)
    requires Following(deps, path, entityId, visited, visited', path', k)
    requires k < |DependenciesOf(deps, entityId)| && entityId !in visited && entityId in Universe(deps)
    ensures var dep := DependenciesOf(deps, entityId)[k];
      && (Critical(dep) ==> MayVisit(deps, path', dep.sourceEntityId, visited'))
      && |Universe(deps) - visited'| < |Universe(deps) - visited|
  {
    var dep := DependenciesOf(deps, entityId)[k];
    EdgeInto(deps, entityId, k);
    assert path'[|path|] == entityId;
    assert dep.targetEntityId in path';
    FewerLeft(Universe(deps), visited, visited', entityId);
  }

  /** Following the k-th edge (a recursive visit when it is critical or high) keeps the state for k + 1. */
  lemma Followed(deps: seq<EntityDependency>, path: seq<string>, entityId: string, visited: set<string>,
                 before: set<string>, beforePath: seq<string>, after: set<string>, afterPath: seq<string>, k: nat)
    requires Following(deps, path, entityId, visited, before, beforePath, k)
    requires k < |DependenciesOf(deps, entityId)|
    requires var dep := DependenciesOf(deps, entityId)[k];
      && (Critical(dep) ==> Traced(deps, beforePath, dep.sourceEntityId, before, after, afterPath))
      && (!Critical(dep) ==> after == before && afterPath == beforePath)
    ensures Following(deps, path, entityId, visited, after, afterPath, k + 1)
  {
    assert afterPath[..|path| + 1] == beforePath[..|path| + 1];
    StaysClosed(deps, beforePath, afterPath, before, after, |path| + 1);
  }

  /** Once every edge into the entity has been followed, the call meets its contract. */
  lemma FollowedAll(deps: seq<EntityDependency>, path: seq<string>, entityId: string, visited: set<string>,
                    visited': set<string>, path': seq<string>)
    requires Following(deps, path, entityId, visited, visited', path', |DependenciesOf(deps, entityId)|)
    ensures Traced(deps, path, entityId, visited, visited', path')
    ensures path'[|path|] == entityId && Closed(deps, entityId, visited')
  {
    var dependencies := DependenciesOf(deps, entityId);
    assert path'[..|path|] == path'[..|path| + 1][..|path|];
    assert path'[|path|] == path'[..|path| + 1][|path|];
    forall d | d in deps && Critical(d) && d.targetEntityId == entityId ensures d.sourceEntityId in visited' {
      assert d in dependencies;
      var m :| 0 <= m < |dependencies| && dependencies[m] == d;
    }
  }

  /** The second entry of a trail is reached over a followed edge straight into the root. */
  lemma SecondEntry(deps: seq<EntityDependency>, path: seq<string>)
    requires Trail(deps, path) && |path| > 1
    ensures exists d :: d in deps && Critical(d) && d.sourceEntityId == path[1] && d.targetEntityId == CriticalRoot
  {
    assert Justified(deps, path, 1);
  }

  /**
   * With no followed edge into the root, the critical path is the root alone: this is
   * the case for both example models, whose roots carry other ids.
   */
  lemma RootOnlyPath(deps: seq<EntityDependency>, path: seq<string>)
    requires Trail(deps, path) && |path| > 0
    requires forall d :: d in deps && Critical(d) ==> d.targetEntityId != CriticalRoot
    ensures path == [CriticalRoot]
  {
    if |path| > 1 {
      SecondEntry(deps, path);
      assert false;
    }
  }

  /** The e-commerce example has no edge into an entity called "root": its critical path is the root alone. */
  lemma EcommerceCriticalPath(path: seq<string>)
    requires Trail(EcommerceDependencies, path) && |path| > 0
    ensures path == [CriticalRoot]
  {
    RootOnlyPath(EcommerceDependencies, path);
  }

  // ---------------------------------------------------------------------------
  // Signal definitions (`get_signal_definitions`)
  // ---------------------------------------------------------------------------

  /** The entity's signal map with each id replaced by its catalogue entry; ids the catalogue lacks are dropped. */
  function SignalDefinitions(signals: Dict<string, string>, catalogue: Dict<string, HealthSignal>)
    : (r: Dict<string, HealthSignal>)
    ensures forall k :: k in Keys(r) ==> k in Keys(signals)
    ensures |r| <= |signals|
    ensures (forall i :: 0 <= i < |signals| ==> Get(catalogue, signals[i].1).None?) ==> r == []
  {
    if |signals| == 0 then []
    else
      var n := |signals| - 1;
      var init := signals[..n];
      var acc := SignalDefinitions(init, catalogue);
      assert forall i :: 0 <= i < n ==> init[i] == signals[i];
      assert forall k :: k in Keys(init) ==> k in Keys(signals) by {
        forall k | k in Keys(init) ensures k in Keys(signals) {
          var i :| 0 <= i < n && Keys(init)[i] == k;
          assert Keys(signals)[i] == k;
        }
      }
      match Get(catalogue, signals[n].1)
      case Some(s) =>
        PutKeys(acc, signals[n].0, s);
        assert Keys(signals)[n] == signals[n].0;
        Put(acc, signals[n].0, s)
      case None => acc
  }

  /** With distinct signal names, each name resolves to exactly what the catalogue holds for its id. */
  lemma {:induction false} SignalDefinitionsResolve(signals: Dict<string, string>, catalogue: Dict<string, HealthSignal>, i: nat)
    requires UniqueKeys(signals) && i < |signals|
    ensures Get(SignalDefinitions(signals, catalogue), signals[i].0) == Get(catalogue, signals[i].1)
  {
    var n := |signals| - 1;
    var init := signals[..n];
    var acc := SignalDefinitions(init, catalogue);
    if i == n {
      if Get(catalogue, signals[n].1).None? {
        forall j | 0 <= j < n ensures Keys(init)[j] != signals[n].0 {
          assert init[j] == signals[j];
        }
        GetFound(acc, signals[n].0);
      }
    } else {
      assert init[i] == signals[i];
      SignalDefinitionsResolve(init, catalogue, i);
      if Get(catalogue, signals[n].1).Some? {
        PutOther(acc, signals[n].0, Get(catalogue, signals[n].1).value, signals[i].0);
      }
    }
  }

  // ---------------------------------------------------------------------------
  // The integration object
  // ---------------------------------------------------------------------------

  class HealthModelIntegration {
    const config: HealthModelConfig
    const signalsCollection: Dict<string, HealthSignal>

    constructor (config: HealthModelConfig, signalsCollection: Dict<string, HealthSignal>)
      ensures this.config == config && this.signalsCollection == signalsCollection
    {
      this.config := config;
      this.signalsCollection := signalsCollection;
    }

    /**
     * `get_entity_health`: the client's document for the entity, with the configured
     * entity's name and type written into it when the entity is configured.
     */
    function EntityHealth(entityId: string, response: Result<Json, string>, now: string): (r: Result<Json, Raised>)
      reads config
      ensures r.Ok? <==> EntityHealthState(entityId, response, now).Ok?
      ensures Get(config.entities, entityId).None? ==> r == EntityHealthState(entityId, response, now)
      ensures r.Ok? ==> forall k :: k != "entity_name" && k != "entity_type" ==>
        Member(r.value, k) == Member(EntityHealthState(entityId, response, now).value, k)
      ensures r.Ok? && Get(config.entities, entityId).Some? ==>
        var e := Get(config.entities, entityId).value;
        Member(r.value, "entity_name") == Some(JStr(e.name)) &&
        Member(r.value, "entity_type") == Some(JStr(e.entityType.Value()))
    {
      var health :- EntityHealthState(entityId, response, now);
      Ok(Annotated(health, Get(config.entities, entityId)))
    }

    /** `get_workload_health`: the first root document, else the first document, else Unknown. */
    method GetWorkloadHealth(all: Dict<Json, Json>) returns (r: Json)
      requires Snapshot(all)
      ensures r == WorkloadHealth(all)
    {
      for i := 0 to |all|
        invariant forall j :: 0 <= j < i ==> !IsRoot(all[j].1)
      {
        if IsRoot(all[i].1) {
          return all[i].1;
        }
      }
      if |all| > 0 {
        return all[0].1;
      }
      return UnknownHealth;
    }

    /** `get_health_tree` */
    method GetHealthTree(all: Dict<Json, Json>) returns (tree: Dict<string, TreeNode>)
      requires config.Valid() && Snapshot(all)
      ensures tree == HealthTree(config.entities, config.dependencies, all)
    {
      var entities := config.entities;
      var deps := config.dependencies;
      tree := [];
      for i := 0 to |entities|
        invariant tree == HealthTree(entities[..i], deps, all)
      {
        var (entityId, entity) := entities[i];
        var node := NodeFor(entityId, entity, deps, all);
        TreeGrows(entities, deps, all, i);
        tree := Put(tree, entityId, node);
      }
      assert entities[..|entities|] == entities;
    }

    /** `get_dependency_impact` */
    method GetDependencyImpact(entityId: string) returns (impact: DependencyImpact)
      ensures impact.failedEntity == entityId
      ensures impact.failedEntityName ==
        (if Get(config.entities, entityId).Some? then Some(Get(config.entities, entityId).value.name) else None)
      ensures impact.affectedServices == Affected(DependentsOf(config.dependencies, entityId), config.entities)
      ensures impact.impactSeverity == SeverityName(MaxSeverity(DependentsOf(config.dependencies, entityId)))
    {
      var dependents := DependentsOf(config.dependencies, entityId);
      var name := match Get(config.entities, entityId)
        case Some(e) => Some(e.name)
        case None => None;
      impact := DependencyImpact(entityId, name, [], "low");
      if |dependents| > 0 {
        var maxSeverity := 0;
        for i := 0 to |dependents|
          invariant maxSeverity == MaxSeverity(dependents[..i])
        {
          MaxSeverityStep(dependents, i);
          var level := SeverityLevel(dependents[i].criticality);
          if level > maxSeverity {
            maxSeverity := level;
          }
        }
        assert dependents[..|dependents|] == dependents;
        impact := impact.(impactSeverity := SeverityName(maxSeverity));
        var affected := [];
        for i := 0 to |dependents|
          invariant affected == Affected(dependents[..i], config.entities)
        {
          AffectedStep(dependents, config.entities, i);
          var dep := dependents[i];
          match Get(config.entities, dep.targetEntityId)
          case Some(e) =>
            affected := affected + [AffectedService(e.id, e.name, dep.criticality, dep.dependencyType)];
          case None =>
        }
        impact := impact.(affectedServices := affected);
      }
    }

    /** `get_health_summary`, without its timestamp and percentages. */
    method GetHealthSummary(all: Dict<Json, Json>) returns (summary: HealthSummary)
      requires Snapshot(all)
      ensures summary.totalEntities == |all|
      ensures summary.healthy == InBucket(all, HealthyBucket) && summary.healthyCount == |summary.healthy|
      ensures summary.degraded == InBucket(all, DegradedBucket) && summary.degradedCount == |summary.degraded|
      ensures summary.unhealthy == InBucket(all, UnhealthyBucket) && summary.unhealthyCount == |summary.unhealthy|
      ensures summary.unknown == InBucket(all, UnknownBucket) && summary.unknownCount == |summary.unknown|
    {
      summary := HealthSummary(|all|, 0, 0, 0, 0, [], [], [], []);
      for i := 0 to |all|
        invariant summary.totalEntities == |all|
        invariant summary.healthy == InBucket(all[..i], HealthyBucket) && summary.healthyCount == |summary.healthy|
        invariant summary.degraded == InBucket(all[..i], DegradedBucket) && summary.degradedCount == |summary.degraded|
        invariant summary.unhealthy == InBucket(all[..i], UnhealthyBucket) && summary.unhealthyCount == |summary.unhealthy|
        invariant summary.unknown == InBucket(all[..i], UnknownBucket) && summary.unknownCount == |summary.unknown|
      {
        InBucketStep(all, HealthyBucket, i);
        InBucketStep(all, DegradedBucket, i);
        InBucketStep(all, UnhealthyBucket, i);
        InBucketStep(all, UnknownBucket, i);
        var (entityId, health) := all[i];
        var state := Lower(StateText(health));
        var entry := EntryOf(entityId, health);
        if state == "healthy" {
          summary := summary.(healthyCount := summary.healthyCount + 1, healthy := summary.healthy + [entry]);
        } else if state == "degraded" {
          summary := summary.(degradedCount := summary.degradedCount + 1, degraded := summary.degraded + [entry]);
        } else if state == "unhealthy" {
          summary := summary.(unhealthyCount := summary.unhealthyCount + 1, unhealthy := summary.unhealthy + [entry]);
        } else {
          summary := summary.(unknownCount := summary.unknownCount + 1, unknown := summary.unknown + [entry]);
        }
      }
      assert all[..|all|] == all;
    }

    /**
     * `trace_critical`: visits the entity unless already visited, then follows each
     * critical or high edge into it, depth first, to the edge's source.
     */
    method TraceCritical(entityId: string, visited: set<string>, path: seq<string>)
      returns (visited': set<string>, path': seq<string>)
      requires MayVisit(config.dependencies, path, entityId, visited)
      ensures Traced(config.dependencies, path, entityId, visited, visited', path')
      decreases |Universe(config.dependencies) - visited|
    {
      var deps := config.dependencies;
      if entityId in visited {
        AlreadyVisited(deps, path, entityId, visited);
        return visited, path;
      }
      StartFollowing(deps, path, entityId, visited);
      visited' := visited + {entityId};
      path' := path + [entityId];
      var dependencies := DependenciesOf(deps, entityId);
      for k := 0 to |dependencies|
        invariant Following(deps, path, entityId, visited, visited', path', k)
      {
        var dep := dependencies[k];
        ReadyToFollow(deps, path, entityId, visited, visited', path', k);
        ghost var before, beforePath := visited', path';
        if Critical(dep) {
          visited', path' := TraceCritical(dep.sourceEntityId, visited', path');
        }
        Followed(deps, path, entityId, visited, before, beforePath, visited', path', k);
      }
      FollowedAll(deps, path, entityId, visited, visited', path');
    }

    /**
     * `get_critical_path`: a path from the root in which every other entity is the source
     * of a critical or high edge into an entity listed before it, with no entity listed
     * twice and every followed edge into a listed entity starting at a listed entity.
     */
    method GetCriticalPath() returns (path: seq<string>)
      ensures |path| > 0 && path[0] == CriticalRoot
      ensures Trail(config.dependencies, path)
      ensures forall d :: d in config.dependencies && Critical(d) && d.targetEntityId in path ==> d.sourceEntityId in path
    {
      var visited;
      visited, path := TraceCritical(CriticalRoot, {}, []);
      ElemsMembers(path);
      forall d | d in config.dependencies && Critical(d) && d.targetEntityId in path ensures d.sourceEntityId in path {
        var j :| 0 <= j < |path| && path[j] == d.targetEntityId;
        assert Closed(config.dependencies, path[j], visited);
      }
    }

    /** `get_signal_definitions` */
    method GetSignalDefinitions(entityId: string) returns (signals: Dict<string, HealthSignal>)
      ensures Get(config.entities, entityId).None? ==> signals == []
      ensures Get(config.entities, entityId).Some? ==>
        signals == SignalDefinitions(Get(config.entities, entityId).value.signals, signalsCollection)
    {
      var entity := Get(config.entities, entityId);
      if entity.None? {
        return [];
      }
      var entries := entity.value.signals;
      signals := [];
      for i := 0 to |entries|
        invariant signals == SignalDefinitions(entries[..i], signalsCollection)
      {
        assert entries[..i + 1][..i] == entries[..i];
        var (signalName, signalId) := entries[i];
        var found := Get(signalsCollection, signalId);
        if found.Some? {
          signals := Put(signals, signalName, found.value);
        }
      }
      assert entries[..|entries|] == entries;
    }
  }
}
