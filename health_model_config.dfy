/**
 * The health-model configuration: a table of entities keyed by id, an ordered list
 * of dependency edges between them, their dict serialisation and the loader that
 * reads that dict back.
 *
 * The wall clock that stamps `last_modified` is a `now` parameter.
 */
module ModelConfig {
  import opened Wrappers
  import opened Dicts
  import opened Json
  import opened Text

  datatype EntityType =
    | Workload | Service | Database | VirtualMachine | Container
    | Api | LoadBalancer | Cache | MessageQueue | CustomEntity
  {
    /** The enum member's value, as serialised under "type". */
    function Value(): string {
      match this
      case Workload => "workload"
      case Service => "service"
      case Database => "database"
      case VirtualMachine => "virtual_machine"
      case Container => "container"
      case Api => "api"
      case LoadBalancer => "load_balancer"
      case Cache => "cache"
      case MessageQueue => "message_queue"
      case CustomEntity => "custom"
    }
  }

  /** `EntityType(value)`: the member that has this value, if any. */
  function EntityTypeOf(value: string): Option<EntityType> {
    if value == "workload" then Some(Workload)
    else if value == "service" then Some(Service)
    else if value == "database" then Some(Database)
    else if value == "virtual_machine" then Some(VirtualMachine)
    else if value == "container" then Some(Container)
    else if value == "api" then Some(Api)
    else if value == "load_balancer" then Some(LoadBalancer)
    else if value == "cache" then Some(Cache)
    else if value == "message_queue" then Some(MessageQueue)
    else if value == "custom" then Some(CustomEntity)
    else None
  }

  /** A type string is accepted exactly when it is the value of some entity type. */
  lemma EntityTypeValues(value: string, t: EntityType)
    ensures EntityTypeOf(value) == Some(t) <==> t.Value() == value
  {
  }

  /** An edge: `targetEntityId` depends on `sourceEntityId`. */
  datatype EntityDependency = EntityDependency(
    sourceEntityId: string,
    targetEntityId: string,
    dependencyType: string := "direct",
    criticality: string := "high")

  datatype HealthModelEntity = HealthModelEntity(
    id: string,
    name: string,
    entityType: EntityType,
    description: string,
    parentEntityId: Option<string> := None,
    azureResourceId: Option<string> := None,
    signals: Dict<string, string> := [],
    metadata: Dict<string, Json> := [])

  // ---------------------------------------------------------------------------
  // Edge queries
  // ---------------------------------------------------------------------------

  /** `get_entity_dependencies`: the edges whose target is `entityId`, in list order. */
  function DependenciesOf(deps: seq<EntityDependency>, entityId: string): (r: seq<EntityDependency>)
    ensures forall d :: d in r <==> d in deps && d.targetEntityId == entityId
    ensures |r| <= |deps|
  {
    if |deps| == 0 then []
    else
      var last := deps[|deps| - 1];
      assert deps == deps[..|deps| - 1] + [last];
      DependenciesOf(deps[..|deps| - 1], entityId) + (if last.targetEntityId == entityId then [last] else [])
  }

  /** `get_entity_dependents`: the edges whose source is `entityId`, in list order. */
  function DependentsOf(deps: seq<EntityDependency>, entityId: string): (r: seq<EntityDependency>)
    ensures forall d :: d in r <==> d in deps && d.sourceEntityId == entityId
    ensures |r| <= |deps|
  {
    if |deps| == 0 then []
    else
      var last := deps[|deps| - 1];
      assert deps == deps[..|deps| - 1] + [last];
      DependentsOf(deps[..|deps| - 1], entityId) + (if last.sourceEntityId == entityId then [last] else [])
  }

  /** Both queries are order-preserving filters: they distribute over concatenation. */
  lemma QueriesDistribute(a: seq<EntityDependency>, b: seq<EntityDependency>, entityId: string)
    ensures DependenciesOf(a + b, entityId) == DependenciesOf(a, entityId) + DependenciesOf(b, entityId)
    ensures DependentsOf(a + b, entityId) == DependentsOf(a, entityId) + DependentsOf(b, entityId)
  {
    DependenciesDistribute(a, b, entityId);
    DependentsDistribute(a, b, entityId);
  }

  lemma {:induction false} DependenciesDistribute(a: seq<EntityDependency>, b: seq<EntityDependency>, entityId: string)
    ensures DependenciesOf(a + b, entityId) == DependenciesOf(a, entityId) + DependenciesOf(b, entityId)
  {
    if |b| > 0 {
      var b' := b[..|b| - 1];
      var last := b[|b| - 1];
      var tail := if last.targetEntityId == entityId then [last] else [];
      assert (a + b)[..|a + b| - 1] == a + b';
      assert (a + b)[|a + b| - 1] == last;
      assert DependenciesOf(a + b, entityId) == DependenciesOf(a + b', entityId) + tail;
      assert DependenciesOf(b, entityId) == DependenciesOf(b', entityId) + tail;
      DependenciesDistribute(a, b', entityId);
      assert DependenciesOf(a, entityId) + DependenciesOf(b', entityId) + tail
          == DependenciesOf(a, entityId) + (DependenciesOf(b', entityId) + tail);
    } else {
      assert a + b == a;
    }
  }

  lemma {:induction false} DependentsDistribute(a: seq<EntityDependency>, b: seq<EntityDependency>, entityId: string)
    ensures DependentsOf(a + b, entityId) == DependentsOf(a, entityId) + DependentsOf(b, entityId)
  {
    if |b| > 0 {
      var b' := b[..|b| - 1];
      var last := b[|b| - 1];
      var tail := if last.sourceEntityId == entityId then [last] else [];
      assert (a + b)[..|a + b| - 1] == a + b';
      assert (a + b)[|a + b| - 1] == last;
      assert DependentsOf(a + b, entityId) == DependentsOf(a + b', entityId) + tail;
      assert DependentsOf(b, entityId) == DependentsOf(b', entityId) + tail;
      DependentsDistribute(a, b', entityId);
      assert DependentsOf(a, entityId) + DependentsOf(b', entityId) + tail
          == DependentsOf(a, entityId) + (DependentsOf(b', entityId) + tail);
    } else {
      assert a + b == a;
    }
  }

  /**
   * Every occurrence of an edge is returned by the query for its own target, as many
   * times as it occurs, and by no other; likewise for its own source.
   */
  lemma {:induction false} QueriesPartition(deps: seq<EntityDependency>, d: EntityDependency, entityId: string)
    ensures multiset(DependenciesOf(deps, entityId))[d] == if d.targetEntityId == entityId then multiset(deps)[d] else 0
    ensures multiset(DependentsOf(deps, entityId))[d] == if d.sourceEntityId == entityId then multiset(deps)[d] else 0
  {
    if |deps| > 0 {
      var init := deps[..|deps| - 1];
      assert deps == init + [deps[|deps| - 1]];
      QueriesPartition(init, d, entityId);
    }
  }

  // ---------------------------------------------------------------------------
  // Serialisation
  // ---------------------------------------------------------------------------

  const EntityKeys: seq<string> :=
    ["id", "name", "type", "description", "parentEntityId", "azureResourceId", "signals", "metadata"]

  /** No key of the serialised dict is written twice. */
  lemma EntityKeysDistinct()
    ensures Distinct(EntityKeys)
  {
  }

  /** `HealthModelEntity.to_dict()` */
  function EntityToDict(e: HealthModelEntity): (r: Json)
    ensures r.JObj? && Keys(r.fields) == EntityKeys
  {
    JObj([
      ("id", JStr(e.id)),
      ("name", JStr(e.name)),
      ("type", JStr(e.entityType.Value())),
      ("description", JStr(e.description)),
      ("parentEntityId", OptText(e.parentEntityId)),
      ("azureResourceId", OptText(e.azureResourceId)),
      ("signals", TextDict(e.signals)),
      ("metadata", JObj(e.metadata))
    ])
  }

  const DependencyKeys: seq<string> := ["sourceEntityId", "targetEntityId", "dependencyType", "criticality"]

  /** No key of the serialised dict is written twice. */
  lemma DependencyKeysDistinct()
    ensures Distinct(DependencyKeys)
  {
  }

  /** One element of the "dependencies" list of `HealthModelConfig.to_dict()`. */
  function DependencyToDict(d: EntityDependency): (r: Json)
    ensures r.JObj? && Keys(r.fields) == DependencyKeys
  {
    JObj([
      ("sourceEntityId", JStr(d.sourceEntityId)),
      ("targetEntityId", JStr(d.targetEntityId)),
      ("dependencyType", JStr(d.dependencyType)),
      ("criticality", JStr(d.criticality))
    ])
  }

  /** The "entities" member: each entity's dict under its key, in table order. */
  function EntitiesToDict(entities: Dict<string, HealthModelEntity>): (r: Json)
    ensures r.JObj? && Keys(r.fields) == Keys(entities)
  {
    JObj(seq(|entities|, i requires 0 <= i < |entities| => (entities[i].0, EntityToDict(entities[i].1))))
  }

  /** The "dependencies" member: one dict per edge, in list order. */
  function DependenciesToDict(deps: seq<EntityDependency>): (r: Json)
    ensures r.JArr? && |r.items| == |deps|
  {
    JArr(seq(|deps|, i requires 0 <= i < |deps| => DependencyToDict(deps[i])))
  }

  /** The descriptive fields of a configuration; any of them may be Python's `None`. */
  datatype ConfigHeader = ConfigHeader(
    modelId: Option<string>,
    modelName: Option<string>,
    description: Option<string>,
    ownerTeam: Option<string>,
    version: Option<string>,
    createdAt: Option<string>,
    lastModified: Option<string>)

  const ConfigKeys: seq<string> :=
    ["modelId", "modelName", "description", "ownerTeam", "version", "createdAt", "lastModified",
     "entities", "dependencies"]

  /** No key of the serialised dict is written twice. */
  lemma ConfigKeysDistinct()
    ensures Distinct(ConfigKeys)
  {
  }

  /** `HealthModelConfig.to_dict()` over the configuration's fields. */
  function ConfigToDict(h: ConfigHeader, entities: Dict<string, HealthModelEntity>, deps: seq<EntityDependency>): (r: Json)
    ensures r.JObj? && Keys(r.fields) == ConfigKeys
  {
    JObj([
      ("modelId", OptText(h.modelId)),
      ("modelName", OptText(h.modelName)),
      ("description", OptText(h.description)),
      ("ownerTeam", OptText(h.ownerTeam)),
      ("version", OptText(h.version)),
      ("createdAt", OptText(h.createdAt)),
      ("lastModified", OptText(h.lastModified)),
      ("entities", EntitiesToDict(entities)),
      ("dependencies", DependenciesToDict(deps))
    ])
  }

  // ---------------------------------------------------------------------------
  // The configuration object
  // ---------------------------------------------------------------------------

  /** Every entity sits under its own id, and no id is listed twice. */
  ghost predicate KeyedById(entities: Dict<string, HealthModelEntity>) {
    && UniqueKeys(entities)
    && forall i :: 0 <= i < |entities| ==> entities[i].1.id == entities[i].0
  }

  class HealthModelConfig {
    var modelId: Option<string>
    var modelName: Option<string>
    var description: Option<string>
    var ownerTeam: Option<string>
    var entities: Dict<string, HealthModelEntity>
    var dependencies: seq<EntityDependency>
    var createdAt: Option<string>
    var lastModified: Option<string>
    var version: Option<string>

    ghost predicate Valid()
      reads this
    {
      KeyedById(entities)
    }

    /** The descriptive fields as they stand. */
    function Header(): ConfigHeader
      reads this
    {
      ConfigHeader(modelId, modelName, description, ownerTeam, version, createdAt, lastModified)
    }

    /** A new, empty configuration as the examples build it: stamped `now`, version "1.0.0". */
    constructor (modelId: string, modelName: string, description: string, ownerTeam: string, now: string)
      ensures Valid() && entities == [] && dependencies == []
      ensures Header() == ConfigHeader(Some(modelId), Some(modelName), Some(description), Some(ownerTeam),
                                       Some("1.0.0"), Some(now), Some(now))
    {
      this.modelId, this.modelName := Some(modelId), Some(modelName);
      this.description, this.ownerTeam := Some(description), Some(ownerTeam);
      entities, dependencies := [], [];
      createdAt, lastModified := Some(now), Some(now);
      version := Some("1.0.0");
    }

    /** A new, empty configuration with every descriptive field given, as the loader builds it. */
    constructor FromHeader(h: ConfigHeader)
      ensures Valid() && entities == [] && dependencies == [] && Header() == h
    {
      modelId, modelName, description, ownerTeam := h.modelId, h.modelName, h.description, h.ownerTeam;
      entities, dependencies := [], [];
      createdAt, lastModified, version := h.createdAt, h.lastModified, h.version;
    }

    /** `add_entity`: stores the entity under its id, replacing any entity with that id. */
    method AddEntity(entity: HealthModelEntity, now: string)
      requires Valid()
      modifies this
      ensures Valid()
      ensures entities == Put(old(entities), entity.id, entity)
      ensures entity.id !in Keys(old(entities)) ==> entities == old(entities) + [(entity.id, entity)]
      ensures Get(entities, entity.id) == Some(entity)
      ensures forall k :: k != entity.id ==> Get(entities, k) == Get(old(entities), k)
      ensures dependencies == old(dependencies) && lastModified == Some(now)
      ensures modelId == old(modelId) && modelName == old(modelName) && description == old(description)
      ensures ownerTeam == old(ownerTeam) && createdAt == old(createdAt) && version == old(version)
    {
      PutUnique(entities, entity.id, entity);
      PutPairs(entities, entity.id, entity);
      forall k | k != entity.id ensures Get(Put(entities, entity.id, entity), k) == Get(entities, k) {
        PutOther(entities, entity.id, entity, k);
      }
      if entity.id !in Keys(entities) {
        PutAbsent(entities, entity.id, entity);
      }
      var updated := Put(entities, entity.id, entity);
      forall i | 0 <= i < |updated| ensures updated[i].1.id == updated[i].0 {
        assert updated[i] in updated;
      }
      entities := updated;
      lastModified := Some(now);
    }

    /** `add_dependency`: appends the edge; duplicates are kept. */
    method AddDependency(dependency: EntityDependency, now: string)
      requires Valid()
      modifies this
      ensures Valid()
      ensures dependencies == old(dependencies) + [dependency]
      ensures entities == old(entities) && lastModified == Some(now)
      ensures modelId == old(modelId) && modelName == old(modelName) && description == old(description)
      ensures ownerTeam == old(ownerTeam) && createdAt == old(createdAt) && version == old(version)
    {
      dependencies := dependencies + [dependency];
      lastModified := Some(now);
    }

    /** `to_dict()` */
    function ToDict(): Json
      reads this
    {
      ConfigToDict(Header(), entities, dependencies)
    }
  }

  /** After `add_dependency`, each query gains the new edge exactly when it matches. */
  lemma AddDependencyQueries(deps: seq<EntityDependency>, d: EntityDependency, entityId: string)
    ensures DependenciesOf(deps + [d], entityId)
         == DependenciesOf(deps, entityId) + (if d.targetEntityId == entityId then [d] else [])
    ensures DependentsOf(deps + [d], entityId)
         == DependentsOf(deps, entityId) + (if d.sourceEntityId == entityId then [d] else [])
  {
    assert (deps + [d])[..|deps + [d]| - 1] == deps;
  }

  // ---------------------------------------------------------------------------
  // Loading (`load_from_json`, once the file has been read)
  // ---------------------------------------------------------------------------

  /** Why a document could not be loaded; each stands for an exception Python raises. */
  datatype LoadError =
    | NotAnObject(what: string)
    | NotIterable(what: string)
    | MissingKey(key: string)
    | NotAString(key: string)
    | UnknownEntityType(value: Json)

  /** What the loader reads from a document, in document order. */
  datatype ConfigDocument = ConfigDocument(
    header: ConfigHeader,
    entities: seq<HealthModelEntity>,
    dependencies: seq<EntityDependency>)

  /** `obj[key]` for a text field: a missing key raises. */
  function RequiredText(obj: Json, key: string): Result<string, LoadError> {
    match Member(obj, key)
    case None => Err(MissingKey(key))
    case Some(JStr(s)) => Ok(s)
    case Some(_) => Err(NotAString(key))
  }

  /** `obj.get(key, default)` for a text field that may be null. */
  function OptionalText(obj: Json, key: string, default: Option<string>): Result<Option<string>, LoadError> {
    match Member(obj, key)
    case None => Ok(default)
    case Some(JNull) => Ok(None)
    case Some(JStr(s)) => Ok(Some(s))
    case Some(_) => Err(NotAString(key))
  }

  /** `obj.get(key, default)` for a text field that may not be null. */
  function DefaultedText(obj: Json, key: string, default: string): Result<string, LoadError> {
    match Member(obj, key)
    case None => Ok(default)
    case Some(JStr(s)) => Ok(s)
    case Some(_) => Err(NotAString(key))
  }

  /** A JSON object whose members are all strings, as a `Dict[str, str]`. */
  function TextDictOf(fields: Dict<string, Json>): Result<Dict<string, string>, LoadError> {
    if |fields| == 0 then Ok([])
    else
      var rest :- TextDictOf(fields[1..]);
      match fields[0].1
      case JStr(s) => Ok([(fields[0].0, s)] + rest)
      case _ => Err(NotAString(fields[0].0))
  }

  function ParseHeader(data: Json): Result<ConfigHeader, LoadError> {
    var modelId :- OptionalText(data, "modelId", None);
    var modelName :- OptionalText(data, "modelName", None);
    var description :- OptionalText(data, "description", None);
    var ownerTeam :- OptionalText(data, "ownerTeam", None);
    var version :- OptionalText(data, "version", Some("1.0.0"));
    var createdAt :- OptionalText(data, "createdAt", None);
    var lastModified :- OptionalText(data, "lastModified", None);
    Ok(ConfigHeader(modelId, modelName, description, ownerTeam, version, createdAt, lastModified))
  }

  /** One entity, read field by field in the order the loader reads them. */
  function ParseEntity(j: Json): Result<HealthModelEntity, LoadError> {
    if !j.JObj? then Err(NotAnObject("entity"))
    else
      var id :- RequiredText(j, "id");
      var name :- RequiredText(j, "name");
      var entityType :- match Member(j, "type")
        case None => Err(MissingKey("type"))
        case Some(JStr(s)) => (match EntityTypeOf(s) case Some(t) => Ok(t) case None => Err(UnknownEntityType(JStr(s))))
        case Some(other) => Err(UnknownEntityType(other));
      var description :- RequiredText(j, "description");
      var parent :- OptionalText(j, "parentEntityId", None);
      var azureId :- OptionalText(j, "azureResourceId", None);
      var signals :- match Member(j, "signals")
        case None => Ok([])
        case Some(JObj(fields)) => TextDictOf(fields)
        case Some(_) => Err(NotAnObject("signals"));
      var metadata :- match Member(j, "metadata")
        case None => Ok([])
        case Some(JObj(fields)) => Ok(fields)
        case Some(_) => Err(NotAnObject("metadata"));
      Ok(HealthModelEntity(id, name, entityType, description, parent, azureId, signals, metadata))
  }

  function ParseEntities(entries: Dict<string, Json>): (r: Result<seq<HealthModelEntity>, LoadError>)
    ensures r.Ok? ==> |r.value| == |entries|
  {
    if |entries| == 0 then Ok([])
    else
      var e :- ParseEntity(entries[0].1);
      var rest :- ParseEntities(entries[1..]);
      Ok([e] + rest)
  }

  /** One edge; the type and criticality default to "direct" and "high". */
  function ParseDependency(j: Json): Result<EntityDependency, LoadError> {
    if !j.JObj? then Err(NotAnObject("dependency"))
    else
      var source :- RequiredText(j, "sourceEntityId");
      var target :- RequiredText(j, "targetEntityId");
      var dependencyType :- DefaultedText(j, "dependencyType", "direct");
      var criticality :- DefaultedText(j, "criticality", "high");
      Ok(EntityDependency(source, target, dependencyType, criticality))
  }

  function ParseDependencies(items: seq<Json>): (r: Result<seq<EntityDependency>, LoadError>)
    ensures r.Ok? ==> |r.value| == |items|
  {
    if |items| == 0 then Ok([])
    else
      var d :- ParseDependency(items[0]);
      var rest :- ParseDependencies(items[1..]);
      Ok([d] + rest)
  }

  /**
   * The parsing half of `load_from_json`. The loader iterates the "dependencies"
   * member, so an empty object or an empty string there loads as no edges, while any
   * element that is not an object raises.
   */
  function ParseConfig(data: Json): Result<ConfigDocument, LoadError> {
    if !data.JObj? then Err(NotAnObject("document"))
    else
      var header :- ParseHeader(data);
      var entities :- match Member(data, "entities")
        case None => Ok([])
        case Some(JObj(entries)) => ParseEntities(entries)
        case Some(_) => Err(NotAnObject("entities"));
      var dependencies :- match Member(data, "dependencies")
        case None => Ok([])
        case Some(JArr(items)) => ParseDependencies(items)
        case Some(JObj(fields)) => if |fields| == 0 then Ok([]) else Err(NotAnObject("dependency"))
        case Some(JStr(s)) => if |s| == 0 then Ok([]) else Err(NotAnObject("dependency"))
        case Some(_) => Err(NotIterable("dependencies"));
      Ok(ConfigDocument(header, entities, dependencies))
  }

  /** The entity table that calling `add_entity` on each entity in turn produces. */
  function AddAll(entities: Dict<string, HealthModelEntity>, es: seq<HealthModelEntity>): Dict<string, HealthModelEntity>
    decreases |es|
  {
    if |es| == 0 then entities else AddAll(Put(entities, es[0].id, es[0]), es[1..])
  }

  /**
   * `load_from_json` once the file is read: builds the header, then adds every entity
   * and every edge in document order. A load that raises yields no configuration.
   */
  method LoadFromJson(data: Json, now: string) returns (r: Result<HealthModelConfig, LoadError>)
    ensures ParseConfig(data).Err? ==> r == Err(ParseConfig(data).error)
    ensures ParseConfig(data).Ok? ==> r.Ok? && fresh(r.value) && r.value.Valid()
    ensures ParseConfig(data).Ok? ==>
      var doc := ParseConfig(data).value;
      && r.value.entities == AddAll([], doc.entities)
      && r.value.dependencies == doc.dependencies
      && r.value.Header() == doc.header.(lastModified :=
           if |doc.entities| + |doc.dependencies| > 0 then Some(now) else doc.header.lastModified)
  {
    var parsed := ParseConfig(data);
    if parsed.Err? {
      return Err(parsed.error);
    }
    var doc := parsed.value;
    var config := new HealthModelConfig.FromHeader(doc.header);
    for i := 0 to |doc.entities|
      invariant config.Valid()
      invariant AddAll(config.entities, doc.entities[i..]) == AddAll([], doc.entities)
      invariant config.dependencies == []
      invariant config.Header() == doc.header.(lastModified := if i > 0 then Some(now) else doc.header.lastModified)
    {
      assert doc.entities[i..][1..] == doc.entities[i + 1..];
      config.AddEntity(doc.entities[i], now);
    }
    AddDependencies(config, doc.dependencies, now);
    return Ok(config);
  }

  // ---------------------------------------------------------------------------
  // Export and reload
  // ---------------------------------------------------------------------------

  /** A `Dict[str, str]` written out as JSON reads back unchanged. */
  lemma {:induction false} TextDictRoundTrip(d: Dict<string, string>)
    ensures TextDictOf(TextDict(d).fields) == Ok(d)
  {
    if |d| > 0 {
      assert TextDict(d).fields[1..] == TextDict(d[1..]).fields;
      TextDictRoundTrip(d[1..]);
      assert [(d[0].0, d[0].1)] + d[1..] == d;
    }
  }

  /** An entity's dict reads back as the same entity. */
  lemma EntityRoundTrip(e: HealthModelEntity)
    ensures ParseEntity(EntityToDict(e)) == Ok(e)
  {
    EntityFields(e);
    TextDictRoundTrip(e.signals);
    EntityTypeValues(e.entityType.Value(), e.entityType);
  }

  /** Each key of an entity's dict finds the field written under it. */
  lemma EntityFields(e: HealthModelEntity)
    ensures var j := EntityToDict(e);
      && Member(j, "id") == Some(JStr(e.id))
      && Member(j, "name") == Some(JStr(e.name))
      && Member(j, "type") == Some(JStr(e.entityType.Value()))
      && Member(j, "description") == Some(JStr(e.description))
      && Member(j, "parentEntityId") == Some(OptText(e.parentEntityId))
      && Member(j, "azureResourceId") == Some(OptText(e.azureResourceId))
      && Member(j, "signals") == Some(TextDict(e.signals))
      && Member(j, "metadata") == Some(JObj(e.metadata))
  {
    var j := EntityToDict(e);
    EntityKeysDistinct();
    DistinctKeys(j.fields);
    MemberUnique(j, 0);
    MemberUnique(j, 1);
    MemberUnique(j, 2);
    MemberUnique(j, 3);
    MemberUnique(j, 4);
    MemberUnique(j, 5);
    MemberUnique(j, 6);
    MemberUnique(j, 7);
  }

  /** An edge's dict reads back as the same edge. */
  lemma DependencyRoundTrip(d: EntityDependency)
    ensures ParseDependency(DependencyToDict(d)) == Ok(d)
  {
    var j := DependencyToDict(d);
    DependencyKeysDistinct();
    DistinctKeys(j.fields);
    MemberUnique(j, 0);
    MemberUnique(j, 1);
    MemberUnique(j, 2);
    MemberUnique(j, 3);
  }

  /** The "entities" member is the first entity's dict followed by the rest's. */
  lemma EntitiesToDictCons(entities: Dict<string, HealthModelEntity>)
    requires |entities| > 0
    ensures EntitiesToDict(entities).fields[0].1 == EntityToDict(entities[0].1)
    ensures EntitiesToDict(entities).fields[1..] == EntitiesToDict(entities[1..]).fields
  {
    assert EntitiesToDict(entities).fields[1..] == EntitiesToDict(entities[1..]).fields;
  }

  /** A list of entity dicts parses when its head and its tail do. */
  lemma ParseEntitiesCons(entries: Dict<string, Json>)
    requires |entries| > 0
    ensures ParseEntity(entries[0].1).Ok? && ParseEntities(entries[1..]).Ok? ==>
      ParseEntities(entries) == Ok([ParseEntity(entries[0].1).value] + ParseEntities(entries[1..]).value)
  {
  }

  /** The "entities" member reads back as the table's entities, in table order. */
  lemma {:induction false} EntitiesRoundTrip(entities: Dict<string, HealthModelEntity>)
    ensures ParseEntities(EntitiesToDict(entities).fields) == Ok(Values(entities))
  {
    if |entities| > 0 {
      var fields := EntitiesToDict(entities).fields;
      EntitiesToDictCons(entities);
      EntityRoundTrip(entities[0].1);
      EntitiesRoundTrip(entities[1..]);
      ParseEntitiesCons(fields);
      ValuesCons(entities);
    } else {
      assert EntitiesToDict(entities).fields == [] && Values(entities) == [];
    }
  }

  /** The "dependencies" member reads back as the same edges, in list order. */
  lemma {:induction false} DependenciesRoundTrip(deps: seq<EntityDependency>)
    ensures ParseDependencies(DependenciesToDict(deps).items) == Ok(deps)
  {
    if |deps| > 0 {
      assert DependenciesToDict(deps).items[1..] == DependenciesToDict(deps[1..]).items;
      DependencyRoundTrip(deps[0]);
      DependenciesRoundTrip(deps[1..]);
      assert [deps[0]] + deps[1..] == deps;
    }
  }

  /** A text field written with `OptText` reads back as written, whatever the default. */
  lemma OptionalTextOf(j: Json, key: string, default: Option<string>, o: Option<string>)
    requires Member(j, key) == Some(OptText(o))
    ensures OptionalText(j, key, default) == Ok(o)
  {
  }

  /** Each key of an exported document finds the field written under it. */
  lemma ConfigFields(h: ConfigHeader, entities: Dict<string, HealthModelEntity>, deps: seq<EntityDependency>)
    ensures var j := ConfigToDict(h, entities, deps);
      && Member(j, "modelId") == Some(OptText(h.modelId))
      && Member(j, "modelName") == Some(OptText(h.modelName))
      && Member(j, "description") == Some(OptText(h.description))
      && Member(j, "ownerTeam") == Some(OptText(h.ownerTeam))
      && Member(j, "version") == Some(OptText(h.version))
      && Member(j, "createdAt") == Some(OptText(h.createdAt))
      && Member(j, "lastModified") == Some(OptText(h.lastModified))
      && Member(j, "entities") == Some(EntitiesToDict(entities))
      && Member(j, "dependencies") == Some(DependenciesToDict(deps))
  {
    var j := ConfigToDict(h, entities, deps);
    ConfigKeysDistinct();
    DistinctKeys(j.fields);
    MemberUnique(j, 0);
    MemberUnique(j, 1);
    MemberUnique(j, 2);
    MemberUnique(j, 3);
    MemberUnique(j, 4);
    MemberUnique(j, 5);
    MemberUnique(j, 6);
    MemberUnique(j, 7);
    MemberUnique(j, 8);
  }

  /** The descriptive fields of an exported document read back unchanged. */
  lemma HeaderRoundTrip(h: ConfigHeader, entities: Dict<string, HealthModelEntity>, deps: seq<EntityDependency>)
    ensures ParseHeader(ConfigToDict(h, entities, deps)) == Ok(h)
  {
    var j := ConfigToDict(h, entities, deps);
    ConfigFields(h, entities, deps);
    OptionalTextOf(j, "modelId", None, h.modelId);
    OptionalTextOf(j, "modelName", None, h.modelName);
    OptionalTextOf(j, "description", None, h.description);
    OptionalTextOf(j, "ownerTeam", None, h.ownerTeam);
    OptionalTextOf(j, "version", Some("1.0.0"), h.version);
    OptionalTextOf(j, "createdAt", None, h.createdAt);
    OptionalTextOf(j, "lastModified", None, h.lastModified);
  }

  /** The whole exported document reads back as the same header, entities and edges. */
  lemma ConfigRoundTrip(h: ConfigHeader, entities: Dict<string, HealthModelEntity>, deps: seq<EntityDependency>)
    ensures ParseConfig(ConfigToDict(h, entities, deps)) == Ok(ConfigDocument(h, Values(entities), deps))
  {
    HeaderRoundTrip(h, entities, deps);
    ConfigFields(h, entities, deps);
    EntitiesRoundTrip(entities);
    DependenciesRoundTrip(deps);
  }

  /**
   * Adding a table's entities one by one onto a table whose ids they do not clash
   * with appends them in the same order.
   */
  lemma {:induction false} AddAllKeyed(acc: Dict<string, HealthModelEntity>, rest: Dict<string, HealthModelEntity>)
    requires KeyedById(acc + rest)
    ensures AddAll(acc, Values(rest)) == acc + rest
    decreases |rest|
  {
    if |rest| > 0 {
      var all := acc + rest;
      var e := rest[0];
      assert all[|acc|] == e;
      assert e.1.id == e.0;
      forall i | 0 <= i < |acc| ensures Keys(acc)[i] != e.0 {
        assert all[i] == acc[i];
      }
      PutAbsent(acc, e.0, e.1);
      assert Values(rest)[1..] == Values(rest[1..]);
      assert (acc + [e]) + rest[1..] == all;
      AddAllKeyed(acc + [e], rest[1..]);
    } else {
      assert acc + rest == acc;
    }
  }

  /**
   * Loading an exported configuration rebuilds the same entity table, the same edges
   * and the same descriptive fields.
   */
  lemma ReloadRoundTrip(h: ConfigHeader, entities: Dict<string, HealthModelEntity>, deps: seq<EntityDependency>)
    requires KeyedById(entities)
    ensures ParseConfig(ConfigToDict(h, entities, deps)).Ok?
    ensures var doc := ParseConfig(ConfigToDict(h, entities, deps)).value;
      AddAll([], doc.entities) == entities && doc.dependencies == deps && doc.header == h
  {
    ConfigRoundTrip(h, entities, deps);
    assert [] + entities == entities;
    AddAllKeyed([], entities);
  }

  /**
   * Loading fills in what a document leaves out: an entity given only its id, name,
   * type and description has no parent, no resource id, no signals and no metadata; an
   * edge given only its two ends is "direct" and "high"; a document without a version
   * is version "1.0.0".
   */
  lemma LoadingDefaults(id: string, name: string, t: EntityType, description: string, source: string, target: string)
    ensures ParseEntity(JObj([("id", JStr(id)), ("name", JStr(name)), ("type", JStr(t.Value())),
                              ("description", JStr(description))]))
      == Ok(HealthModelEntity(id, name, t, description, None, None, [], []))
    ensures ParseDependency(JObj([("sourceEntityId", JStr(source)), ("targetEntityId", JStr(target))]))
      == Ok(EntityDependency(source, target, "direct", "high"))
    ensures ParseHeader(JObj([])) == Ok(ConfigHeader(None, None, None, None, Some("1.0.0"), None, None))
  {
    EntityDefaults(id, name, t, description);
    DependencyDefaults(source, target);
  }

  lemma EntityDefaults(id: string, name: string, t: EntityType, description: string)
    ensures ParseEntity(JObj([("id", JStr(id)), ("name", JStr(name)), ("type", JStr(t.Value())),
                              ("description", JStr(description))]))
      == Ok(HealthModelEntity(id, name, t, description, None, None, [], []))
  {
    var e := JObj([("id", JStr(id)), ("name", JStr(name)), ("type", JStr(t.Value())), ("description", JStr(description))]);
    MemberAt(e, "id", 0);
    MemberAt(e, "name", 1);
    MemberAt(e, "type", 2);
    MemberAt(e, "description", 3);
    EntityTypeValues(t.Value(), t);
    assert Keys(e.fields) == ["id", "name", "type", "description"];
    GetFound(e.fields, "parentEntityId");
    GetFound(e.fields, "azureResourceId");
    GetFound(e.fields, "signals");
    GetFound(e.fields, "metadata");
  }

  lemma DependencyDefaults(source: string, target: string)
    ensures ParseDependency(JObj([("sourceEntityId", JStr(source)), ("targetEntityId", JStr(target))]))
      == Ok(EntityDependency(source, target, "direct", "high"))
  {
    var d := JObj([("sourceEntityId", JStr(source)), ("targetEntityId", JStr(target))]);
    MemberAt(d, "sourceEntityId", 0);
    MemberAt(d, "targetEntityId", 1);
    assert Keys(d.fields) == ["sourceEntityId", "targetEntityId"];
    GetFound(d.fields, "dependencyType");
    GetFound(d.fields, "criticality");
  }

  /** An entity whose "type" is not the value of any entity type is rejected, naming the value. */
  lemma UnknownTypeRejected(j: Json, s: string)
    requires j.JObj? && RequiredText(j, "id").Ok? && RequiredText(j, "name").Ok?
    requires Member(j, "type") == Some(JStr(s))
    requires forall t: EntityType :: t.Value() != s
    ensures ParseEntity(j) == Err(UnknownEntityType(JStr(s)))
  {
    if EntityTypeOf(s).Some? {
      EntityTypeValues(s, EntityTypeOf(s).value);
    }
  }

  // ---------------------------------------------------------------------------
  // Example configurations
  // ---------------------------------------------------------------------------

  /** The table `add_entity` builds from entities with distinct ids. */
  function Table(es: seq<HealthModelEntity>): (r: Dict<string, HealthModelEntity>)
    ensures |r| == |es| && Values(r) == es
    ensures forall i :: 0 <= i < |es| ==> r[i].0 == es[i].id && r[i].1 == es[i]
  {
    seq(|es|, i requires 0 <= i < |es| => (es[i].id, es[i]))
  }

  /** Entities with pairwise distinct ids make a table keyed by those ids, as `add_entity` requires. */
  lemma TableKeyed(es: seq<HealthModelEntity>)
    requires forall i, j :: 0 <= i < j < |es| ==> es[i].id != es[j].id
    ensures KeyedById(Table(es))
  {
    var t := Table(es);
    forall i, j | 0 <= i < j < |t| ensures t[i].0 != t[j].0 {
      assert t[i].0 == es[i].id && t[j].0 == es[j].id;
    }
  }

  /** Every parent named in the table is an entity of the table. */
  ghost predicate ParentsResolve(entities: Dict<string, HealthModelEntity>) {
    forall i :: 0 <= i < |entities| && entities[i].1.parentEntityId.Some? ==>
      entities[i].1.parentEntityId.value in Keys(entities)
  }

  /** Both ends of every edge are entities of the table. */
  ghost predicate EdgesResolve(entities: Dict<string, HealthModelEntity>, deps: seq<EntityDependency>) {
    forall i :: 0 <= i < |deps| ==>
      deps[i].sourceEntityId in Keys(entities) && deps[i].targetEntityId in Keys(entities)
  }

  const EcommerceRoot := HealthModelEntity("ecommerce-root", "E-Commerce Workload", Workload,
    "Overall e-commerce platform health")
  const ApiGateway := HealthModelEntity("api-service", "API Gateway", Api,
    "REST API serving all client requests", Some("ecommerce-root"),
    signals := [("response_time", "api_response_time_p95"), ("error_rate", "api_error_rate"),
                ("availability", "api_availability")])
  const ProductService := HealthModelEntity("product-service", "Product Service", Service,
    "Manages product catalog and information", Some("ecommerce-root"),
    signals := [("response_time", "product_response_time"), ("error_rate", "product_error_rate")])
  const OrderService := HealthModelEntity("order-service", "Order Service", Service,
    "Handles order processing and management", Some("ecommerce-root"),
    signals := [("response_time", "order_response_time"), ("error_rate", "order_error_rate")])
  const PaymentService := HealthModelEntity("payment-service", "Payment Service", Service,
    "Processes payment transactions", Some("ecommerce-root"),
    signals := [("availability", "payment_availability"), ("error_rate", "payment_error_rate")])
  const ProductDb := HealthModelEntity("product-db", "Product Database", Database,
    "PostgreSQL database for product data", Some("product-service"),
    Some("/subscriptions/{sub}/resourceGroups/{rg}/providers/Microsoft.DBforPostgreSQL/servers/product-db"),
    [("connection_pool", "product_db_conn_pool"), ("query_latency", "product_db_latency")])
  const OrderDb := HealthModelEntity("order-db", "Order Database", Database,
    "Database for order data", Some("order-service"),
    signals := [("connection_pool", "order_db_conn_pool"), ("query_latency", "order_db_latency")])
  const CacheLayer := HealthModelEntity("cache-layer", "Redis Cache", Cache,
    "Distributed cache for performance", Some("ecommerce-root"),
    signals := [("availability", "cache_availability"), ("latency", "cache_latency")])
  const ServiceBus := HealthModelEntity("service-bus", "Service Bus", MessageQueue,
    "Azure Service Bus for asynchronous processing", Some("ecommerce-root"),
    signals := [("availability", "bus_availability"), ("queue_depth", "bus_queue_depth")])

  const EcommerceEntities: seq<HealthModelEntity> :=
    [EcommerceRoot, ApiGateway, ProductService, OrderService, PaymentService, ProductDb, OrderDb,
     CacheLayer, ServiceBus]

  const EcommerceDependencies: seq<EntityDependency> := [
    EntityDependency("product-service", "api-service", criticality := "high"),
    EntityDependency("order-service", "api-service", criticality := "high"),
    EntityDependency("payment-service", "order-service", criticality := "critical"),
    EntityDependency("product-db", "product-service", criticality := "high"),
    EntityDependency("order-db", "order-service", criticality := "high"),
    EntityDependency("cache-layer", "product-service", "optional", "medium"),
    EntityDependency("service-bus", "order-service", "direct", "high")
  ]

  /** The ids of the e-commerce example's entities, in the order they are added. */
  const EcommerceIds: seq<string> :=
    ["ecommerce-root", "api-service", "product-service", "order-service", "payment-service",
     "product-db", "order-db", "cache-layer", "service-bus"]

  lemma EcommerceIdsDistinct()
    ensures Distinct(EcommerceIds)
  {
  }

  lemma EcommerceTableKeys()
    ensures Keys(Table(EcommerceEntities)) == EcommerceIds
  {
  }

  /**
   * The e-commerce example is well formed: nine entities under distinct ids, every
   * parent and both ends of each of the seven edges are entities of the model.
   */
  lemma EcommerceWellFormed()
    ensures |EcommerceEntities| == 9 && |EcommerceDependencies| == 7
    ensures KeyedById(Table(EcommerceEntities))
    ensures ParentsResolve(Table(EcommerceEntities))
    ensures EdgesResolve(Table(EcommerceEntities), EcommerceDependencies)
  {
    EcommerceTableKeys();
    EcommerceIdsDistinct();
    DistinctKeys(Table(EcommerceEntities));
  }

  /** `create_ecommerce_health_model` */
  method CreateEcommerceHealthModel(now: string) returns (config: HealthModelConfig)
    ensures fresh(config) && config.Valid()
    ensures config.entities == Table(EcommerceEntities) && config.dependencies == EcommerceDependencies
    ensures config.Header() == ConfigHeader(Some("ecommerce-prod"), Some("E-Commerce Production"),
      Some("Health model for e-commerce platform"), Some("Platform Engineering"), Some("1.0.0"), Some(now), Some(now))
  {
    config := new HealthModelConfig("ecommerce-prod", "E-Commerce Production",
      "Health model for e-commerce platform", "Platform Engineering", now);
    EcommerceWellFormed();
    // The nine `add_entity` calls and the seven `add_dependency` calls, in source order.
    AddEntities(config, EcommerceEntities, now);
    AddDependencies(config, EcommerceDependencies, now);
  }

  /** `add_entity` called for each entity in turn, none of whose ids is already taken. */
  method AddEntities(config: HealthModelConfig, es: seq<HealthModelEntity>, now: string)
    requires config.Valid() && config.lastModified == Some(now)
    requires KeyedById(config.entities + Table(es))
    modifies config
    ensures config.Valid() && config.entities == old(config.entities) + Table(es)
    ensures config.dependencies == old(config.dependencies) && config.Header() == old(config.Header())
  {
    ghost var t0 := config.entities;
    var t := Table(es);
    for i := 0 to |es|
      invariant config.Valid() && config.entities == t0 + t[..i]
      invariant config.dependencies == old(config.dependencies) && config.Header() == old(config.Header())
    {
      forall k | 0 <= k < |t0| + i ensures Keys(config.entities)[k] != es[i].id {
        assert config.entities[k] == (t0 + t)[k];
        assert (t0 + t)[|t0| + i] == t[i];
      }
      config.AddEntity(es[i], now);
      assert t[..i + 1] == t[..i] + [t[i]];
    }
    assert t[..|es|] == t;
  }

  /** `add_dependency` called for each edge in turn. */
  method AddDependencies(config: HealthModelConfig, ds: seq<EntityDependency>, now: string)
    requires config.Valid()
    modifies config
    ensures config.Valid() && config.dependencies == old(config.dependencies) + ds
    ensures config.entities == old(config.entities)
    ensures config.Header() == old(config.Header()).(lastModified :=
              if |ds| > 0 then Some(now) else old(config.lastModified))
  {
    for i := 0 to |ds|
      invariant config.Valid() && config.dependencies == old(config.dependencies) + ds[..i]
      invariant config.entities == old(config.entities)
      invariant config.Header() == old(config.Header()).(lastModified :=
                  if i > 0 then Some(now) else old(config.lastModified))
    {
      config.AddDependency(ds[i], now);
      assert ds[..i + 1] == ds[..i] + [ds[i]];
    }
    assert ds[..|ds|] == ds;
  }

  const PlatformRoot := HealthModelEntity("platform-root", "Microservices Platform", Workload,
    "Overall platform health")

  /** The (id, name, description) of each service of the microservices example. */
  const Microservices: seq<(string, string, string)> := [
    ("user-service", "User Service", "Manages user accounts and profiles"),
    ("notification-service", "Notification Service", "Sends notifications"),
    ("analytics-service", "Analytics Service", "Tracks user analytics")
  ]

  /** A service of the microservices example: its signal ids are derived from its own id. */
  function Microservice(service: (string, string, string)): (e: HealthModelEntity)
    ensures e.id == service.0 && e.name == service.1 && e.entityType == Service && e.description == service.2
    ensures e.parentEntityId == Some("platform-root") && e.azureResourceId == None && e.metadata == []
    ensures e.signals == [("response_time", service.0 + "_response_time"), ("error_rate", service.0 + "_error_rate"),
                          ("availability", service.0 + "_availability")]
    ensures Keys(e.signals) == ["response_time", "error_rate", "availability"]
    ensures forall i :: 0 <= i < |e.signals| ==> StartsWith(e.signals[i].1, service.0 + "_")
  {
    var (id, name, desc) := service;
    var e := HealthModelEntity(id, name, Service, desc, Some("platform-root"),
      signals := [("response_time", id + "_response_time"), ("error_rate", id + "_error_rate"),
                  ("availability", id + "_availability")]);
    assert forall i :: 0 <= i < |e.signals| ==> e.signals[i].1[..|id + "_"|] == id + "_";
    e
  }

  const MicroservicesEntities: seq<HealthModelEntity> :=
    [PlatformRoot] + seq(|Microservices|, i requires 0 <= i < |Microservices| => Microservice(Microservices[i]))

  /** The microservices example: the root and three services, each a child of the root. */
  lemma MicroservicesWellFormed()
    ensures |MicroservicesEntities| == 4
    ensures KeyedById(Table(MicroservicesEntities))
    ensures ParentsResolve(Table(MicroservicesEntities))
    ensures forall i :: 1 <= i < 4 ==> MicroservicesEntities[i].parentEntityId == Some("platform-root")
  {
    var t := Table(MicroservicesEntities);
    assert Keys(t) == ["platform-root", "user-service", "notification-service", "analytics-service"];
  }

  /** The i-th service is new to the table built so far, and adding it extends the table by one. */
  lemma MicroserviceAdded(i: nat)
    requires i < |Microservices|
    ensures var t := Table(MicroservicesEntities);
      var service := Microservice(Microservices[i]);
      && t[i + 1] == (service.id, service)
      && service.id !in Keys(t[..i + 1])
      && Put(t[..i + 1], service.id, service) == t[..i + 2]
  {
    var t := Table(MicroservicesEntities);
    var service := Microservice(Microservices[i]);
    MicroservicesWellFormed();
    assert t[i + 1] == (service.id, service);
    var prefix := t[..i + 1];
    forall k | 0 <= k < |prefix| ensures Keys(prefix)[k] != service.id {
      assert t[k].0 != t[i + 1].0;
    }
    PutAbsent(prefix, service.id, service);
    assert t[..i + 2] == t[..i + 1] + [t[i + 1]];
  }

  /** `create_microservices_health_model` */
  method CreateMicroservicesHealthModel(now: string) returns (config: HealthModelConfig)
    ensures fresh(config) && config.Valid()
    ensures config.entities == Table(MicroservicesEntities) && config.dependencies == []
    ensures config.Header() == ConfigHeader(Some("microservices-prod"), Some("Microservices Platform"),
      Some("Health model for microservices architecture"), Some("SRE Team"), Some("1.0.0"), Some(now), Some(now))
  {
    config := new HealthModelConfig("microservices-prod", "Microservices Platform",
      "Health model for microservices architecture", "SRE Team", now);
    ghost var header := config.Header();
    var t := Table(MicroservicesEntities);
    config.AddEntity(PlatformRoot, now);
    for i := 0 to |Microservices|
      invariant config.Valid() && config.entities == t[..i + 1] && config.dependencies == []
      invariant config.Header() == header
    {
      var service := Microservice(Microservices[i]);
      MicroserviceAdded(i);
      config.AddEntity(service, now);
    }
    assert t[..|Microservices| + 1] == t;
  }
}
