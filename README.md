# healthmodel in Dafny

A Dafny model of the core of `healthmodel`, a Python toolkit for Azure Monitor health
models. The toolkit has five parts, and this project has one module for each:

- `Signals`: the health-signal catalogue. It covers signal and threshold types, their
  `to_dict` shapes, the stock signal factories and the four `SignalCollection` catalogues.
- `ModelConfig`: the health-model configuration. It covers entities, dependencies, the
  dependency queries, `to_dict`, and loading a configuration back from its JSON form. It
  also includes the two example models (e-commerce and microservices).
- `StateClient`: the REST client for entity health states. It covers URL building,
  response normalisation into `state` / `state_code` / `state_color`, error documents,
  and the all-entities snapshot.
- `Env`: the `.env` loader. It covers line parsing, quote stripping, the effect of
  loading on the loader's table and on the process environment, `get`,
  `get_azure_config` and `validate`.
- `Integration`: the unified `HealthModelIntegration` facade. It covers entity and
  workload health, the health tree, dependency impact, the health summary, the critical
  path and signal definitions.

Supporting modules:

- `Wrappers`: `Option` and `Result`.
- `Dicts`: Python's insertion-ordered `dict` as a sequence of pairs. `Put` overwrites a
  key in place or appends it; `Get` finds the entry.
- `Text`: `strip`, ASCII `upper` / `lower`, and prefix and suffix tests.
- `Json`: JSON values and member lookup.

Modelling choices:

- **Mutable objects are classes.** `HealthModelConfig`, `EnvLoader`, the process
  environment and `HealthModelIntegration` are classes, and the methods that change
  them have `modifies` clauses. Value records (entities, dependencies, signals,
  thresholds, health documents) are datatypes.
- **Loops stay loops.** Where the source loops (the `_load_env` loop, `validate`,
  `load_from_json`, the example builders, the integration queries), the model has a
  method with a loop. Each such method is proved against a specification function.
- **HTTP replies are inputs.** The reply to an HTTP request is a parameter of type
  `Result<Json, string>`; `Err` stands for a `RequestException`. The all-entities
  snapshot used by the integration queries is a parameter too.
- **The clock is an input.** Reading the clock is a `now` parameter.
- **Python exceptions are results.** Exceptions the code can raise become `Err` values:
  - `AttributeError` when a reply is not a JSON object;
  - `TypeError` when an entity id in the snapshot is a list or an object (unhashable);
  - the exception `os.environ` raises when an export is refused: `OSError` from `setenv` for an empty name, `ValueError` for a NUL character;
  - `KeyError` and `ValueError` while loading a configuration.

## Model

| member | source | states |
|---|---|---|
| Signals.OperatorCodes | healthmodel/src/signals/health_signals.py:22-29 | each threshold operator is found again from its code, and two operators share a code only if they are the same operator |
| Signals.SignalTypeValues | healthmodel/src/signals/health_signals.py:14-19 | each signal type is found again from its value, and two types share a value only if they are the same type |
| Signals.ThresholdToDict | healthmodel/src/signals/health_signals.py:43-53 | the dict has exactly the six bound keys and `operator`, in source order |
| Signals.ThresholdRoundTrip | healthmodel/src/signals/health_signals.py:43-53 | reading back a threshold's dict gives the same threshold: unset bounds become null, and no bound and no operator is lost |
| Signals.DefaultThreshold | healthmodel/src/signals/health_signals.py:33-41 | a threshold built without arguments serialises with every bound null and the operator "gt" |
| Signals.SignalToDict | healthmodel/src/signals/health_signals.py:67-77 | the dict has exactly the keys name, type, displayName, description, thresholds, enabled and weight |
| Signals.SignalRoundTrip | healthmodel/src/signals/health_signals.py:67-77 | the dict nests the threshold's own dict and the type's value, and reads back to the same signal |
| Signals.SignalDefaults | healthmodel/src/signals/health_signals.py:57-65 | a signal built without `enabled` and `weight` is enabled with weight 1.0 |
| Signals.CustomBusinessMetricSignal | healthmodel/src/signals/health_signals.py:337-368 | a custom-typed, enabled signal with the given names and weight; only healthy_min and degraded_min are set, and the operator is "gt" |
| Signals.VmCatalogue | healthmodel/src/signals/health_signals.py:378-386 | the VM catalogue has 4 distinct keys, and its "cpu" and "memory" entries are the stock CPU and memory signals |
| Signals.WebServiceCatalogue | healthmodel/src/signals/health_signals.py:388-398 | the web-service catalogue has 6 distinct keys, and its "cpu" and "memory" entries are the stock CPU and memory signals |
| Signals.DatabaseCatalogue | healthmodel/src/signals/health_signals.py:400-409 | the database catalogue has 5 distinct keys, and its "cpu" and "memory" entries are the stock CPU and memory signals |
| Signals.AppServiceCatalogue | healthmodel/src/signals/health_signals.py:411-420 | the app-service catalogue has 5 distinct keys, and its "cpu" and "memory" entries are the stock CPU and memory signals |
| ModelConfig.EntityTypeValues | healthmodel/src/models/health_model_config.py:15-26 | `EntityType(value)` finds a member exactly when that member's value is `value` |
| ModelConfig.DependenciesOf | healthmodel/src/models/health_model_config.py:87-89 | holds exactly the dependencies whose target is the entity, and is no longer than the dependency list |
| ModelConfig.DependentsOf | healthmodel/src/models/health_model_config.py:91-93 | holds exactly the dependencies whose source is the entity, and is no longer than the dependency list |
| ModelConfig.QueriesDistribute | healthmodel/src/models/health_model_config.py:87-93 | both queries distribute over concatenation of the dependency list, keeping list order |
| ModelConfig.QueriesPartition | healthmodel/src/models/health_model_config.py:87-93 | each query keeps every matching dependency as often as the list has it, and no other dependency |
| ModelConfig.EntityToDict | healthmodel/src/models/health_model_config.py:50-61 | the dict has exactly the eight entity keys, in source order |
| ModelConfig.DependencyToDict | healthmodel/src/models/health_model_config.py:106-114 | the dict has exactly sourceEntityId, targetEntityId, dependencyType and criticality |
| ModelConfig.EntitiesToDict | healthmodel/src/models/health_model_config.py:105 | the `entities` object has the configuration's entity ids as keys, in insertion order |
| ModelConfig.DependenciesToDict | healthmodel/src/models/health_model_config.py:106-114 | the `dependencies` array has one element per dependency |
| ModelConfig.ConfigToDict | healthmodel/src/models/health_model_config.py:95-115 | the dict has exactly the nine configuration keys, in source order |
| ModelConfig.HealthModelConfig.constructor | healthmodel/src/models/health_model_config.py:65-75 | a new configuration is empty, has version "1.0.0", and has both timestamps set to `now` |
| ModelConfig.HealthModelConfig.FromHeader | healthmodel/src/models/health_model_config.py:128-136 | a configuration built from loaded header fields is empty and carries exactly those fields |
| ModelConfig.HealthModelConfig.AddEntity | healthmodel/src/models/health_model_config.py:77-80 | the entity is stored under its id; a new id is appended, an existing id is overwritten in place, every other id keeps its entity, and last_modified becomes `now` |
| ModelConfig.HealthModelConfig.AddDependency | healthmodel/src/models/health_model_config.py:82-85 | the dependency is appended, the entities are unchanged, and last_modified becomes `now` |
| ModelConfig.AddDependencyQueries | healthmodel/src/models/health_model_config.py:82-93 | after an append, each query gains the new dependency at its end exactly when it matches |
| ModelConfig.ParseEntities | healthmodel/src/models/health_model_config.py:139-149 | a successful load yields one entity per entry of the `entities` object |
| ModelConfig.ParseDependencies | healthmodel/src/models/health_model_config.py:153-159 | a successful load yields one dependency per element of the `dependencies` array |
| ModelConfig.LoadFromJson | healthmodel/src/models/health_model_config.py:123-162 | the first error in the document is returned; otherwise a fresh configuration has the loaded header (last_modified becomes `now` once anything is added), every entity added under its id in file order, and the dependencies in file order |
| ModelConfig.TextDictRoundTrip | healthmodel/src/models/health_model_config.py:47-48 | a string-to-string dict (the signals of an entity) reads back unchanged |
| ModelConfig.EntityRoundTrip | healthmodel/src/models/health_model_config.py:140-149 | loading an entity's `to_dict` gives the same entity |
| ModelConfig.DependencyRoundTrip | healthmodel/src/models/health_model_config.py:154-159 | loading a dependency's dict gives the same dependency |
| ModelConfig.EntitiesRoundTrip | healthmodel/src/models/health_model_config.py:139-150 | loading the `entities` object gives the entities in insertion order |
| ModelConfig.DependenciesRoundTrip | healthmodel/src/models/health_model_config.py:153-160 | loading the `dependencies` array gives the same dependencies in order |
| ModelConfig.HeaderRoundTrip | healthmodel/src/models/health_model_config.py:128-136 | the header fields of `to_dict` load back unchanged |
| ModelConfig.ConfigRoundTrip | healthmodel/src/models/health_model_config.py:95-160 | loading `to_dict` gives back the header, the entities and the dependencies |
| ModelConfig.AddAllKeyed | healthmodel/src/models/health_model_config.py:139-150 | adding entities keyed by their own ids one by one rebuilds the same ordered table |
| ModelConfig.ReloadRoundTrip | healthmodel/src/models/health_model_config.py:95-162 | a configuration whose entities are keyed by their ids is rebuilt exactly, entity table included, by loading its `to_dict` |
| ModelConfig.LoadingDefaults | healthmodel/src/models/health_model_config.py:133-158 | absent optional keys load as the source's defaults: no parent, no resource id, no signals or metadata, dependency type "direct", criticality "high", version "1.0.0" |
| ModelConfig.UnknownTypeRejected | healthmodel/src/models/health_model_config.py:143 | an entity whose `type` is no EntityType value is refused with that value as the error |
| ModelConfig.Table | healthmodel/src/models/health_model_config.py:77-80 | the entities keyed by their own ids: entry i has the id of entity i as key and that entity as value, so keys and values follow the given order |
| ModelConfig.TableKeyed | healthmodel/src/models/health_model_config.py:77-80 | entities with pairwise distinct ids give a table in which each entry is stored under its entity's own id with no repeated key |
| ModelConfig.EcommerceWellFormed | healthmodel/src/models/health_model_config.py:169-357 | the e-commerce example has 9 entities with distinct ids, every parent and every dependency end names one of them, and it has 7 dependencies |
| ModelConfig.CreateEcommerceHealthModel | healthmodel/src/models/health_model_config.py:169-357 | builds the e-commerce header, the entity table in source order and the dependencies in source order |
| ModelConfig.Microservice | healthmodel/src/models/health_model_config.py:389-401 | a Service entity with the given id, name and description, parent platform-root, no resource id and no metadata, and exactly the signals response_time, error_rate and availability mapped to the service id followed by `_response_time`, `_error_rate` and `_availability` |
| ModelConfig.MicroservicesWellFormed | healthmodel/src/models/health_model_config.py:360-404 | the microservices example has 4 entities with distinct ids, its parents resolve, and every service hangs off platform-root |
| ModelConfig.CreateMicroservicesHealthModel | healthmodel/src/models/health_model_config.py:360-404 | builds the microservices header and the entity table, with no dependencies |
| StateClient.StateNamed | healthmodel/src/api/health_state_client.py:18-23 | `HealthState[name]` finds the member with that name, and finds it whenever one exists |
| StateClient.StateOf | healthmodel/src/api/health_state_client.py:222-228 | a string whose upper case names a state maps to that state; anything else maps to UNKNOWN |
| StateClient.StateTables | healthmodel/src/api/health_state_client.py:18-23 | each state's name is the upper case of its value, and names and colours are one-to-one |
| StateClient.StateIgnoresCase | healthmodel/src/api/health_state_client.py:225-226 | spellings that agree in upper case map to the same state |
| StateClient.StateOfValue | healthmodel/src/api/health_state_client.py:225-226 | a state's value, its lower-case value and its name all map back to that state |
| StateClient.HealthySpellings | healthmodel/src/api/health_state_client.py:222-228 | "healthy", "Healthy" and "HEALTHY" are Healthy; "ok", null and numbers are Unknown |
| StateClient.HealthStateClient.ModelPath | healthmodel/src/api/health_state_client.py:68-71 | the model path is exactly `{base}/subscriptions/{subscription}/resourceGroups/{group}/providers/Microsoft.CloudHealth/healthmodels/{name}/`; hence it starts with the base URL and the subscription, and ends with the health-model segment |
| StateClient.HealthStateClient.BuildUrl | healthmodel/src/api/health_state_client.py:64-73 | the URL is the model path followed by the endpoint, with nothing in between |
| StateClient.UrlPrefix | healthmodel/src/api/health_state_client.py:64-73 | all URLs of a client share the model path, and two endpoints give the same URL only if they are equal |
| StateClient.RootUrl | healthmodel/src/api/health_state_client.py:116-129 | the root entity is queried at the model path followed by `entities/root` |
| StateClient.NormalizeResponse | healthmodel/src/api/health_state_client.py:216-247 | succeeds exactly when the document and its properties are objects, and then has the eight normalised keys in source order |
| StateClient.NormalizedFields | healthmodel/src/api/health_state_client.py:222-247 | state, state_code and state_color come from one mapped state; the id, name, timestamp (default `now`), signals (default empty) and details (the properties) are carried over |
| StateClient.NormalizeWithoutProperties | healthmodel/src/api/health_state_client.py:222-246 | a document without properties normalises to Unknown / UNKNOWN / gray, stamped `now`, with no signals and empty details |
| StateClient.ErrorResponse | healthmodel/src/api/health_state_client.py:249-258 | the error document has exactly the six error keys, in source order |
| StateClient.ErrorResponseFields | healthmodel/src/api/health_state_client.py:249-258 | the error document reports Unknown / UNKNOWN / gray and carries the entity id and the error text |
| StateClient.EntityHealthState | healthmodel/src/api/health_state_client.py:105-114 | a failed request yields the error document; a successful one yields the normalised reply |
| StateClient.RootEntityHealth | healthmodel/src/api/health_state_client.py:116-129 | a successful root query yields the normalised reply (or its AttributeError); a failed one yields the error document for "root" with the error text, whose entity_id is "root" |
| StateClient.GetAllEntitiesHealth | healthmodel/src/api/health_state_client.py:199-214 | a failed request yields an empty snapshot; otherwise every `value` item is normalised and stored under its id, stopping at the first item that raises, including a TypeError for an id that is a list or an object |
| StateClient.KeyedLastWins | healthmodel/src/api/health_state_client.py:206-208 | the snapshot's keys are distinct, and an id holds the normalised form of the last item with that id |
| StateClient.KeyedUnique | healthmodel/src/api/health_state_client.py:204-210 | the snapshot has no duplicate ids, and every id in it is hashable (neither a list nor an object) |
| StateClient.UnhashableIdRaises | healthmodel/src/api/health_state_client.py:206-208 | an item whose reply normalises but whose id is a list or an object makes the snapshot raise TypeError |
| StateClient.KeyedStopsAtError | healthmodel/src/api/health_state_client.py:206-208 | once an item raises, the items after it do not matter |
| Env.Inner | healthmodel/src/config/env_loader.py:54 | `value[1:-1]`: the value without its first and last characters, or empty when it is shorter than two |
| Env.Unquote | healthmodel/src/config/env_loader.py:52-56 | removes matching double quotes first, else matching single quotes, else returns the value unchanged |
| Env.ParseLine | healthmodel/src/config/env_loader.py:40-56 | a line assigns something exactly when, once stripped, it is non-empty, is not a comment and holds an '=' |
| Env.ParseLineAt | healthmodel/src/config/env_loader.py:47-56 | the key is the stripped text before the first '='; the value is the stripped, unquoted text after it |
| Env.ParseAssignment | healthmodel/src/config/env_loader.py:47-56 | a stripped `key=value` line gives that key and the unquoted value |
| Env.SplitAtFirstEquals | healthmodel/src/config/env_loader.py:48-50 | an unquoted value that contains '=' is kept whole, because only the first '=' splits |
| Env.DoubleQuotedValue | healthmodel/src/config/env_loader.py:53-54 | any value written between double quotes reads back exactly, including quotes and '=' inside it |
| Env.LoneQuote | healthmodel/src/config/env_loader.py:53-54 | a value that is a single `"` passes both quote tests and reads as the empty string |
| Env.SkippedLines | healthmodel/src/config/env_loader.py:42-47 | blank lines, comments and lines without '=' assign nothing |
| Env.Assignments | healthmodel/src/config/env_loader.py:39-56 | one parse result per line of the file, result i being the parse of line i |
| Env.LastAssignment | healthmodel/src/config/env_loader.py:58 | the value found is that of some assignment to the key after which no line assigns the key again; none is found only when no line assigns the key |
| Env.RaisedStays | healthmodel/src/config/env_loader.py:58-61 | once an export has raised, the remaining lines change nothing |
| Env.LoadAllAppend | healthmodel/src/config/env_loader.py:39-61 | loading the lines in two parts is loading them all |
| Env.LastAssignmentWins | healthmodel/src/config/env_loader.py:58 | after a complete load, the loader's table holds each key's last assigned value, and keys nothing assigns keep their value |
| Env.ExportsNonEmpty | healthmodel/src/config/env_loader.py:59-61 | every process-environment entry that loading changed holds a non-empty value |
| Env.LastValueExported | healthmodel/src/config/env_loader.py:58-61 | after a complete load, a key whose last value is non-empty has that value in the process environment |
| Env.EnvLoader.constructor | healthmodel/src/config/env_loader.py:27-28 | a loader starts with an empty table over the given process environment |
| Env.EnvLoader.LoadEnv | healthmodel/src/config/env_loader.py:31-61 | no file changes nothing; otherwise the table, the environment and the key that raised are those of loading the file's assignments in order |
| Env.EnvLoader.Apply | healthmodel/src/config/env_loader.py:39-61 | the loop's table, environment and raising key are those of applying the assignments in order, stopping at the first export that raises |
| Env.EnvLoader.Get | healthmodel/src/config/env_loader.py:91-93 | the file's value if the file set the key, else the process environment's, else the default |
| Env.EnvLoader.GetAzureConfig | healthmodel/src/config/env_loader.py:95-102 | the four Azure keys in order, each with the value `get` gives it; subscription, group and model name default to None, tenantId to "", so tenantId is "" when neither the file nor the environment sets it |
| Env.EnvLoader.Validate | healthmodel/src/config/env_loader.py:104-121 | reports the required keys that look up to nothing or "", in order; valid exactly when none is missing |
| Env.MissingKeys | healthmodel/src/config/env_loader.py:112-115 | holds exactly the listed keys that are missing |
| Env.MissingKeysEmpty | healthmodel/src/config/env_loader.py:112-121 | nothing is missing exactly when every listed key has a non-empty value |
| Env.EmptyFileValue | healthmodel/src/config/env_loader.py:91-93 | an empty value in the file wins over the environment, so `get` returns "" rather than the default and `validate` counts it as missing |
| Env.NewEnvLoader | healthmodel/src/config/env_loader.py:15-29 | a loader is produced with the state of loading the file, unless an export raises; then the error names the key, and the process environment keeps the exports made before it |
| Integration.NormalizedWellFormed | healthmodel/src/api/health_state_client.py:238-247 | a normalised document is well formed, and both keys are present: `details` is an object and `state` a string |
| Integration.KeyedSnapshot | healthmodel/src/api/health_state_client.py:204-210 | every snapshot the client returns is well formed, which is what the integration queries rely on |
| Integration.Annotated | healthmodel/src/integration.py:58-63 | an unconfigured entity's document is unchanged; a configured one gains entity_name and entity_type, and every other key is unchanged |
| Integration.HealthModelIntegration.constructor | healthmodel/src/integration.py:32-48 | the facade holds the given configuration and signal catalogue |
| Integration.HealthModelIntegration.EntityHealth | healthmodel/src/integration.py:50-63 | fails only when the client's document raises; an unconfigured id gives the client's document; otherwise the configured name and type are added and the other keys are kept |
| Integration.FirstRoot | healthmodel/src/integration.py:69-71 | the position of the first document whose details have kind System_HealthModelRoot, with no root before it |
| Integration.WorkloadHealthChoice | healthmodel/src/integration.py:65-75 | the workload document is a root exactly when the snapshot has one, and then it is the first root; otherwise it is the first document, or the Unknown / gray / UNKNOWN fallback for an empty snapshot |
| Integration.HealthModelIntegration.GetWorkloadHealth | healthmodel/src/integration.py:65-75 | the loop returns the document `WorkloadHealthChoice` describes |
| Integration.EntityDeps | healthmodel/src/integration.py:266-274 | depends_on lists the sources of the dependencies into the entity, depended_by the targets of those out of it, one per dependency and in dependency-list order |
| Integration.HealthTree | healthmodel/src/integration.py:92-106 | the tree has one node per configured entity, in configuration order |
| Integration.TreeNodes | healthmodel/src/integration.py:92-104 | each node carries the entity's name, type, parent, signals and dependency lists; an entity with a document takes its state (Unknown when it has none), its state_color (gray when absent) and its timestamp (null when absent); an entity with no document gets Unknown, gray and a null timestamp |
| Integration.HealthModelIntegration.GetHealthTree | healthmodel/src/integration.py:81-106 | the loop builds exactly `HealthTree` |
| Integration.SeverityLevel | healthmodel/src/integration.py:124-125 | levels are at most 3 |
| Integration.SeverityNames | healthmodel/src/integration.py:124-128 | the four known criticalities map to levels and back to themselves; any other criticality counts as 0 |
| Integration.MaxSeverity | healthmodel/src/integration.py:125 | an upper bound on every dependent's level that some dependent attains, or 0 when there are none |
| Integration.Affected | healthmodel/src/integration.py:130-138 | one entry per dependent whose target is configured, carrying that entity's id and name and the dependency's criticality and type |
| Integration.ImpactSeverity | healthmodel/src/integration.py:114-128 | the impact is "critical" exactly when some dependent is critical, and "low" exactly when none is critical, high or medium |
| Integration.HealthModelIntegration.GetDependencyImpact | healthmodel/src/integration.py:108-140 | the failed id, its configured name or null, the affected services, and the severity name of the maximum level |
| Integration.BucketOfState | healthmodel/src/integration.py:173-199 | a state spelled in any letter case is counted under that state |
| Integration.InBucket | healthmodel/src/integration.py:172-199 | a bucket holds exactly the snapshot's entries whose lower-cased state selects it, with the displayName or else the id as name |
| Integration.SummaryCountsAddUp | healthmodel/src/integration.py:150-199 | the four counts add up to the total |
| Integration.SummaryExclusive | healthmodel/src/integration.py:176-199 | each entity is listed in its own bucket and in no other |
| Integration.HealthModelIntegration.GetHealthSummary | healthmodel/src/integration.py:142-199 | the total is the snapshot size, and each bucket and its count are those of `InBucket` |
| Integration.HealthModelIntegration.TraceCritical | healthmodel/src/integration.py:222-232 | the path only grows, lists each visited entity once, enters each entity through a critical or high edge into an entity before it, and leaves every newly listed entity with all its critical sources visited |
| Integration.HealthModelIntegration.GetCriticalPath | healthmodel/src/integration.py:212-235 | the path starts at "root", has no repeats, and enters each entity through a critical or high edge; every critical source of a listed entity is listed |
| Integration.RootOnlyPath | healthmodel/src/integration.py:222-234 | when no critical or high edge targets "root", the critical path is just ["root"] |
| Integration.EcommerceCriticalPath | healthmodel/src/integration.py:212-235 | for the e-commerce example, the critical path is ["root"] |
| Integration.SignalDefinitions | healthmodel/src/integration.py:243-248 | the result's keys are signal names of the entity; an entity none of whose signal ids is in the catalogue gets nothing |
| Integration.SignalDefinitionsResolve | healthmodel/src/integration.py:244-246 | each signal name maps to the catalogue's signal for its id, or to nothing when the catalogue lacks the id |
| Integration.HealthModelIntegration.GetSignalDefinitions | healthmodel/src/integration.py:237-248 | an unknown entity gets nothing; a known one gets `SignalDefinitions` of its signals |

## Left out

- HTTP and authentication: the `requests` session, headers, query parameters, the Azure CLI token and the API version. Replies are inputs.
- `get_entity_health_timeline` (health_state_client.py): building its time-windowed query, normalising each element of `values` and returning [] on a request error are outside the modelled core.
- `close`, `__enter__` and `__exit__` on the client and on the facade: they only manage the HTTP session.
- File I/O: `export_to_json`, `export_health_report`, `export_signals_to_json`, `_create_default_env`, and reading the `.env` or configuration file. The file's lines or parsed JSON are inputs.
- Printing and logging: `print_signal_details`, the warnings printed by `_load_env` and `validate`, and every `__main__` block.
- `HealthModelBuilder` and `example_usage` (integration.py): they wire up environment, token and client; the facade itself is modelled.
- StateClient.GetAllEntitiesHealth: ids are JSON values compared structurally, so `true` and `1` (or `false` and `0`) stay separate keys; Python's dict would merge them because they hash and compare equal.
- Integration `get_all_entities_health` is the client's snapshot passed through unchanged, so it is modelled by `StateClient.GetAllEntitiesHealth`.
- The integration queries take the client's snapshot as a parameter instead of fetching it.
- Integration.HealthModelIntegration.GetWorkloadHealth, GetHealthTree and GetHealthSummary require a well-formed snapshot (`details` an object, `state` a string). This is stronger than Python needs: Python would accept some other snapshots (or fail on some of them in ways not modelled). `Integration.KeyedSnapshot` proves that every snapshot the client returns meets the requirement.
- Integration.HealthModelIntegration.GetHealthSummary: the `timestamp` field and the `health_percentages` (floating-point division) are not modelled.
- Integration.HealthModelIntegration.TraceCritical: the contract states what the path holds and why, not the exact depth-first order of its entries.
- Integration.HealthModelIntegration.TraceCritical: Python's recursion limit is not modelled; a chain of about 1000 critical or high edges makes `trace_critical` raise `RecursionError`, while the model has no depth bound.
- Integration.HealthModelIntegration.GetCriticalPath: same as TraceCritical; the recursion's order is in the body, and the contract states membership, entry edges and closure.
- Integration.SignalDefinitions: the contract covers the keys, the size and the lookup of each name (`SignalDefinitionsResolve`), but does not state the resulting insertion order.
- ModelConfig.LoadFromJson: fields the Python annotates as `str` must be JSON strings, and `signals` must map strings to strings. Python would store any JSON value there; the model refuses it with a load error.
- ModelConfig.LoadFromJson: `metadata` must be a JSON object (its members are kept as JSON). Any other value, `null` included, is refused with `NotAnObject("metadata")`, where Python stores it unchanged. Likewise `null` for `signals` is refused, where Python would store `None`.
- ModelConfig.CreateEcommerceHealthModel: the sixteen `add_entity` / `add_dependency` calls are modelled as two helper loops (`AddEntities`, `AddDependencies`) over the entities and dependencies listed in source order.
- Env.EnvLoader.LoadEnv: the per-line loop is split into parsing every line (`Assignments`) and then applying the results (`Apply`). The effect and its order are the same.
- Text.Upper and Text.Lower change ASCII letters only. Python's Unicode case mapping is not modelled. Which strings name a state, and which bucket a state is counted in, still agree with Python, for these reasons:
  - The only non-ASCII characters that Python's `upper()` turns into ASCII letters are ı (to I), ſ (to S), ß (to SS) and the ligatures ﬀ, ﬁ, ﬂ, ﬃ, ﬄ, ﬅ and ﬆ (to FF, FI, FL, FFI, FFL, ST and ST).
    - None of HEALTHY, DEGRADED, UNHEALTHY and UNKNOWN contains I, S, F or ST.
    - So no string holding such a character names a state under either mapping.
  - The only non-ASCII character that `lower()` turns into an ASCII letter is the Kelvin sign (to k).
    - None of the bucket names healthy, degraded and unhealthy contains k.
    - Every other state is counted as unknown under both mappings.
- Timestamps: every `datetime.now(...)` is a `now` parameter.
- Real numbers: signal thresholds and weights are `real`; floating-point rounding is not modelled.
- The dashboard, demo and query scripts and the PowerShell scripts are outside the core.
