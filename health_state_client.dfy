/**
 * The pure half of the REST client for health-model states: URL construction, the
 * normalisation of one entity's state document, the error document, and the keying
 * of a batch response by entity id.
 *
 * The HTTP session is not modelled: the parsed response body, or the text of the
 * request exception that replaced it, is an input, and so is the wall-clock time
 * used as the default timestamp.
 */
module StateClient {
  import opened Wrappers
  import opened Dicts
  import opened Json
  import opened Text

  datatype HealthState = Healthy | Degraded | Unhealthy | Unknown {
    /** The enum member's value, reported under "state". */
    function Value(): string {
      match this
      case Healthy => "Healthy"
      case Degraded => "Degraded"
      case Unhealthy => "Unhealthy"
      case Unknown => "Unknown"
    }

    /** The enum member's name, reported under "state_code". */
    function Name(): string {
      match this
      case Healthy => "HEALTHY"
      case Degraded => "DEGRADED"
      case Unhealthy => "UNHEALTHY"
      case Unknown => "UNKNOWN"
    }

    /** The colour table of the normaliser. */
    function Color(): string {
      match this
      case Healthy => "green"
      case Degraded => "amber"
      case Unhealthy => "red"
      case Unknown => "gray"
    }
  }

  /** `HealthState[name]`: the member with this name, if any. */
  function StateNamed(name: string): (r: Option<HealthState>)
    ensures r.Some? ==> r.value.Name() == name
    ensures forall st: HealthState :: st.Name() == name ==> r == Some(st)
  {
    if name == "HEALTHY" then Some(Healthy)
    else if name == "DEGRADED" then Some(Degraded)
    else if name == "UNHEALTHY" then Some(Unhealthy)
    else if name == "UNKNOWN" then Some(Unknown)
    else None
  }

  /**
   * The state a "healthState" value maps to: a string is looked up by its upper-cased
   * form; a string that names no member, or a value that is not a string at all, gives
   * Unknown.
   */
  function StateOf(healthState: Json): (st: HealthState)
    ensures healthState.JStr? && StateNamed(Upper(healthState.s)).Some? ==> st == StateNamed(Upper(healthState.s)).value
    ensures !healthState.JStr? || StateNamed(Upper(healthState.s)).None? ==> st == Unknown
  {
    match healthState
    case JStr(s) => StateNamed(Upper(s)).GetOr(Unknown)
    case _ => Unknown
  }

  /** The enum name is the upper-cased enum value, and the colour table is injective. */
  lemma StateTables(a: HealthState, b: HealthState)
    ensures a.Name() == Upper(a.Value())
    ensures a.Color() == b.Color() ==> a == b
    ensures a.Name() == b.Name() ==> a == b
  {
    assert Upper(a.Value()) == a.Name() by {
      match a
      case Healthy => assert Upper("Healthy") == "HEALTHY";
      case Degraded => assert Upper("Degraded") == "DEGRADED";
      case Unhealthy => assert Upper("Unhealthy") == "UNHEALTHY";
      case Unknown => assert Upper("Unknown") == "UNKNOWN";
    }
  }

  /** Matching ignores case: strings that differ only in letter case map to the same state. */
  lemma StateIgnoresCase(s: string, t: string)
    requires Upper(s) == Upper(t)
    ensures StateOf(JStr(s)) == StateOf(JStr(t))
  {
  }

  /** Every state reads back from its own value, whatever the letter case it arrives in. */
  lemma {:induction false} StateOfValue(st: HealthState)
    ensures StateOf(JStr(st.Value())) == st
    ensures StateOf(JStr(Lower(st.Value()))) == st
    ensures StateOf(JStr(st.Name())) == st
  {
    StateTables(st, st);
    UpperOfLower(st.Value());
    assert Upper(st.Name()) == st.Name() by {
      UpperOfLower(st.Value());
      assert Upper(Upper(st.Value())) == Upper(st.Value());
    }
  }

  /** "healthy", "Healthy" and "HEALTHY" all normalise to Healthy; odd spellings do not. */
  lemma HealthySpellings()
    ensures StateOf(JStr("healthy")) == Healthy
    ensures StateOf(JStr("Healthy")) == Healthy
    ensures StateOf(JStr("HEALTHY")) == Healthy
    ensures StateOf(JStr("ok")) == Unknown
    ensures StateOf(JNull) == Unknown && StateOf(JNum(1.0)) == Unknown
  {
    assert Upper("healthy") == "HEALTHY";
    assert Upper("Healthy") == "HEALTHY";
    assert Upper("HEALTHY") == "HEALTHY";
    assert Upper("ok") == "OK";
  }

  // ---------------------------------------------------------------------------
  // The client's addressing
  // ---------------------------------------------------------------------------

  const ApiVersion: string := "2025-05-01-preview"
  const DefaultBaseUrl: string := "https://management.azure.com"

  /** The id `get_root_entity_health` queries. */
  const RootEntityId: string := "root"

  /** The settings a client is constructed with; it never changes them. */
  datatype HealthStateClient = HealthStateClient(
    subscriptionId: string,
    resourceGroup: string,
    healthModelName: string,
    authToken: string,
    baseUrl: string := DefaultBaseUrl)
  {
    /** Everything of a URL before the endpoint. */
    function ModelPath(): (p: string)
      ensures p == baseUrl + "/subscriptions/" + subscriptionId + "/" + "resourceGroups/" + resourceGroup + "/"
                   + "providers/Microsoft.CloudHealth" + "/healthmodels/" + healthModelName + "/"
      ensures StartsWith(p, baseUrl + "/subscriptions/" + subscriptionId + "/")
      ensures EndsWith(p, "/healthmodels/" + healthModelName + "/")
    {
      var head := baseUrl + "/subscriptions/" + subscriptionId + "/";
      var tail := "/healthmodels/" + healthModelName + "/";
      var p := head + "resourceGroups/" + resourceGroup + "/" + "providers/Microsoft.CloudHealth" + tail;
      assert p[..|head|] == head;
      assert p[|p| - |tail|..] == tail;
      p
    }

    /** `_build_url(endpoint)` */
    function BuildUrl(endpoint: string): (url: string)
      ensures StartsWith(url, ModelPath()) && EndsWith(url, endpoint)
      ensures |url| == |ModelPath()| + |endpoint|
    {
      var url := ModelPath() + endpoint;
      assert url[..|ModelPath()|] == ModelPath();
      assert url[|url| - |endpoint|..] == endpoint;
      url
    }

    /** The URL of one entity's state. */
    function EntityUrl(entityId: string): string {
      BuildUrl("entities/" + entityId)
    }
  }

  /** The URL of two endpoints shares its whole prefix, and differs when the endpoints do. */
  lemma UrlPrefix(c: HealthStateClient, e1: string, e2: string)
    ensures c.BuildUrl(e1)[..|c.ModelPath()|] == c.BuildUrl(e2)[..|c.ModelPath()|]
    ensures c.BuildUrl(e1) == c.BuildUrl(e2) <==> e1 == e2
  {
    if c.BuildUrl(e1) == c.BuildUrl(e2) {
      var n := |c.ModelPath()|;
      assert e1 == c.BuildUrl(e1)[n..];
      assert e2 == c.BuildUrl(e2)[n..];
    }
  }

  /** The root query asks for the entity "root" under the model's path. */
  lemma RootUrl(c: HealthStateClient)
    ensures c.EntityUrl(RootEntityId) == c.ModelPath() + "entities/root"
  {
  }

  // ---------------------------------------------------------------------------
  // Normalisation
  // ---------------------------------------------------------------------------

  /** A Python exception that escapes the normaliser or the keying loop. */
  datatype Raised =
    | AttributeError   // `.get` on something that is not a dict
    | TypeError        // iterating something that is not iterable, or a list or dict used as a dict key

  /** `data.get("properties", {})`, which raises unless `data` is a dict and the member, if present, is one too. */
  function Properties(data: Json): Result<Json, Raised> {
    if !data.JObj? then Err(AttributeError)
    else match Member(data, "properties")
      case None => Ok(JObj([]))
      case Some(JObj(fields)) => Ok(JObj(fields))
      case Some(_) => Err(AttributeError)
  }

  const NormalizedKeys: seq<string> :=
    ["entity_id", "entity_name", "state", "state_code", "state_color", "timestamp", "signals", "details"]

  /** No key of the serialised dict is written twice. */
  lemma NormalizedKeysDistinct()
    ensures Distinct(NormalizedKeys)
  {
  }

  /** `_normalize_response(data)`, with `now` as the fallback timestamp. */
  function NormalizeResponse(data: Json, now: string): (r: Result<Json, Raised>)
    ensures r.Ok? <==> Properties(data).Ok?
    ensures r.Ok? ==> r.value.JObj? && Keys(r.value.fields) == NormalizedKeys
  {
    var props :- Properties(data);
    var st := StateOf(MemberOr(props, "healthState", JStr("Unknown")));
    Ok(JObj([
      ("entity_id", MemberOr(data, "id", JNull)),
      ("entity_name", MemberOr(data, "name", JNull)),
      ("state", JStr(st.Value())),
      ("state_code", JStr(st.Name())),
      ("state_color", JStr(st.Color())),
      ("timestamp", MemberOr(props, "timestamp", JStr(now))),
      ("signals", MemberOr(props, "signals", JArr([]))),
      ("details", props)
    ]))
  }

  /**
   * What a normalised document reports: the state the "healthState" property maps to,
   * in three forms that always agree, the raw properties as details, and the id and
   * name carried over.
   */
  lemma NormalizedFields(data: Json, now: string)
    requires Properties(data).Ok?
    ensures var r := NormalizeResponse(data, now).value;
      var props := Properties(data).value;
      var st := StateOf(MemberOr(props, "healthState", JStr("Unknown")));
      && Member(r, "entity_id") == Some(MemberOr(data, "id", JNull))
      && Member(r, "entity_name") == Some(MemberOr(data, "name", JNull))
      && Member(r, "state") == Some(JStr(st.Value()))
      && Member(r, "state_code") == Some(JStr(st.Name()))
      && Member(r, "state_color") == Some(JStr(st.Color()))
      && Member(r, "timestamp") == Some(MemberOr(props, "timestamp", JStr(now)))
      && Member(r, "signals") == Some(MemberOr(props, "signals", JArr([])))
      && Member(r, "details") == Some(props)
  {
    var r := NormalizeResponse(data, now).value;
    NormalizedKeysDistinct();
    DistinctKeys(r.fields);
    MemberUnique(r, 0);
    MemberUnique(r, 1);
    MemberUnique(r, 2);
    MemberUnique(r, 3);
    MemberUnique(r, 4);
    MemberUnique(r, 5);
    MemberUnique(r, 6);
    MemberUnique(r, 7);
  }

  /**
   * A document without properties normalises to Unknown / UNKNOWN / gray, stamped
   * `now`, with no signals and empty details.
   */
  lemma NormalizeWithoutProperties(data: Json, now: string)
    requires data.JObj? && Member(data, "properties").None?
    ensures NormalizeResponse(data, now).Ok?
    ensures var r := NormalizeResponse(data, now).value;
      && Member(r, "state") == Some(JStr("Unknown"))
      && Member(r, "state_code") == Some(JStr("UNKNOWN"))
      && Member(r, "state_color") == Some(JStr("gray"))
      && Member(r, "timestamp") == Some(JStr(now))
      && Member(r, "signals") == Some(JArr([]))
      && Member(r, "details") == Some(JObj([]))
  {
    NormalizedFields(data, now);
    StateOfValue(Unknown);
  }

  const ErrorKeys: seq<string> := ["entity_id", "state", "state_code", "state_color", "error", "timestamp"]

  /** No key of the serialised dict is written twice. */
  lemma ErrorKeysDistinct()
    ensures Distinct(ErrorKeys)
  {
  }

  /** `_error_response(entity_id, error)`, stamped `now`. */
  function ErrorResponse(entityId: string, error: string, now: string): (r: Json)
    ensures r.JObj? && Keys(r.fields) == ErrorKeys
  {
    JObj([
      ("entity_id", JStr(entityId)),
      ("state", JStr(Unknown.Value())),
      ("state_code", JStr(Unknown.Name())),
      ("state_color", JStr("gray")),
      ("error", JStr(error)),
      ("timestamp", JStr(now))
    ])
  }

  /** The error document reports Unknown in all three forms and carries the id and the error text. */
  lemma ErrorResponseFields(entityId: string, error: string, now: string)
    ensures var r := ErrorResponse(entityId, error, now);
      && Member(r, "entity_id") == Some(JStr(entityId))
      && Member(r, "error") == Some(JStr(error))
      && Member(r, "state") == Some(JStr("Unknown"))
      && Member(r, "state_code") == Some(JStr("UNKNOWN"))
      && Member(r, "state_color") == Some(JStr(Unknown.Color()))
  {
    var r := ErrorResponse(entityId, error, now);
    ErrorKeysDistinct();
    DistinctKeys(r.fields);
    MemberUnique(r, 0);
    MemberUnique(r, 1);
    MemberUnique(r, 2);
    MemberUnique(r, 3);
    MemberUnique(r, 4);
  }

  /**
   * `get_entity_health_state` once the request is made: a body is normalised, and a
   * request exception becomes the error document for the id asked about.
   */
  function EntityHealthState(entityId: string, response: Result<Json, string>, now: string): (r: Result<Json, Raised>)
    ensures response.Err? ==> r == Ok(ErrorResponse(entityId, response.error, now))
    ensures response.Ok? ==> r == NormalizeResponse(response.value, now)
  {
    match response
    case Ok(data) => NormalizeResponse(data, now)
    case Err(error) => Ok(ErrorResponse(entityId, error, now))
  }

  /** `get_root_entity_health`: the state of the entity "root". */
  function RootEntityHealth(response: Result<Json, string>, now: string): (r: Result<Json, Raised>)
    ensures response.Ok? ==> r == NormalizeResponse(response.value, now)
    ensures response.Err? ==> r == Ok(ErrorResponse(RootEntityId, response.error, now))
    ensures response.Err? ==> r.Ok? && Member(r.value, "entity_id") == Some(JStr("root"))
  {
    match response
    case Ok(_) => EntityHealthState(RootEntityId, response, now)
    case Err(error) =>
      ErrorResponseFields(RootEntityId, error, now);
      EntityHealthState(RootEntityId, response, now)
  }

  // ---------------------------------------------------------------------------
  // Batch keying (`get_all_entities_health`)
  // ---------------------------------------------------------------------------

  /** `data.get("value", [])`, as the loop iterates it. */
  function ValueItems(data: Json): Result<seq<Json>, Raised> {
    if !data.JObj? then Err(AttributeError)
    else match Member(data, "value")
      case None => Ok([])
      case Some(JArr(items)) => Ok(items)
      // Iterating a dict yields its keys and a string its characters; `.get` on either raises.
      case Some(JObj(fields)) => if |fields| == 0 then Ok([]) else Err(AttributeError)
      case Some(JStr(s)) => if |s| == 0 then Ok([]) else Err(AttributeError)
      case Some(_) => Err(TypeError)
  }

  /** `item.get("id")`: the key a normalised item is stored under. */
  function ItemId(item: Json): Json {
    MemberOr(item, "id", JNull)
  }

  /** Whether Python accepts the value as a dict key: lists and dicts are unhashable. */
  predicate Hashable(key: Json) {
    !key.JArr? && !key.JObj?
  }

  /**
   * The dict the keying loop has built after the given items. The item is normalised
   * before it is stored, so a normaliser error comes before an unhashable id's TypeError.
   */
  function Keyed(items: seq<Json>, now: string): Result<Dict<Json, Json>, Raised> {
    if |items| == 0 then Ok([])
    else
      var last := items[|items| - 1];
      var acc :- Keyed(items[..|items| - 1], now);
      var normalized :- NormalizeResponse(last, now);
      if !Hashable(ItemId(last)) then Err(TypeError)
      else Ok(Put(acc, ItemId(last), normalized))
  }

  /**
   * The keying loop: each normalised item is stored under its "id", overwriting any
   * earlier item with the same id. A request exception yields an empty dict.
   */
  method GetAllEntitiesHealth(response: Result<Json, string>, now: string) returns (r: Result<Dict<Json, Json>, Raised>)
    ensures response.Err? ==> r == Ok([])
    ensures response.Ok? ==> r == (var items :- ValueItems(response.value); Keyed(items, now))
  {
    if response.Err? {
      return Ok([]);
    }
    var items := ValueItems(response.value);
    if items.Err? {
      return Err(items.error);
    }
    var entities: Dict<Json, Json> := [];
    for i := 0 to |items.value|
      invariant Keyed(items.value[..i], now) == Ok(entities)
    {
      var item := items.value[i];
      var normalized := NormalizeResponse(item, now);
      assert items.value[..i + 1][..i] == items.value[..i];
      if normalized.Err? {
        KeyedStopsAtError(items.value, now, i + 1);
        return Err(normalized.error);
      }
      if !Hashable(ItemId(item)) {
        KeyedStopsAtError(items.value, now, i + 1);
        return Err(TypeError);
      }
      entities := Put(entities, ItemId(item), normalized.value);
    }
    assert items.value[..|items.value|] == items.value;
    return Ok(entities);
  }

  /**
   * Every id in the batch is a key of the result, no key is listed twice, and the
   * document under an id is the normalisation of the LAST item carrying that id.
   */
  lemma {:induction false} KeyedLastWins(items: seq<Json>, now: string, i: nat)
    requires Keyed(items, now).Ok? && i < |items|
    requires forall j :: i < j < |items| ==> ItemId(items[j]) != ItemId(items[i])
    ensures UniqueKeys(Keyed(items, now).value)
    ensures NormalizeResponse(items[i], now).Ok?
    ensures Get(Keyed(items, now).value, ItemId(items[i])) == Some(NormalizeResponse(items[i], now).value)
  {
    var n := |items| - 1;
    var init := items[..n];
    var acc := Keyed(init, now).value;
    var normalized := NormalizeResponse(items[n], now).value;
    assert Keyed(items, now).value == Put(acc, ItemId(items[n]), normalized);
    if i == n {
      KeyedUnique(init, now);
      PutUnique(acc, ItemId(items[n]), normalized);
    } else {
      assert init[i] == items[i];
      KeyedLastWins(init, now, i);
      PutUnique(acc, ItemId(items[n]), normalized);
      PutOther(acc, ItemId(items[n]), normalized, ItemId(items[i]));
    }
  }

  /** The keys of a keyed batch are distinct, and each is a value Python can hash. */
  lemma {:induction false} KeyedUnique(items: seq<Json>, now: string)
    requires Keyed(items, now).Ok?
    ensures UniqueKeys(Keyed(items, now).value)
    ensures var r := Keyed(items, now).value; forall i :: 0 <= i < |r| ==> Hashable(r[i].0)
  {
    if |items| > 0 {
      var n := |items| - 1;
      var acc := Keyed(items[..n], now).value;
      var normalized := NormalizeResponse(items[n], now).value;
      KeyedUnique(items[..n], now);
      PutUnique(acc, ItemId(items[n]), normalized);
      PutPairs(acc, ItemId(items[n]), normalized);
      var r := Put(acc, ItemId(items[n]), normalized);
      forall i | 0 <= i < |r| ensures Hashable(r[i].0) {
        assert r[i] in r;
        if r[i] != (ItemId(items[n]), normalized) {
          var j :| 0 <= j < |acc| && acc[j] == r[i];
        }
      }
    }
  }

  /**
   * An item whose "id" is a list or an object raises TypeError once it is normalised,
   * and the batch fails with it.
   */
  lemma UnhashableIdRaises(items: seq<Json>, item: Json, now: string)
    requires Keyed(items, now).Ok? && NormalizeResponse(item, now).Ok? && !Hashable(ItemId(item))
    ensures Keyed(items + [item], now) == Err(TypeError)
  {
    assert (items + [item])[..|items|] == items;
  }

  /** The first item that fails to normalise decides the outcome of the whole batch. */
  lemma {:induction false} KeyedStopsAtError(items: seq<Json>, now: string, k: nat)
    requires k <= |items| && Keyed(items[..k], now).Err?
    ensures Keyed(items, now) == Keyed(items[..k], now)
    decreases |items| - k
  {
    if k < |items| {
      var n := |items| - 1;
      assert items[..n][..k] == items[..k];
      KeyedStopsAtError(items[..n], now, k);
    } else {
      assert items[..k] == items;
    }
  }
}
