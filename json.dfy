/**
 * JSON documents as Python's `json` module sees them: `None`, booleans, numbers,
 * strings, lists and (insertion-ordered) dicts. Numbers are carried as opaque values;
 * nothing in the modelled code computes with them.
 */
module Json {
  import opened Wrappers
  import opened Dicts

  datatype Json =
    | JNull
    | JBool(b: bool)
    | JNum(n: real)
    | JStr(s: string)
    | JArr(items: seq<Json>)
    /** An object's member names are distinct, as in a dict `json.load` returns (it keeps
        the last of duplicated names); `Member` reads the first field with a name, so the
        two agree on every object built that way, and `SetMember` keeps names distinct. */
    | JObj(fields: Dict<string, Json>)

  /** `obj.get(key)`, or None when `obj` is not an object. */
  function Member(j: Json, key: string): Option<Json> {
    if j.JObj? then Get(j.fields, key) else None
  }

  /** The member found is the first field that carries the key. */
  lemma MemberAt(j: Json, key: string, i: nat)
    requires j.JObj? && i < |j.fields| && j.fields[i].0 == key
    requires forall m :: 0 <= m < i ==> j.fields[m].0 != key
    ensures Member(j, key) == Some(j.fields[i].1)
  {
    GetFirst(j.fields, key, i);
  }

  /** In an object whose keys are unique, each field's key finds that field. */
  lemma MemberUnique(j: Json, i: nat)
    requires j.JObj? && UniqueKeys(j.fields) && i < |j.fields|
    ensures Member(j, j.fields[i].0) == Some(j.fields[i].1)
  {
    GetAt(j.fields, i);
  }

  /** `obj.get(key, default)` */
  function MemberOr(j: Json, key: string, default: Json): Json {
    Member(j, key).GetOr(default)
  }

  /** `obj[key] = value` on an object. */
  function SetMember(j: Json, key: string, value: Json): (r: Json)
    requires j.JObj?
    ensures r.JObj? && Member(r, key) == Some(value)
  {
    JObj(Put(j.fields, key, value))
  }

  /** Setting a member leaves every other member as it was. */
  lemma SetMemberOther(j: Json, key: string, value: Json, other: string)
    requires j.JObj? && other != key
    ensures Member(SetMember(j, key, value), other) == Member(j, other)
  {
    PutOther(j.fields, key, value, other);
  }

  /** A string that may be Python's `None`. */
  function OptText(o: Option<string>): Json {
    match o
    case Some(s) => JStr(s)
    case None => JNull
  }

  /** A `Dict[str, str]` as a JSON object. */
  function TextDict(d: Dict<string, string>): (r: Json)
    ensures r.JObj? && |r.fields| == |d|
    ensures forall i :: 0 <= i < |d| ==> r.fields[i] == (d[i].0, JStr(d[i].1))
  {
    JObj(seq(|d|, i requires 0 <= i < |d| => (d[i].0, JStr(d[i].1))))
  }
}
