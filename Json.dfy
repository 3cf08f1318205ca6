/**
 * An already-decoded JSON document and the strict accessors the parser uses on it.
 * Each accessor either yields a value of the requested kind or the fault that
 * org.json's `getX` would raise as a JSONException (absent key, or wrong kind).
 */
module Json {
  import opened Wrappers

  datatype Json =
    | JNull
    | JBool(b: bool)
    | JNumber(n: real)
    | JString(s: string)
    | JArray(items: seq<Json>)
    | JObject(members: map<string, Json>)

  type Members = map<string, Json>

  datatype Kind = StringKind | NumberKind | ObjectKind | ArrayKind

  /** The reason a JSONException was raised while reading a response. */
  datatype JsonFault =
    | RootNotObject                          // the document is not a JSON object
    | NoStatusField                          // the parser's own "No \"status\" field"
    | NoValue(key: string)                   // getX(key) on an absent key
    | WrongType(key: string, expected: Kind) // getX(key) on a value of another kind
    | WrongItemType(index: nat, expected: Kind)

  function GetString(o: Members, key: string): (r: Result<string, JsonFault>)
    ensures r.Success? <==> key in o && o[key].JString?
    ensures r.Success? ==> o[key] == JString(r.value)
    ensures r.Failure? ==> r.error == if key in o then WrongType(key, StringKind) else NoValue(key)
  {
    if key !in o then Failure(NoValue(key))
    else if o[key].JString? then Success(o[key].s)
    else Failure(WrongType(key, StringKind))
  }

  function GetDouble(o: Members, key: string): (r: Result<real, JsonFault>)
    ensures r.Success? <==> key in o && o[key].JNumber?
    ensures r.Success? ==> o[key] == JNumber(r.value)
    ensures r.Failure? ==> r.error == if key in o then WrongType(key, NumberKind) else NoValue(key)
  {
    if key !in o then Failure(NoValue(key))
    else if o[key].JNumber? then Success(o[key].n)
    else Failure(WrongType(key, NumberKind))
  }

  function GetObject(o: Members, key: string): (r: Result<Members, JsonFault>)
    ensures r.Success? <==> key in o && o[key].JObject?
    ensures r.Success? ==> o[key] == JObject(r.value)
    ensures r.Failure? ==> r.error == if key in o then WrongType(key, ObjectKind) else NoValue(key)
  {
    if key !in o then Failure(NoValue(key))
    else if o[key].JObject? then Success(o[key].members)
    else Failure(WrongType(key, ObjectKind))
  }

  function GetArray(o: Members, key: string): (r: Result<seq<Json>, JsonFault>)
    ensures r.Success? <==> key in o && o[key].JArray?
    ensures r.Success? ==> o[key] == JArray(r.value)
    ensures r.Failure? ==> r.error == if key in o then WrongType(key, ArrayKind) else NoValue(key)
  {
    if key !in o then Failure(NoValue(key))
    else if o[key].JArray? then Success(o[key].items)
    else Failure(WrongType(key, ArrayKind))
  }

  /** JSONArray.getJSONObject(index) */
  function ItemObject(items: seq<Json>, index: nat): (r: Result<Members, JsonFault>)
    requires index < |items|
    ensures r.Success? <==> items[index].JObject?
    ensures r.Success? ==> items[index] == JObject(r.value)
    ensures r.Failure? ==> r.error == WrongItemType(index, ObjectKind)
  {
    if items[index].JObject? then Success(items[index].members)
    else Failure(WrongItemType(index, ObjectKind))
  }

  /** JSONArray.getString(index) */
  function ItemString(items: seq<Json>, index: nat): (r: Result<string, JsonFault>)
    requires index < |items|
    ensures r.Success? <==> items[index].JString?
    ensures r.Success? ==> items[index] == JString(r.value)
    ensures r.Failure? ==> r.error == WrongItemType(index, StringKind)
  {
    if items[index].JString? then Success(items[index].s)
    else Failure(WrongItemType(index, StringKind))
  }
}
