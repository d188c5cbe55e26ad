/** JSON values and the keyed-container reads of Swift's `Decodable`, as the
    species decoders use them. */
module Json {
  import opened Wrappers

  datatype Json =
    | JNull
    | JBool(b: bool)
    | JNumber(n: int)
    | JString(s: string)
    | JArray(items: seq<Json>)
    | JObject(fields: map<string, Json>)

  /** The `DecodingError` cases the reads below can throw. */
  datatype DecodeError =
    | DataCorrupted
    | NotAnObject
    | NotAnArray
    | KeyNotFound(key: string)
    | ValueNotFound(key: string)
    | TypeMismatch(key: string)

  /** `decode(String.self, forKey:)`: the key must be there and hold a string. */
  function DecodeString(fields: map<string, Json>, key: string): (r: Result<string, DecodeError>)
    ensures r.Ok? <==> key in fields && fields[key].JString?
    ensures r.Ok? ==> r.value == fields[key].s
    ensures key !in fields ==> r == Err(KeyNotFound(key))
  {
    if key !in fields then Err(KeyNotFound(key))
    else match fields[key]
      case JString(s) => Ok(s)
      case JNull => Err(ValueNotFound(key))
      case _ => Err(TypeMismatch(key))
  }

  /** `decodeIfPresent(String.self, forKey:)`: nil when the key is absent or
      null, the string when it holds one, and a type mismatch otherwise. */
  function DecodeStringIfPresent(fields: map<string, Json>, key: string): (r: Result<Option<string>, DecodeError>)
    ensures r.Ok? <==> key !in fields || fields[key].JNull? || fields[key].JString?
    ensures r.Ok? ==> r.value == (if key in fields && fields[key].JString? then Some(fields[key].s) else None)
  {
    if key !in fields then Ok(None)
    else match fields[key]
      case JNull => Ok(None)
      case JString(s) => Ok(Some(s))
      case _ => Err(TypeMismatch(key))
  }

  predicate AllStrings(items: seq<Json>) {
    forall i :: 0 <= i < |items| ==> items[i].JString?
  }

  predicate AllStringValues(fields: map<string, Json>) {
    forall k :: k in fields ==> fields[k].JString?
  }

  /** `decodeIfPresent([String: String].self, forKey:)`. */
  function DecodeStringMapIfPresent(fields: map<string, Json>, key: string)
    : (r: Result<Option<map<string, string>>, DecodeError>)
    ensures r.Ok? <==> key !in fields || fields[key].JNull? || (fields[key].JObject? && AllStringValues(fields[key].fields))
    ensures r.Ok? && r.value.Some? ==>
              && key in fields && fields[key].JObject?
              && r.value.value.Keys == fields[key].fields.Keys
              && forall k :: k in r.value.value ==> JString(r.value.value[k]) == fields[key].fields[k]
  {
    if key !in fields then Ok(None)
    else match fields[key]
      case JNull => Ok(None)
      case JObject(m) =>
        if AllStringValues(m) then Ok(Some(map k | k in m :: m[k].s)) else Err(TypeMismatch(key))
      case _ => Err(TypeMismatch(key))
  }

  /** `decodeIfPresent([String].self, forKey:)`. */
  function DecodeStringArrayIfPresent(fields: map<string, Json>, key: string)
    : (r: Result<Option<seq<string>>, DecodeError>)
    ensures r.Ok? <==> key !in fields || fields[key].JNull? || (fields[key].JArray? && AllStrings(fields[key].items))
    ensures r.Ok? && r.value.Some? ==>
              && key in fields && fields[key].JArray?
              && |r.value.value| == |fields[key].items|
              && forall i :: 0 <= i < |r.value.value| ==> JString(r.value.value[i]) == fields[key].items[i]
  {
    if key !in fields then Ok(None)
    else match fields[key]
      case JNull => Ok(None)
      case JArray(items) =>
        if AllStrings(items) then Ok(Some(seq(|items|, i requires 0 <= i < |items| => items[i].s)))
        else Err(TypeMismatch(key))
      case _ => Err(TypeMismatch(key))
  }
}
