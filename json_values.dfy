/**
 * The slice of the jakarta.json object model that the exporter touches:
 * parsed JSON values, the exceptions its accessors throw, and the accessors
 * themselves with the behaviour the exporter relies on.
 */
module JsonValues {

  /** A parsed JSON value. Numbers, booleans and JSON null are never read by
      the exporter and behave alike under every accessor it uses, so they are
      one case. */
  datatype Json =
    | JStr(str: string)
    | JArr(elems: seq<Json>)
    | JObj(members: map<string, Json>)
    | JOther

  /** The members of a JSON object, keyed by name. */
  type JsonObject = map<string, Json>

  /** The runtime exceptions the exporter's code can raise while it walks a
      document. */
  datatype Fault = NullPointer | ClassCast | IndexOutOfBounds

  /** The name of the Java exception class behind a fault. */
  function FaultName(f: Fault): string
  {
    match f
    case NullPointer => "java.lang.NullPointerException"
    case ClassCast => "java.lang.ClassCastException"
    case IndexOutOfBounds => "java.lang.IndexOutOfBoundsException"
  }

  datatype Option<+T> = None | Some(value: T) {
    predicate IsFailure() { None? }

    function PropagateFailure<U>(): Option<U>
      requires None?
    {
      None
    }

    function Extract(): T
      requires Some?
    {
      value
    }
  }

  /** A computation that either yields a value or throws; usable with `:-`. */
  datatype Result<+T> = Ok(value: T) | Fail(fault: Fault) {
    predicate IsFailure() { Fail? }

    function PropagateFailure<U>(): Result<U>
      requires Fail?
    {
      Fail(fault)
    }

    function Extract(): T
      requires Ok?
    {
      value
    }
  }

  /** Using a reference: a Java null throws. */
  function Deref<T>(o: Option<T>): Result<T>
  {
    match o
    case None => Fail(NullPointer)
    case Some(v) => Ok(v)
  }

  /** `value.asJsonObject()` or the cast `(JsonObject) value`. */
  function AsObject(v: Json): Result<JsonObject>
  {
    if v.JObj? then Ok(v.members) else Fail(ClassCast)
  }

  /** `obj.getJsonObject(key)`: null when the key is absent, a failed cast
      when its value is not an object. */
  function GetObject(obj: JsonObject, key: string): Result<Option<JsonObject>>
  {
    if key !in obj then Ok(None)
    else if obj[key].JObj? then Ok(Some(obj[key].members))
    else Fail(ClassCast)
  }

  /** `obj.getJsonArray(key)`: null when the key is absent, a failed cast
      when its value is not an array. */
  function GetArray(obj: JsonObject, key: string): Result<Option<seq<Json>>>
  {
    if key !in obj then Ok(None)
    else if obj[key].JArr? then Ok(Some(obj[key].elems))
    else Fail(ClassCast)
  }

  /** `obj.getString(key)`: dereferences a null when the key is absent, a
      failed cast when its value is not a string. */
  function GetString(obj: JsonObject, key: string): Result<string>
  {
    if key !in obj then Fail(NullPointer)
    else if obj[key].JStr? then Ok(obj[key].str)
    else Fail(ClassCast)
  }

  /** `obj.getString(key, default)`: the string at `key`, or `default` when
      the key is absent or its value is not a string. */
  function GetStringOr(obj: JsonObject, key: string, default: string): string
  {
    if key in obj && obj[key].JStr? then obj[key].str else default
  }

  /** `array.getString(i, default)`: the string at index `i`, or `default`
      when the index is out of range or the element is not a string. */
  function StringAtOr(arr: seq<Json>, i: nat, default: string): string
  {
    if i < |arr| && arr[i].JStr? then arr[i].str else default
  }

  /** `array.getJsonObject(i)`: out of range throws, so does a non-object. */
  function ObjectAt(arr: seq<Json>, i: nat): Result<JsonObject>
  {
    if i < |arr| then AsObject(arr[i]) else Fail(IndexOutOfBounds)
  }

  /** `block != null && block.containsKey("fields")`: the guard every block
      lookup starts with. */
  predicate HasFields(block: Option<JsonObject>)
  {
    block.Some? && "fields" in block.value
  }

  /** `block.getJsonArray("fields")` as a loop iterates it: a null array
      throws when the loop starts. */
  function FieldsOf(block: JsonObject): Result<seq<Json>>
  {
    var arr :- GetArray(block, "fields");
    Deref(arr)
  }
}
