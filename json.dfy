/** JSON as Vert.x 3's `JsonObject` and `JsonArray` hold it, with the typed getters the core
    calls. An object's entries form a `map`, so insertion order is not modelled. */
module Json {
  import opened Wrappers
  import opened JavaLang

  /** A JSON value; numbers are integers, `Null` is an explicit JSON null. */
  datatype Value =
    | Null
    | Bool(b: bool)
    | Num(n: int)
    | Str(s: string)
    | Arr(items: seq<Value>)
    | Object(fields: map<string, Value>)

  /** The entries of a JSON object. */
  type Obj = map<string, Value>

  /** `m.getValue(key) instanceof JsonObject`, and the object it holds. */
  function ObjectAt(m: Obj, key: string): (r: Option<Obj>)
    ensures r.Some? <==> key in m && m[key].Object?
    ensures r.Some? ==> m[key] == Object(r.value)
  {
    if key in m && m[key].Object? then Some(m[key].fields) else None
  }

  /** `m.getValue(key) instanceof String`, and the string it holds. */
  function StringAt(m: Obj, key: string): (r: Option<string>)
    ensures r.Some? <==> key in m && m[key].Str?
    ensures r.Some? ==> m[key] == Str(r.value)
  {
    if key in m && m[key].Str? then Some(m[key].s) else None
  }

  /** `m.getString(key)`: null when the key is absent or holds JSON null, a cast failure when
      it holds anything but a string. */
  function GetString(m: Obj, key: string): (r: Result<Option<string>, JavaException>)
    ensures r == Success(None) <==> key !in m || m[key].Null?
    ensures r.Failure? <==> key in m && !m[key].Null? && !m[key].Str?
    ensures r.Failure? ==> r.error == ClassCast
    ensures r.Success? && r.value.Some? ==> key in m && m[key] == Str(r.value.value)
  {
    if key !in m then Success(None)
    else match m[key]
      case Null => Success(None)
      case Str(s) => Success(Some(s))
      case _ => Failure(ClassCast)
  }

  /** `m.getString(key, def)`: the default only when the key is absent; an explicit JSON null
      still reads as null. */
  function GetStringOr(m: Obj, key: string, def: string): (r: Result<Option<string>, JavaException>)
    ensures key !in m ==> r == Success(Some(def))
    ensures key in m ==> r == GetString(m, key)
  {
    if key !in m then Success(Some(def)) else GetString(m, key)
  }

  /** `m.getInteger(key, def)`: the default only when the key is absent, null for JSON null,
      `intValue()` (32-bit truncation) for any number, a cast failure otherwise. */
  function GetIntegerOr(m: Obj, key: string, def: int32): (r: Result<Option<int32>, JavaException>)
    ensures key !in m ==> r == Success(Some(def))
    ensures key in m && m[key].Null? ==> r == Success(None)
    ensures key in m && m[key].Num? ==> r.Success? && r.value.Some? && (r.value.value as int - m[key].n) % 0x1_0000_0000 == 0
    ensures r.Failure? <==> key in m && !m[key].Null? && !m[key].Num?
    ensures r.Failure? ==> r.error == ClassCast
  {
    if key !in m then Success(Some(def))
    else match m[key]
      case Null => Success(None)
      case Num(n) => Success(Some(Wrap32(n)))
      case _ => Failure(ClassCast)
  }

  /** `m.getJsonObject(key)`: null when absent or JSON null, a cast failure for a non-object. */
  function GetJsonObject(m: Obj, key: string): (r: Result<Option<Obj>, JavaException>)
    ensures r == Success(None) <==> key !in m || m[key].Null?
    ensures r.Failure? <==> key in m && !m[key].Null? && !m[key].Object?
    ensures r.Failure? ==> r.error == ClassCast
    ensures r.Success? && r.value.Some? ==> key in m && m[key] == Object(r.value.value)
  {
    if key !in m then Success(None)
    else match m[key]
      case Null => Success(None)
      case Object(o) => Success(Some(o))
      case _ => Failure(ClassCast)
  }

  /** `m.getJsonArray(key)`: null when absent or JSON null, a cast failure for a non-array. */
  function GetJsonArray(m: Obj, key: string): (r: Result<Option<seq<Value>>, JavaException>)
    ensures r == Success(None) <==> key !in m || m[key].Null?
    ensures r.Failure? <==> key in m && !m[key].Null? && !m[key].Arr?
    ensures r.Failure? ==> r.error == ClassCast
    ensures r.Success? && r.value.Some? ==> key in m && m[key] == Arr(r.value.value)
  {
    if key !in m then Success(None)
    else match m[key]
      case Null => Success(None)
      case Arr(items) => Success(Some(items))
      case _ => Failure(ClassCast)
  }

  /** `array.getJsonObject(pos)`: out of bounds past the end, null for JSON null, a cast
      failure for a non-object. */
  function ArrayGetJsonObject(items: seq<Value>, pos: nat): (r: Result<Option<Obj>, JavaException>)
    ensures r == Failure(IndexOutOfBounds) <==> pos >= |items|
    ensures r == Success(None) <==> pos < |items| && items[pos].Null?
    ensures r == Failure(ClassCast) <==> pos < |items| && !items[pos].Null? && !items[pos].Object?
    ensures r.Success? && r.value.Some? ==> pos < |items| && items[pos] == Object(r.value.value)
  {
    if pos >= |items| then Failure(IndexOutOfBounds)
    else match items[pos]
      case Null => Success(None)
      case Object(o) => Success(Some(o))
      case _ => Failure(ClassCast)
  }

  /** A Java null `JsonObject` put as a value is stored as JSON null. */
  function FromNullable(o: Option<Obj>): (v: Value)
    ensures o.None? <==> v.Null?
    ensures o.Some? ==> v == Object(o.value)
  {
    if o.Some? then Object(o.value) else Null
  }

  /** A mutable `JsonObject`, updated in place by `put`. */
  class JsonObject {
    var entries: Obj

    /** `new JsonObject()` */
    constructor ()
      ensures entries == map[]
    {
      entries := map[];
    }

    /** A `JsonObject` over the given entries, as `getJsonObject` wraps a nested map. */
    constructor Of(entries: Obj)
      ensures this.entries == entries
    {
      this.entries := entries;
    }

    /** `put(key, value)`: sets one key, replacing any earlier value, and keeps every other key. */
    method Put(key: string, value: Value)
      modifies this
      ensures entries == old(entries)[key := value]
    {
      entries := entries[key := value];
    }
  }
}
