/** Values as the realtime database delivers them in a snapshot, and the
    decoding steps that every view model shares (`as?` casts, `JSONDecoder`
    keyed decoding, and the throwing `compactMap` over a snapshot's children). */
module Wire {

  datatype Option<+T> = None | Some(value: T)

  datatype Result<+T, +E> = Ok(value: T) | Err(error: E) {
    predicate IsFailure() { Err? }
    function PropagateFailure<U>(): Result<U, E> requires Err? { Err(error) }
    function Extract(): T requires Ok? { value }
  }

  /** A JSON-like value. Numbers are whole numbers: timestamps are integer
      seconds, the floating point of `TimeInterval` is not modelled. */
  datatype Value =
    | Null
    | Bool(b: bool)
    | Num(n: int)
    | Str(s: string)
    | Arr(items: seq<Value>)
    | Dict(fields: map<string, Value>)

  type Fields = map<string, Value>

  /** Why a keyed `JSONDecoder` decode throws. */
  datatype DecodeError =
    | KeyNotFound(key: string)    // the key is absent
    | ValueNotFound(key: string)  // the key holds null
    | TypeMismatch(key: string)   // the key holds a value of another JSON type
    | DataCorrupted(key: string)  // a string that no enum case has as its raw value

  /** `dict[key] as? String` */
  function StringField(fields: Fields, key: string): Option<string>
  {
    if key in fields && fields[key].Str? then Some(fields[key].s) else None
  }

  /** `dict[key] as? TimeInterval` */
  function NumberField(fields: Fields, key: string): Option<int>
  {
    if key in fields && fields[key].Num? then Some(fields[key].n) else None
  }

  /** `container.decode(String.self, forKey: key)` */
  function DecodeString(fields: Fields, key: string): (r: Result<string, DecodeError>)
    ensures r.Ok? <==> key in fields && fields[key].Str?
    ensures r.Ok? ==> fields[key] == Str(r.value)
  {
    if key !in fields then Err(KeyNotFound(key))
    else match fields[key]
      case Null => Err(ValueNotFound(key))
      case Str(s) => Ok(s)
      case _ => Err(TypeMismatch(key))
  }

  /** `container.decodeIfPresent(String.self, forKey: key)`, which synthesized
      decoding uses for an optional property: absent or null gives nil. */
  function DecodeOptionalString(fields: Fields, key: string): (r: Result<Option<string>, DecodeError>)
    ensures r.Err? <==> key in fields && !fields[key].Null? && !fields[key].Str?
    ensures r == Ok(None) <==> key !in fields || fields[key].Null?
  {
    if key !in fields then Ok(None)
    else match fields[key]
      case Null => Ok(None)
      case Str(s) => Ok(Some(s))
      case _ => Err(TypeMismatch(key))
  }

  /** `container.decode(Date.self, forKey: key)` under the `.secondsSince1970`
      strategy: a number of seconds since 1970-01-01. */
  function DecodeDate(fields: Fields, key: string): (r: Result<int, DecodeError>)
    ensures r.Ok? <==> key in fields && fields[key].Num?
    ensures r.Ok? ==> fields[key] == Num(r.value)
  {
    if key !in fields then Err(KeyNotFound(key))
    else match fields[key]
      case Null => Err(ValueNotFound(key))
      case Num(n) => Ok(n)
      case _ => Err(TypeMismatch(key))
  }

  /** The strings of a JSON array, if every item is a string. */
  function AllStrings(items: seq<Value>): (r: Option<seq<string>>)
    ensures r.Some? ==> |r.value| == |items| && forall i :: 0 <= i < |items| ==> items[i] == Str(r.value[i])
    ensures r.None? ==> exists i :: 0 <= i < |items| && !items[i].Str?
    decreases |items|
  {
    if items == [] then Some([])
    else if !items[0].Str? then None
    else match AllStrings(items[1..])
      case None => None
      case Some(rest) => Some([items[0].s] + rest)
  }

  /** A `[String]` as `JSONEncoder` writes it. */
  function StringArray(ss: seq<string>): (v: Value)
    ensures v.Arr? && |v.items| == |ss|
  {
    Arr(seq(|ss|, i requires 0 <= i < |ss| => Str(ss[i])))
  }

  lemma StringArrayRoundTrip(ss: seq<string>)
    ensures AllStrings(StringArray(ss).items) == Some(ss)
  {
    var items := StringArray(ss).items;
    assert forall i :: 0 <= i < |ss| ==> items[i] == Str(ss[i]);
    var r := AllStrings(items);
    if r.Some? {
      assert r.value == ss;
    }
  }

  /** `container.decode([String].self, forKey: key)` */
  function DecodeStringArray(fields: Fields, key: string): (r: Result<seq<string>, DecodeError>)
    ensures r.Ok? <==> key in fields && fields[key].Arr? && AllStrings(fields[key].items).Some?
    ensures r.Ok? ==> fields[key] == StringArray(r.value)
  {
    if key !in fields then Err(KeyNotFound(key))
    else match fields[key]
      case Null => Err(ValueNotFound(key))
      case Arr(items) =>
        (match AllStrings(items)
         case Some(ss) => Ok(ss)
         case None => Err(TypeMismatch(key)))
      case _ => Err(TypeMismatch(key))
  }

  /** An enumeration of a Swift `Dictionary`'s keys: every key exactly once, in
      an order the program does not control. Iterations over a snapshot's
      dictionary take such an order as a parameter. */
  predicate Enumerates(order: seq<string>, fields: Fields)
  {
    && (forall i, j :: 0 <= i < j < |order| ==> order[i] != order[j])
    && (forall k :: k in fields ==> k in order)
    && (forall k :: k in order ==> k in fields)
  }

  /** What one throwing `compactMap` closure does with one child: skip it
      (`return nil`), throw, or return a record. */
  datatype Entry<+T> = Skip | Throw(error: DecodeError) | Keep(record: T)

  /** `try dict.compactMap { key, value in ... }` over the children of a
      snapshot, visited in `order`: the first child whose closure throws
      aborts the whole map, skipped children leave no trace. */
  function CompactMap<T>(fields: Fields, order: seq<string>, decode: (string, Value) -> Entry<T>): (r: Result<seq<T>, DecodeError>)
    requires forall k :: k in order ==> k in fields
    ensures r.Err? <==> exists i :: 0 <= i < |order| && decode(order[i], fields[order[i]]).Throw?
    ensures r.Ok? ==> |r.value| <= |order|
    ensures r.Ok? ==> forall x :: x in r.value ==>
      exists i :: 0 <= i < |order| && decode(order[i], fields[order[i]]) == Keep(x)
    ensures r.Ok? ==> forall i :: 0 <= i < |order| && decode(order[i], fields[order[i]]).Keep? ==>
      decode(order[i], fields[order[i]]).record in r.value
    decreases |order|
  {
    if order == [] then Ok([])
    else
      match decode(order[0], fields[order[0]])
      case Throw(e) => Err(e)
      case Skip => CompactMap(fields, order[1..], decode)
      case Keep(x) =>
        var rest :- CompactMap(fields, order[1..], decode);
        Ok([x] + rest)
  }
}
