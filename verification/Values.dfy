/** JSON-like values. A number is exact here; the original keeps it in a double. */
module Values {
  datatype Value =
    | Null
    | Bool(b: bool)
    | Num(n: real)
    | Str(s: string)
    | Arr(items: seq<Value>)
    | Obj(fields: map<string, Value>)
  {
    /** Reading a missing key, or a key of something that is no object, gives null. */
    function At(key: string): Value {
      if Obj? && key in fields then fields[key] else Null
    }

    predicate Contains(key: string) {
      Obj? && key in fields
    }

    function AsString(fallback: string): string {
      if Str? then s else fallback
    }

    function AsBool(fallback: bool): bool {
      if Bool? then b else fallback
    }

    /** Truncates toward zero. */
    function AsInteger(fallback: int): int {
      if !Num? then fallback else if n >= 0.0 then n.Floor else -((-n).Floor)
    }

    function AsArray(): seq<Value> {
      if Arr? then items else []
    }

    function ObjectOrEmpty(): Value {
      if Obj? then this else Obj(map[])
    }

    /** Sets a key; something that is no object first becomes an empty one. */
    function With(key: string, v: Value): Value {
      Obj(ObjectOrEmpty().fields[key := v])
    }
  }

  function Int(i: int): Value {
    Num(i as real)
  }

  /** An empty string is stored as null. */
  function StringOrNull(s: string): Value {
    if s == "" then Null else Str(s)
  }

  function StringsToValue(strings: seq<string>): Value {
    Arr(seq(|strings|, i requires 0 <= i < |strings| => Str(strings[i])))
  }

  function StringsFromValue(v: Value): seq<string> {
    var items := v.AsArray();
    seq(|items|, i requires 0 <= i < |items| => items[i].AsString(""))
  }

  /** Reading an integer cuts the fraction off, whatever the sign. */
  lemma IntegersTruncate(v: Value, fallback: int)
    ensures v.Num? && v.n >= 0.0 ==> v.AsInteger(fallback) as real <= v.n < v.AsInteger(fallback) as real + 1.0
    ensures v.Num? && v.n <= 0.0 ==> v.AsInteger(fallback) as real - 1.0 < v.n <= v.AsInteger(fallback) as real
    ensures !v.Num? ==> v.AsInteger(fallback) == fallback
  {
  }

  /** Reading a list of strings takes everything else in it for an empty one. */
  lemma StringsRead(v: Value)
    ensures |StringsFromValue(v)| == if v.Arr? then |v.items| else 0
    ensures forall i | 0 <= i < |StringsFromValue(v)| ::
              StringsFromValue(v)[i] == if v.items[i].Str? then v.items[i].s else ""
  {
  }

  lemma StringsRoundTrip(strings: seq<string>)
    ensures StringsFromValue(StringsToValue(strings)) == strings
  {
  }

  /** Lays the fields of `overlay` over those of `base`. */
  function MergeMetadata(base: Value, overlay: Value): (merged: Value)
    ensures merged.Obj?
    ensures forall key ::
              && (merged.Contains(key) <==> base.Contains(key) || overlay.Contains(key))
              && merged.At(key) == if overlay.Contains(key) then overlay.At(key) else base.At(key)
  {
    if overlay.Obj? then Obj(base.ObjectOrEmpty().fields + overlay.fields) else base.ObjectOrEmpty()
  }
}
