/** Stream configurations as value trees, and their way to JSON and back. */
module ConfigTree {
  import opened Wrappers
  import opened Names

  /** A C string: it ends at the first NUL. */
  type CString = s: string | '\0' !in s witness ""

  type Int32 = n: int | -0x8000_0000 <= n < 0x8000_0000

  datatype Value =
    | NullValue
    | BooleanValue(b: bool)
    | DoubleValue(d: real)
    | IntegerValue(n: Int32)
    | StringValue(s: string)
    | HashValue(hash: map<string, Value>)
    | ArrayValue(list: seq<Value>)

  /** Keys of a JSON object are C strings; its strings know their length; its integers have 64 bits. */
  datatype Json =
    | JsonNull
    | JsonBoolean(b: bool)
    | JsonDouble(d: real)
    | JsonInt(n: int)
    | JsonString(s: string)
    | JsonObject(fields: map<CString, Json>)
    | JsonArray(items: seq<Json>)

  function Cut(s: string): (c: CString)
    ensures '\0' !in s ==> c == s
  {
    var k := IndexOf(s, '\0');
    assert k < |s| ==> s[k] == '\0';
    if k == |s| then (assert s[..k] == s; s) else s[..k]
  }

  /** json_object_get_int. */
  function ToInt32(n: int): (r: Int32)
    ensures (-0x8000_0000 <= n < 0x8000_0000) <==> r == n
  {
    if n < -0x8000_0000 then -0x8000_0000 else if n > 0x7fff_ffff then 0x7fff_ffff else n
  }

  /** The value of a JSON tree, by plain recursion. */
  function ValueOf(j: Json): Value {
    match j
    case JsonNull => NullValue
    case JsonBoolean(b) => BooleanValue(b)
    case JsonDouble(d) => DoubleValue(d)
    case JsonInt(n) => IntegerValue(ToInt32(n))
    case JsonString(s) => StringValue(Cut(s))
    case JsonObject(fields) => HashValue(map k | k in fields :: ValueOf(fields[k]))
    case JsonArray(items) => ArrayValue(seq(|items|, i requires 0 <= i < |items| => ValueOf(items[i])))
  }

  /** j is a JSON tree MakeJson can make of v: of keys that are one as C strings, any may win. */
  ghost predicate IsJsonOf(v: Value, j: Json)
    decreases v
  {
    match v
    case NullValue => j == JsonNull
    case BooleanValue(b) => j == JsonBoolean(b)
    case DoubleValue(d) => j == JsonDouble(d)
    case IntegerValue(n) => j == JsonInt(n)
    case StringValue(s) => j == JsonString(Cut(s))
    case HashValue(hash) =>
      && j.JsonObject?
      && (forall k | k in hash :: Cut(k) in j.fields)
      && forall c | c in j.fields :: exists k | k in hash :: Cut(k) == c && IsJsonOf(hash[k], j.fields[c])
    case ArrayValue(list) =>
      j.JsonArray? && |j.items| == |list| && forall i | 0 <= i < |list| :: IsJsonOf(list[i], j.items[i])
  }

  /** No string and no key of the tree has a NUL. */
  predicate Clean(v: Value) {
    match v
    case StringValue(s) => '\0' !in s
    case HashValue(hash) => (forall k | k in hash :: '\0' !in k) && forall k | k in hash :: Clean(hash[k])
    case ArrayValue(list) => forall i | 0 <= i < |list| :: Clean(list[i])
    case _ => true
  }

  /** No string has a NUL, and every integer has 32 bits. */
  predicate Narrow(j: Json) {
    match j
    case JsonInt(n) => -0x8000_0000 <= n < 0x8000_0000
    case JsonString(s) => '\0' !in s
    case JsonObject(fields) => forall k | k in fields :: Narrow(fields[k])
    case JsonArray(items) => forall i | 0 <= i < |items| :: Narrow(items[i])
    case _ => true
  }

  lemma {:induction false} ValuesAreClean(j: Json)
    ensures Clean(ValueOf(j))
  {
    match j
    case JsonObject(fields) =>
      forall k | k in fields ensures Clean(ValueOf(fields[k])) {
        ValuesAreClean(fields[k]);
      }
    case JsonArray(items) =>
      forall i | 0 <= i < |items| ensures Clean(ValueOf(items[i])) {
        ValuesAreClean(items[i]);
      }
    case _ =>
  }

  lemma {:induction false} CleanComesBack(v: Value, j: Json)
    requires IsJsonOf(v, j) && Clean(v)
    ensures ValueOf(j) == v
    decreases v, 1
  {
    match v
    case HashValue(_) => HashComesBack(v, j);
    case ArrayValue(list) =>
      forall i | 0 <= i < |list| ensures ValueOf(j.items[i]) == list[i] {
        CleanComesBack(list[i], j.items[i]);
      }
      assert ValueOf(j).list == list;
    case _ =>
  }

  lemma {:induction false} HashComesBack(v: Value, j: Json)
    requires IsJsonOf(v, j) && Clean(v) && v.HashValue?
    ensures ValueOf(j) == v
    decreases v, 0
  {
    CleanFields(v, j);
    ObjectValue(j);
    hide *;
    forall k | k in v.hash ensures ValueOf(j.fields[k]) == v.hash[k] {
      CleanComesBack(v.hash[k], j.fields[k]);
    }
    SameHash(ValueOf(j).hash, v.hash);
  }

  lemma SameHash(a: map<string, Value>, b: map<string, Value>)
    requires a.Keys == b.Keys && forall k | k in b :: a[k] == b[k]
    ensures a == b
  {
  }

  lemma ObjectValue(j: Json)
    requires j.JsonObject?
    ensures ValueOf(j).HashValue? && ValueOf(j).hash.Keys == j.fields.Keys
    ensures forall k | k in j.fields :: ValueOf(j).hash[k] == ValueOf(j.fields[k])
  {
  }

  lemma CleanFields(v: Value, j: Json)
    requires IsJsonOf(v, j) && Clean(v) && v.HashValue?
    ensures j.JsonObject? && j.fields.Keys == v.hash.Keys
    ensures forall k | k in v.hash :: IsJsonOf(v.hash[k], j.fields[k]) && Clean(v.hash[k])
  {
    var hash := v.hash;
    forall c | c in j.fields ensures c in hash && IsJsonOf(hash[c], j.fields[c]) {
      var k :| k in hash && Cut(k) == c && IsJsonOf(hash[k], j.fields[c]);
      assert Cut(k) == k;
    }
    forall k | k in hash ensures k in j.fields {
      assert Cut(k) == k;
    }
  }

  /** A value tree comes back from JSON exactly when none of its strings and keys has a NUL. */
  lemma RoundTripIff(v: Value, j: Json)
    requires IsJsonOf(v, j)
    ensures ValueOf(j) == v <==> Clean(v)
  {
    ValuesAreClean(j);
    if Clean(v) {
      CleanComesBack(v, j);
    }
  }

  /** A configuration that was read from JSON survives being written and read again. */
  lemma ReadTwice(j: Json, j': Json)
    requires IsJsonOf(ValueOf(j), j')
    ensures ValueOf(j') == ValueOf(j)
  {
    ValuesAreClean(j);
    CleanComesBack(ValueOf(j), j');
  }

  /** The other way round it takes 32-bit integers as well. */
  lemma {:induction false} JsonComesBackIff(j: Json, j': Json)
    requires IsJsonOf(ValueOf(j), j')
    ensures j' == j <==> Narrow(j)
    decreases j, 1
  {
    match j
    case JsonObject(_) => ObjectComesBackIff(j, j');
    case JsonArray(items) =>
      forall i | 0 <= i < |items| ensures j'.items[i] == items[i] <==> Narrow(items[i]) {
        JsonComesBackIff(items[i], j'.items[i]);
      }
      if Narrow(j) {
        assert j'.items == items;
      }
    case _ =>
  }

  lemma {:induction false} ObjectComesBackIff(j: Json, j': Json)
    requires IsJsonOf(ValueOf(j), j') && j.JsonObject?
    ensures j' == j <==> Narrow(j)
    decreases j, 0
  {
    ObjectFields(j, j');
    hide IsJsonOf, ValueOf;
    forall c | c in j.fields ensures j'.fields[c] == j.fields[c] <==> Narrow(j.fields[c]) {
      JsonComesBackIff(j.fields[c], j'.fields[c]);
    }
    if Narrow(j) {
      assert j'.fields == j.fields;
    }
  }

  lemma ObjectFields(j: Json, j': Json)
    requires IsJsonOf(ValueOf(j), j') && j.JsonObject?
    ensures j'.JsonObject? && j'.fields.Keys == j.fields.Keys
    ensures forall c | c in j.fields :: IsJsonOf(ValueOf(j.fields[c]), j'.fields[c])
  {
    var hash := ValueOf(j).hash;
    forall c | c in j'.fields ensures c in j.fields && IsJsonOf(ValueOf(j.fields[c]), j'.fields[c]) {
      var k :| k in hash && Cut(k) == c && IsJsonOf(hash[k], j'.fields[c]);
      assert Cut(k) == k;
    }
    forall c | c in j.fields ensures c in j'.fields {
      assert c in hash && Cut(c) == c;
    }
  }

  // Place by place

  /** A step down a tree. */
  datatype Key = Field(name: CString) | Item(index: nat)

  function JsonAt(j: Json, path: seq<Key>): Option<Json>
    decreases path
  {
    if path == [] then Some(j)
    else
      match (j, path[0])
      case (JsonObject(fields), Field(name)) => if name in fields then JsonAt(fields[name], path[1..]) else None
      case (JsonArray(items), Item(index)) => if index < |items| then JsonAt(items[index], path[1..]) else None
      case _ => None
  }

  function ValueAt(v: Value, path: seq<Key>): Option<Value>
    decreases path
  {
    if path == [] then Some(v)
    else
      match (v, path[0])
      case (HashValue(hash), Field(name)) => if name in hash then ValueAt(hash[name], path[1..]) else None
      case (ArrayValue(list), Item(index)) => if index < |list| then ValueAt(list[index], path[1..]) else None
      case _ => None
  }

  /** Kind and content of a node agree: integers are held in the range of 32 bits, strings end before their first NUL. */
  predicate SameNode(j: Json, v: Value) {
    match j
    case JsonNull => v.NullValue?
    case JsonBoolean(b) => v.BooleanValue? && v.b == b
    case JsonDouble(d) => v.DoubleValue? && v.d == d
    case JsonInt(n) =>
      && v.IntegerValue?
      && v.n == if n < -2147483648 then -2147483648 else if n > 2147483647 then 2147483647 else n
    case JsonString(s) =>
      && v.StringValue? && v.s <= s && '\0' !in v.s && (|v.s| < |s| ==> s[|v.s|] == '\0')
    case JsonObject(fields) => v.HashValue? && v.hash.Keys == fields.Keys
    case JsonArray(items) => v.ArrayValue? && |v.list| == |items|
  }

  /** Reading a configuration keeps every place and what is there. */
  lemma {:induction false} ReadKeepsPlaces(j: Json, path: seq<Key>)
    ensures JsonAt(j, path).Some? <==> ValueAt(ValueOf(j), path).Some?
    ensures JsonAt(j, path).Some? ==> SameNode(JsonAt(j, path).value, ValueAt(ValueOf(j), path).value)
    decreases path
  {
    if path == [] {
      NodeRead(j);
    } else {
      match (j, path[0])
      case (JsonObject(fields), Field(name)) =>
        if name in fields {
          ReadKeepsPlaces(fields[name], path[1..]);
        }
      case (JsonArray(items), Item(index)) =>
        if index < |items| {
          ReadKeepsPlaces(items[index], path[1..]);
        }
      case _ =>
    }
  }

  lemma NodeRead(j: Json)
    ensures SameNode(j, ValueOf(j))
  {
    match j
    case JsonString(s) =>
      var k := IndexOf(s, '\0');
      assert s[..|s|] == s;
    case JsonObject(fields) => assert ValueOf(j).hash.Keys == fields.Keys;
    case _ =>
  }

  /** MakeValueFromJson; the object case spells the dispatch out once more for its fields. */
  method MakeValueFromJson(obj: Json) returns (value: Value)
    ensures value == ValueOf(obj)
    decreases obj
  {
    match obj
    case JsonNull => value := NullValue;
    case JsonBoolean(b) => value := BooleanValue(b);
    case JsonDouble(d) => value := DoubleValue(d);
    case JsonInt(n) => value := IntegerValue(ToInt32(n));
    case JsonString(s) => value := StringValue(Cut(s));
    case JsonObject(fields) =>
      var result: map<string, Value> := map[];
      var rest := fields.Keys;
      while rest != {}
        invariant rest <= fields.Keys
        invariant result == map k | k in fields.Keys - rest :: ValueOf(fields[k])
        decreases rest
      {
        var key :| key in rest;
        var val := fields[key];
        var element: Value;
        match val {
          case JsonNull => element := NullValue;
          case JsonBoolean(b) => element := BooleanValue(b);
          case JsonDouble(d) => element := DoubleValue(d);
          case JsonInt(n) => element := IntegerValue(ToInt32(n));
          case JsonString(s) => element := StringValue(Cut(s));
          case JsonObject(_) => element := MakeValueFromJson(val);
          case JsonArray(items) =>
            var arr := [];
            for i := 0 to |items|
              invariant |arr| == i && forall j | 0 <= j < i :: arr[j] == ValueOf(items[j])
            {
              var item := MakeValueFromJson(items[i]);
              arr := arr + [item];
            }
            element := ArrayValue(arr);
            assert ValueOf(val).list == arr;
        }
        result, rest := result[key := element], rest - {key};
      }
      value := HashValue(result);
    case JsonArray(items) =>
      var arr := [];
      for i := 0 to |items|
        invariant |arr| == i && forall j | 0 <= j < i :: arr[j] == ValueOf(items[j])
      {
        var item := MakeValueFromJson(items[i]);
        arr := arr + [item];
      }
      value := ArrayValue(arr);
      assert ValueOf(obj).list == arr;
  }

  /** MakeJson, taking the entries of a hash in any order. */
  method MakeJson(value: Value) returns (j: Json)
    ensures IsJsonOf(value, j)
    decreases value
  {
    match value
    case NullValue => j := JsonNull;
    case BooleanValue(b) => j := JsonBoolean(b);
    case DoubleValue(d) => j := JsonDouble(d);
    case IntegerValue(n) => j := JsonInt(n);
    case StringValue(s) => j := JsonString(Cut(s));
    case HashValue(hash) =>
      var fields: map<CString, Json> := map[];
      var rest := hash.Keys;
      while rest != {}
        invariant rest <= hash.Keys
        invariant forall k | k in hash && k !in rest :: Cut(k) in fields
        invariant forall c | c in fields :: exists k | k in hash :: Cut(k) == c && IsJsonOf(hash[k], fields[c])
        decreases rest
      {
        var key :| key in rest;
        var entry := MakeJson(hash[key]);
        fields, rest := fields[Cut(key) := entry], rest - {key};
      }
      j := JsonObject(fields);
    case ArrayValue(list) =>
      var items := [];
      for i := 0 to |list|
        invariant |items| == i && forall k | 0 <= k < i :: IsJsonOf(list[k], items[k])
      {
        var item := MakeJson(list[i]);
        items := items + [item];
      }
      j := JsonArray(items);
  }

  /** Only an object is a configuration. */
  method MakeConfigFromJson(obj: Json) returns (config: Option<map<string, Value>>)
    ensures config.Some? <==> obj.JsonObject?
    ensures config.Some? ==> HashValue(config.value) == ValueOf(obj)
  {
    if obj.JsonObject? {
      var value := MakeValueFromJson(obj);
      return Some(value.hash);
    }
    config := None;
  }
}
