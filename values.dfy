/** Decoded JSON values as the addon handles them after `json.loads`, and the few
    pieces of Python object behaviour its request handling depends on: `dict.get`,
    truthiness, `str.strip` and the text of an `AttributeError`. */
module Values {

  datatype Option<+T> = None | Some(value: T)

  /** A decoded JSON document. An object becomes a Python dict, kept here as its
      (key, value) pairs in insertion order, which is also its iteration order. */
  datatype Json =
    | Null
    | Bool(b: bool)
    | Int(i: int)
    | Float(f: real)
    | Str(s: string)
    | Arr(items: seq<Json>)
    | Obj(members: seq<(string, Json)>)

  /** The one exception the addon's own code raises on a value of the wrong type:
      an `AttributeError` for a missing method such as `get`, `items` or `strip`. */
  datatype Fault = NoAttribute(typeName: string, attribute: string)

  /** The outcome of a Python expression that may raise a `Fault`. */
  datatype Result<+T> = Ok(value: T) | Err(fault: Fault)

  /** `type(v).__name__` of a decoded JSON value. */
  function TypeName(j: Json): string
  {
    match j
    case Null => "NoneType"
    case Bool(_) => "bool"
    case Int(_) => "int"
    case Float(_) => "float"
    case Str(_) => "str"
    case Arr(_) => "list"
    case Obj(_) => "dict"
  }

  /** `str(e)` of an `AttributeError` raised by attribute lookup on a built-in value. */
  function Describe(f: Fault): string
  {
    "'" + f.typeName + "' object has no attribute '" + f.attribute + "'"
  }

  /** Python truthiness of a decoded JSON value (`if x:`). */
  predicate Truthy(j: Json)
  {
    match j
    case Null => false
    case Bool(b) => b
    case Int(i) => i != 0
    case Float(f) => f != 0.0
    case Str(s) => s != ""
    case Arr(items) => items != []
    case Obj(members) => members != []
  }

  /** The value stored under `key`: the first pair with that key. */
  function Lookup(members: seq<(string, Json)>, key: string): Option<Json>
  {
    if members == [] then None
    else if members[0].0 == key then Some(members[0].1)
    else Lookup(members[1..], key)
  }

  /** A lookup finds a value exactly when some pair has the key, and the value it
      finds is stored under that key. */
  lemma {:induction false} LookupFindsKey(members: seq<(string, Json)>, key: string)
    ensures var r := Lookup(members, key);
            (r.None? <==> forall i :: 0 <= i < |members| ==> members[i].0 != key) &&
            (r.Some? ==> exists i :: 0 <= i < |members| && members[i] == (key, r.value))
  {
    if members != [] && members[0].0 != key {
      LookupFindsKey(members[1..], key);
      var r := Lookup(members[1..], key);
      if r.Some? {
        var i :| 0 <= i < |members[1..]| && members[1..][i] == (key, r.value);
        assert members[i + 1] == (key, r.value);
      }
      assert forall i :: 1 <= i < |members| ==> members[i] == members[1..][i - 1];
    }
  }

  /** The field `key` of a JSON object; `None` for a missing key or a non-object. */
  function Field(j: Json, key: string): Option<Json>
  {
    if j.Obj? then Lookup(j.members, key) else None
  }

  /** `j.get(key, default)`: the stored value, the default for a missing key, and an
      `AttributeError` when `j` is not a dict. */
  function Get(j: Json, key: string, default: Json): (r: Result<Json>)
    ensures r.Err? <==> !j.Obj?
    ensures r.Err? ==> r.fault == NoAttribute(TypeName(j), "get")
  {
    if !j.Obj? then Err(NoAttribute(TypeName(j), "get"))
    else match Lookup(j.members, key)
      case Some(v) => Ok(v)
      case None => Ok(default)
  }

  /** The characters `str.isspace()` accepts, which `str.strip()` removes. */
  predicate IsSpace(c: char)
  {
    c == ' ' || ('\t' <= c <= '\r') || ('\U{1c}' <= c <= '\U{1f}') ||
    c == '\U{85}' || c == '\U{a0}' || c == '\U{1680}' || ('\U{2000}' <= c <= '\U{200a}') ||
    c == '\U{2028}' || c == '\U{2029}' || c == '\U{202f}' || c == '\U{205f}' || c == '\U{3000}'
  }

  /** `s.lstrip()`: the suffix of `s` left after its leading white space. */
  function TrimStart(s: string): (r: string)
    ensures |r| <= |s| && r == s[|s| - |r|..]
    ensures forall i :: 0 <= i < |s| - |r| ==> IsSpace(s[i])
    ensures r != [] ==> !IsSpace(r[0])
  {
    if s != [] && IsSpace(s[0]) then TrimStart(s[1..]) else s
  }

  /** `s.rstrip()`: the prefix of `s` left before its trailing white space. */
  function TrimEnd(s: string): (r: string)
    ensures |r| <= |s| && r == s[..|r|]
    ensures forall i :: |r| <= i < |s| ==> IsSpace(s[i])
    ensures r != [] ==> !IsSpace(r[|r| - 1])
  {
    if s != [] && IsSpace(s[|s| - 1]) then TrimEnd(s[..|s| - 1]) else s
  }

  /** `s.strip()` */
  function Strip(s: string): string
  {
    TrimEnd(TrimStart(s))
  }

  /** Stripping leaves nothing exactly when every character is white space, and
      otherwise leaves text that neither starts nor ends with white space. */
  lemma StripRemovesSpace(s: string)
    ensures Strip(s) == [] <==> forall i :: 0 <= i < |s| ==> IsSpace(s[i])
    ensures Strip(s) != [] ==> !IsSpace(Strip(s)[0]) && !IsSpace(Strip(s)[|Strip(s)| - 1])
  {
    var t := TrimStart(s);
    var r := TrimEnd(t);
    var n := |s| - |t|;
    if r != [] {
      assert r[0] == t[0] && r[|r| - 1] == t[|r| - 1] == s[n + |r| - 1];
    } else {
      assert t == [];
    }
  }

  /** `not s.strip()`: the test the addon applies to submitted code. */
  predicate IsBlank(s: string)
  {
    Strip(s) == []
  }
}
