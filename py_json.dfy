/** The Python values `json.loads` produces (without floats), and the few built-ins the
    agents apply to them: truthiness, `type(x).__name__`, `dict.get`, `str()` and `repr()`,
    iteration, and `int()`. */
module PyJson {
  import opened Wrappers
  import opened Text

  /** A decoded JSON value: `None`, `bool`, `int`, `str`, `list` or `dict`. A `dict` lists
      its members in the order the text gives them. */
  datatype Json =
    | JNull
    | JBool(b: bool)
    | JInt(i: int)
    | JStr(s: string)
    | JArray(items: seq<Json>)
    | JObject(members: seq<Member>)

  datatype Member = Member(key: string, value: Json)

  /** `bool(x)`. */
  predicate Truthy(j: Json) {
    match j
    case JNull => false
    case JBool(b) => b
    case JInt(i) => i != 0
    case JStr(s) => s != ""
    case JArray(items) => items != []
    case JObject(members) => members != []
  }

  /** `type(x).__name__`. */
  function TypeName(j: Json): string {
    match j
    case JNull => "NoneType"
    case JBool(_) => "bool"
    case JInt(_) => "int"
    case JStr(_) => "str"
    case JArray(_) => "list"
    case JObject(_) => "dict"
  }

  /** The value of `key` in a decoded object: `json.loads` keeps the last of repeated keys. */
  function Lookup(members: seq<Member>, key: string): (r: Option<Json>)
    ensures r.None? <==> forall k :: 0 <= k < |members| ==> members[k].key != key
    ensures r.Some? ==> exists k :: 0 <= k < |members| && members[k] == Member(key, r.value)
  {
    if |members| == 0 then None
    else if members[|members| - 1].key == key then Some(members[|members| - 1].value)
    else Lookup(members[..|members| - 1], key)
  }

  /** The message of the `AttributeError` raised by calling `.get` on a non-dict. */
  function NoGet(j: Json): string {
    "'" + TypeName(j) + "' object has no attribute 'get'"
  }

  /** `x.get(key, default)`. */
  function Get(j: Json, key: string, default: Json): (r: Result<Json>)
    ensures r.Success? <==> j.JObject?
    ensures r.Failure? ==> r.error == NoGet(j)
    ensures r.Success? && (forall k :: 0 <= k < |j.members| ==> j.members[k].key != key) ==> r.value == default
  {
    match j
    case JObject(members) => Success(Lookup(members, key).GetOr(default))
    case _ => Failure(NoGet(j))
  }

  /** The keys of a decoded object, each once, in first-appearance order, as iterating a
      `dict` yields them. */
  function Keys(members: seq<Member>): (r: seq<string>)
    ensures forall k :: 0 <= k < |r| ==> exists m :: 0 <= m < |members| && members[m].key == r[k]
    ensures forall m :: 0 <= m < |members| ==> members[m].key in r
    ensures forall a, b :: 0 <= a < b < |r| ==> r[a] != r[b]
  {
    if |members| == 0 then []
    else
      var init := Keys(members[..|members| - 1]);
      var key := members[|members| - 1].key;
      if key in init then init else init + [key]
  }

  /** The message of the `TypeError` raised by iterating a value that is not iterable. */
  function NotIterable(j: Json): string {
    "'" + TypeName(j) + "' object is not iterable"
  }

  /** `for x in value`: a list yields its items, a string its characters, a dict its
      keys; anything else raises `TypeError`. */
  function Iterate(j: Json): (r: Result<seq<Json>>)
    ensures r.Success? <==> j.JArray? || j.JStr? || j.JObject?
    ensures r.Failure? ==> r.error == NotIterable(j)
    ensures j.JArray? ==> r == Success(j.items)
    ensures j.JStr? ==> r.Success? && |r.value| == |j.s|
                        && forall k :: 0 <= k < |j.s| ==> r.value[k] == JStr([j.s[k]])
  {
    match j
    case JArray(items) => Success(items)
    case JStr(s) => Success(seq(|s|, k requires 0 <= k < |s| => JStr([s[k]])))
    case JObject(members) =>
      var keys := Keys(members);
      Success(seq(|keys|, k requires 0 <= k < |keys| => JStr(keys[k])))
    case _ => Failure(NotIterable(j))
  }

  /** Escapes the characters `repr()` writes with a backslash: the backslash, the chosen
      quote, newline, carriage return and tab. */
  function Escape(s: string, quote: char): (r: string)
    ensures |r| >= |s|
  {
    if |s| == 0 then ""
    else
      var c := s[0];
      var e := if c == '\\' || c == quote then ['\\', c]
               else if c == '\n' then "\\n"
               else if c == '\r' then "\\r"
               else if c == '\t' then "\\t"
               else [c];
      e + Escape(s[1..], quote)
  }

  /** `repr()` of a string: single quotes, unless the text holds a single quote and no
      double quote. */
  function ReprStr(s: string): (r: string)
    ensures |r| >= 2 && (r[0] == '\'' || r[0] == '"') && r[|r| - 1] == r[0]
  {
    var q := if '\'' in s && '"' !in s then '"' else '\'';
    [q] + Escape(s, q) + [q]
  }

  /** `repr()` of a decoded value, as a list or dict prints its elements. */
  function Repr(j: Json): (r: string)
    ensures r != []
    decreases j, 1
  {
    match j
    case JStr(s) => ReprStr(s)
    case JArray(items) => "[" + Join(", ", ReprItems(j, items)) + "]"
    case JObject(members) => "{" + Join(", ", ReprMembers(j, members)) + "}"
    case _ => ScalarStr(j)
  }

  /** `str()` and `repr()` of `None`, a `bool` or an `int`, which agree. */
  function ScalarStr(j: Json): (r: string)
    requires j.JNull? || j.JBool? || j.JInt?
    ensures r != []
  {
    match j
    case JNull => "None"
    case JBool(b) => if b then "True" else "False"
    case JInt(i) => IntToStr(i)
  }

  function ReprItems(j: Json, items: seq<Json>): (r: seq<string>)
    requires forall k :: 0 <= k < |items| ==> items[k] < j
    ensures |r| == |items|
    decreases j, 0, |items|
  {
    if |items| == 0 then [] else [Repr(items[0])] + ReprItems(j, items[1..])
  }

  function ReprMembers(j: Json, members: seq<Member>): (r: seq<string>)
    requires forall k :: 0 <= k < |members| ==> members[k].value < j
    ensures |r| == |members|
    decreases j, 0, |members|
  {
    if |members| == 0 then []
    else [ReprStr(members[0].key) + ": " + Repr(members[0].value)] + ReprMembers(j, members[1..])
  }

  /** `str()` of a decoded value: a string is itself, the rest print as Python does. */
  function Str(j: Json): (r: string)
    ensures j.JStr? ==> r == j.s
    ensures !j.JStr? ==> r != []
  {
    match j
    case JStr(s) => s
    case JArray(_) => Repr(j)
    case JObject(_) => Repr(j)
    case _ => ScalarStr(j)
  }

  /** `int(x)` for a decoded value: `bool` counts as 0 or 1, a string must hold a decimal
      literal, and `None`, lists and dicts are refused. None stands for the `TypeError` or
      `ValueError` raised. */
  function ToInt(j: Json): (r: Option<int>)
    ensures j.JInt? ==> r == Some(j.i)
    ensures j.JBool? ==> r == Some(if j.b then 1 else 0)
    ensures j.JStr? ==> r == ParseInt(j.s)
    ensures j.JNull? || j.JArray? || j.JObject? ==> r.None?
  {
    match j
    case JInt(i) => Some(i)
    case JBool(b) => Some(if b then 1 else 0)
    case JStr(s) => ParseInt(s)
    case _ => None
  }
}
