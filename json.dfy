/** JSON values as the Gson library presents them to the extension
    (JsonElement and its subclasses), and the Gson accessors the extension
    calls: `get`, `has`, `getAsJsonObject`, `getAsJsonArray`, `getAsString`,
    `getAsBoolean`, `getAsInt`, `getAsDouble`. Parsing JSON text is not part
    of this model: a body that is JSON arrives here already as a `Json`. */
module Json {
  import opened Wrappers

  /** A number keeps the literal text it was read from, as Gson's lazily
      parsed numbers do, next to its exact value. Object members keep
      insertion order, as Gson's JsonObject does; their keys are distinct
      (DistinctKeys) in an object Gson built. */
  datatype Json =
    | JNull
    | JBool(b: bool)
    | JNum(text: string, value: real)
    | JStr(s: string)
    | JArr(items: seq<Json>)
    | JObj(members: Members)

  type Members = seq<(string, Json)>

  function Keys(m: Members): (ks: seq<string>)
    ensures |ks| == |m|
    ensures forall i :: 0 <= i < |m| ==> ks[i] == m[i].0
  {
    if m == [] then [] else [m[0].0] + Keys(m[1..])
  }

  /** JSON object keys are unique. */
  predicate DistinctKeys(m: Members) {
    forall i, j :: 0 <= i < j < |m| ==> m[i].0 != m[j].0
  }

  /** A member that is written only when it has a value. */
  function OptionalMember(key: string, v: Option<string>): (m: Members)
    ensures Keys(m) == if v.Some? then [key] else []
  {
    if v.Some? then [(key, JStr(v.value))] else []
  }

  /** JsonObject.get: the value stored under `key`, or None where Gson
      returns Java null. */
  function Get(m: Members, key: string): (r: Option<Json>)
    ensures r.None? <==> key !in Keys(m)
    ensures r.Some? ==> (key, r.value) in m
  {
    if m == [] then None
    else if m[0].0 == key then Some(m[0].1)
    else Get(m[1..], key)
  }

  /** Looking a key up past a first member. */
  lemma GetCons(e: (string, Json), rest: Members, key: string)
    ensures Get([e] + rest, key) == if e.0 == key then Some(e.1) else Get(rest, key)
  {
    assert ([e] + rest)[1..] == rest;
  }

  /** Looking a key up in two runs of members finds it in the first run
      when it is there. */
  lemma {:induction false} GetAppend(a: Members, b: Members, key: string)
    ensures Get(a + b, key) == if key in Keys(a) then Get(a, key) else Get(b, key)
  {
    if a != [] {
      assert (a + b)[1..] == a[1..] + b;
      GetAppend(a[1..], b, key);
      assert Keys(a) == [a[0].0] + Keys(a[1..]);
    } else {
      assert a + b == b;
    }
  }

  /** JsonObject.has */
  predicate Has(m: Members, key: string) {
    Get(m, key).Some?
  }

  /** `get(key)` whose result is then used: a missing member is a
      NullPointerException. */
  function Require(m: Members, key: string): (r: Result<Json>)
    ensures r.Ok? <==> key in Keys(m)
    ensures r.Err? ==> r.error == NullPointer
    ensures r.Ok? ==> (key, r.value) in m
  {
    match Get(m, key)
    case Some(v) => Ok(v)
    case None => Err(NullPointer)
  }

  /** JsonElement.getAsJsonObject */
  function AsObject(j: Json): Result<Members> {
    if j.JObj? then Ok(j.members) else Err(IllegalState)
  }

  /** JsonElement.getAsJsonArray */
  function AsArray(j: Json): Result<seq<Json>> {
    if j.JArr? then Ok(j.items) else Err(IllegalState)
  }

  /** JsonElement.getAsString: a primitive gives its text (a number its
      literal), a one-element array gives its element's text, an array of
      any other size is an IllegalStateException, and an object or JSON
      null is an UnsupportedOperationException. */
  function AsString(j: Json): (r: Result<string>)
    ensures j.JStr? ==> r == Ok(j.s)
    ensures j.JObj? || j.JNull? ==> r == Err(UnsupportedOperation)
  {
    match j
    case JStr(s) => Ok(s)
    case JNum(text, _) => Ok(text)
    case JBool(b) => Ok(if b then "true" else "false")
    case JArr(items) => if |items| == 1 then AsString(items[0]) else Err(IllegalState)
    case JObj(_) => Err(UnsupportedOperation)
    case JNull => Err(UnsupportedOperation)
  }

  function AsciiLower(c: char): char {
    if 'A' <= c <= 'Z' then (c as int + 32) as char else c
  }

  /** Boolean.parseBoolean: "true" in any letter case, nothing else. */
  predicate ParseBoolean(s: string) {
    |s| == 4 && AsciiLower(s[0]) == 't' && AsciiLower(s[1]) == 'r'
    && AsciiLower(s[2]) == 'u' && AsciiLower(s[3]) == 'e'
  }

  /** JsonElement.getAsBoolean: a boolean gives itself, any other
      primitive gives Boolean.parseBoolean of its text. */
  function AsBool(j: Json): Result<bool> {
    match j
    case JBool(b) => Ok(b)
    case JStr(s) => Ok(ParseBoolean(s))
    case JNum(text, _) => Ok(ParseBoolean(text))
    case JArr(items) => if |items| == 1 then AsBool(items[0]) else Err(IllegalState)
    case JObj(_) => Err(UnsupportedOperation)
    case JNull => Err(UnsupportedOperation)
  }

  const TwoTo31: int := 0x8000_0000
  const TwoTo32: int := 0x1_0000_0000

  predicate IsInt32(n: int) {
    -TwoTo31 <= n < TwoTo31
  }

  /** The low 32 bits of `n`, read as a signed Java int. */
  function Int32(n: int): (r: int)
    ensures IsInt32(r)
    ensures (r - n) % TwoTo32 == 0
    ensures IsInt32(n) ==> r == n
  {
    (n + TwoTo31) % TwoTo32 - TwoTo31
  }

  /** Rounding toward zero, as a narrowing conversion in Java does. */
  function TruncateTowardZero(v: real): (r: int)
    ensures 0.0 <= v ==> r as real <= v < r as real + 1.0
    ensures v < 0.0 ==> r as real - 1.0 < v <= r as real
  {
    if 0.0 <= v then v.Floor else -((-v).Floor)
  }

  /** JsonElement.getAsInt: for a number, Gson's intValue keeps the low
      32 bits of the value rounded toward zero; a boolean is a
      NumberFormatException. */
  function AsInt(j: Json): (r: Result<int>)
    ensures r.Ok? ==> IsInt32(r.value)
  {
    match j
    case JNum(_, v) => Ok(Int32(TruncateTowardZero(v)))
    case JBool(_) => Err(NumberFormat)
    case JStr(_) => Err(NumberFormat)
    case JArr(items) => if |items| == 1 then AsInt(items[0]) else Err(IllegalState)
    case JObj(_) => Err(UnsupportedOperation)
    case JNull => Err(UnsupportedOperation)
  }

  /** JsonElement.getAsDouble, over exact reals. */
  function AsDouble(j: Json): Result<real> {
    match j
    case JNum(_, v) => Ok(v)
    case JBool(_) => Err(NumberFormat)
    case JStr(_) => Err(NumberFormat)
    case JArr(items) => if |items| == 1 then AsDouble(items[0]) else Err(IllegalState)
    case JObj(_) => Err(UnsupportedOperation)
    case JNull => Err(UnsupportedOperation)
  }

  /** getAsString applied to each element in order; the first element
      that cannot be read stops the whole reading. */
  function AsStrings(items: seq<Json>): (r: Result<seq<string>>)
    ensures r.Ok? <==> forall i :: 0 <= i < |items| ==> AsString(items[i]).Ok?
    ensures r.Ok? ==> |r.value| == |items|
    ensures r.Ok? ==> forall i :: 0 <= i < |items| ==> AsString(items[i]) == Ok(r.value[i])
    decreases |items|
  {
    if items == [] then Ok([])
    else
      var prev :- AsStrings(items[..|items| - 1]);
      var s :- AsString(items[|items| - 1]);
      Ok(prev + [s])
  }

  /** Once a prefix fails, the whole reading fails the same way. */
  lemma {:induction false} AsStringsPrefixFailure(items: seq<Json>, k: nat)
    requires k <= |items|
    requires AsStrings(items[..k]).Err?
    ensures AsStrings(items) == AsStrings(items[..k])
    decreases |items| - k
  {
    if k < |items| {
      var next := items[..k + 1];
      assert next[..k] == items[..k];
      assert AsStrings(next) == AsStrings(items[..k]);
      AsStringsPrefixFailure(items, k + 1);
    } else {
      assert items[..k] == items;
    }
  }

  /** The loop both clients use to copy a JSON array of names into a fresh
      String[] of the same length, index by index. */
  method FillStrings(items: seq<Json>) returns (r: Result<seq<string>>)
    ensures r == AsStrings(items)
  {
    var arr := new string[|items|];
    for i := 0 to |items|
      invariant AsStrings(items[..i]) == Ok(arr[..i])
    {
      var s := AsString(items[i]);
      assert items[..i + 1][..i] == items[..i];
      if s.Err? {
        AsStringsPrefixFailure(items, i + 1);
        return Err(s.error);
      }
      ghost var before := arr[..i];
      arr[i] := s.value;
      assert arr[..i + 1] == before + [s.value];
    }
    assert items[..|items|] == items;
    assert arr[..|items|] == arr[..];
    return Ok(arr[..]);
  }

  /** LinkedHashMap.put over an ordered member list: an existing key keeps
      its place and takes the new value, a new key goes at the end. */
  function Put(m: Members, key: string, v: Json): (r: Members)
    ensures Get(r, key) == Some(v)
    ensures forall k :: k != key ==> Get(r, k) == Get(m, k)
  {
    if m == [] then [(key, v)]
    else if m[0].0 == key then
      var r := [(key, v)] + m[1..];
      assert r[1..] == m[1..];
      r
    else
      var r := [m[0]] + Put(m[1..], key, v);
      assert r[1..] == Put(m[1..], key, v);
      r
  }

  /** The key order after a put: unchanged for an existing key, the new
      key last otherwise. */
  lemma {:induction false} PutKeys(m: Members, key: string, v: Json)
    ensures key in Keys(m) ==> Keys(Put(m, key, v)) == Keys(m)
    ensures key !in Keys(m) ==> Keys(Put(m, key, v)) == Keys(m) + [key]
    decreases |m|
  {
    if m != [] {
      var r := Put(m, key, v);
      assert Keys(m) == [m[0].0] + Keys(m[1..]);
      if m[0].0 == key {
        assert r[1..] == m[1..];
        assert Keys(r) == [key] + Keys(m[1..]);
      } else {
        PutKeys(m[1..], key, v);
        assert r[1..] == Put(m[1..], key, v);
        assert Keys(r) == [m[0].0] + Keys(Put(m[1..], key, v));
      }
    }
  }
}
