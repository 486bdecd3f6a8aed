/** The parameter descriptors a schema is translated into (the entries of
    QuPath's ParameterList), and the one translation step both schema
    readers share: the `switch` on a type name that calls one of
    `addBooleanParameter`, `addIntParameter`, `addDoubleParameter`,
    `addStringParameter` or `addChoiceParameter`. */
module Parameters {
  import opened Wrappers
  import opened Json

  /** One entry of a ParameterList, with the arguments it was added with. */
  datatype Param =
    | TitleParam(title: string)
    | BoolParam(key: string, prompt: string, flag: bool, description: Option<string>)
    | IntParam(key: string, prompt: string, whole: int, unit: Option<string>, description: Option<string>)
    | DoubleParam(key: string, prompt: string, number: real, unit: Option<string>, description: Option<string>)
    | StringParam(key: string, prompt: string, text: string, description: Option<string>)
    | ChoiceParam(key: string, prompt: string, choice: string, choices: seq<string>, description: Option<string>)

  /** The five kinds of parameter a type name can select. */
  datatype Widget = BoolWidget | IntWidget | FloatWidget | StringWidget | ChoiceWidget

  /** What a parameter built from a schema entry always satisfies: an int
      fits a Java int, and a choice list is non-empty and its default is
      its first entry. */
  predicate WellFormed(x: Param) {
    && !x.TitleParam?
    && (x.IntParam? ==> IsInt32(x.whole))
    && (x.ChoiceParam? ==> |x.choices| > 0 && x.choice == x.choices[0])
  }

  /** The widget a finished parameter was built by. */
  function WidgetOf(x: Param): Widget
    requires !x.TitleParam?
  {
    match x
    case BoolParam(_, _, _, _) => BoolWidget
    case IntParam(_, _, _, _, _) => IntWidget
    case DoubleParam(_, _, _, _, _) => FloatWidget
    case StringParam(_, _, _, _) => StringWidget
    case ChoiceParam(_, _, _, _, _) => ChoiceWidget
  }

  /** `o.get(key) != null ? o.get(key).getAsString() : null`: an absent
      member is Java null, a present one must read as a string (JSON null
      does not). */
  function OptionalString(m: Members, key: string): (r: Result<Option<string>>)
    ensures key !in Keys(m) ==> r == Ok(None)
    ensures Get(m, key) == Some(JNull) ==> r == Err(UnsupportedOperation)
    ensures r.Ok? && r.value.Some? ==> AsString(Get(m, key).value) == Ok(r.value.value)
  {
    match Get(m, key)
    case None => Ok(None)
    case Some(v) =>
      var s :- AsString(v);
      Ok(Some(s))
  }

  /** `o.get(key).getAsString()`: a missing member is a
      NullPointerException. */
  function RequiredString(m: Members, key: string): (r: Result<string>)
    ensures key !in Keys(m) ==> r == Err(NullPointer)
    ensures key in Keys(m) ==> r == AsString(Get(m, key).value)
  {
    var j :- Require(m, key);
    AsString(j)
  }

  /** A default value that is dereferenced: Java null is a
      NullPointerException. */
  function Present(v: Option<Json>): (r: Result<Json>)
    ensures v.None? <==> r == Err(NullPointer)
    ensures v.Some? ==> r == Ok(v.value)
  {
    if v.Some? then Ok(v.value) else Err(NullPointer)
  }

  /** The body of one `case` of the switch. The default is read only by
      the four scalar widgets; the choice widget reads the array stored
      under `choicesKey` instead, and its default is the array's first
      entry (`choices[0]`, an ArrayIndexOutOfBoundsException when the
      array is empty). */
  function MakeParam(w: Widget, key: string, prompt: string, defaultValue: Option<Json>,
                     unit: Option<string>, description: Option<string>, m: Members, choicesKey: string)
    : (r: Result<Param>)
    ensures r.Ok? ==> WellFormed(r.value) && WidgetOf(r.value) == w
    ensures r.Ok? ==> r.value.key == key && r.value.prompt == prompt && r.value.description == description
    ensures r.Ok? && (w == IntWidget || w == FloatWidget) ==> r.value.unit == unit
    ensures w != ChoiceWidget && defaultValue.None? ==> r == Err(NullPointer)
    ensures w == ChoiceWidget && choicesKey !in Keys(m) ==> r == Err(NullPointer)
    ensures w == ChoiceWidget && Get(m, choicesKey) == Some(JArr([])) ==> r == Err(IndexOutOfBounds)
    ensures r.Ok? && w == ChoiceWidget ==>
      && Get(m, choicesKey).Some? && Get(m, choicesKey).value.JArr?
      && var items := Get(m, choicesKey).value.items;
      && |r.value.choices| == |items|
      && forall i :: 0 <= i < |items| ==> AsString(items[i]) == Ok(r.value.choices[i])
  {
    match w
    case BoolWidget =>
      var d :- Present(defaultValue);
      var b :- AsBool(d);
      Ok(BoolParam(key, prompt, b, description))
    case IntWidget =>
      var d :- Present(defaultValue);
      var n :- AsInt(d);
      Ok(IntParam(key, prompt, n, unit, description))
    case FloatWidget =>
      var d :- Present(defaultValue);
      var v :- AsDouble(d);
      Ok(DoubleParam(key, prompt, v, unit, description))
    case StringWidget =>
      var d :- Present(defaultValue);
      var s :- AsString(d);
      Ok(StringParam(key, prompt, s, description))
    case ChoiceWidget =>
      var arr :- Require(m, choicesKey);
      var items :- AsArray(arr);
      var choices :- AsStrings(items);
      if |choices| == 0 then Err(IndexOutOfBounds)
      else Ok(ChoiceParam(key, prompt, choices[0], choices, description))
  }

  /** One `case` of the switch as the source runs it, with the choices
      copied into a fresh array by the loop in FillStrings. */
  method AddParam(w: Widget, key: string, prompt: string, defaultValue: Option<Json>,
                  unit: Option<string>, description: Option<string>, m: Members, choicesKey: string)
    returns (r: Result<Param>)
    ensures r == MakeParam(w, key, prompt, defaultValue, unit, description, m, choicesKey)
  {
    if w == ChoiceWidget {
      var arr := Require(m, choicesKey);
      if arr.Err? {
        return Err(arr.error);
      }
      var items := AsArray(arr.value);
      if items.Err? {
        return Err(items.error);
      }
      var choices := FillStrings(items.value);
      if choices.Err? {
        return Err(choices.error);
      }
      if |choices.value| == 0 {
        return Err(IndexOutOfBounds);
      }
      return Ok(ChoiceParam(key, prompt, choices.value[0], choices.value, description));
    }
    if defaultValue.None? {
      return Err(NullPointer);
    }
    var d := defaultValue.value;
    match w {
      case BoolWidget =>
        var b := AsBool(d);
        r := if b.Ok? then Ok(BoolParam(key, prompt, b.value, description)) else Err(b.error);
      case IntWidget =>
        var n := AsInt(d);
        r := if n.Ok? then Ok(IntParam(key, prompt, n.value, unit, description)) else Err(n.error);
      case FloatWidget =>
        var v := AsDouble(d);
        r := if v.Ok? then Ok(DoubleParam(key, prompt, v.value, unit, description)) else Err(v.error);
      case StringWidget =>
        var s := AsString(d);
        r := if s.Ok? then Ok(StringParam(key, prompt, s.value, description)) else Err(s.error);
    }
  }

  /** A JSON array of strings, as a server writes a list of names. */
  function Strings(ss: seq<string>): (js: seq<Json>)
    ensures |js| == |ss|
    ensures forall i :: 0 <= i < |ss| ==> js[i] == JStr(ss[i])
  {
    seq(|ss|, i requires 0 <= i < |ss| => JStr(ss[i]))
  }

  /** Reading back an array of strings gives the strings. */
  lemma StringsRoundTrip(ss: seq<string>)
    ensures AsStrings(Strings(ss)) == Ok(ss)
  {
    var r := AsStrings(Strings(ss));
    assert r.Ok?;
    assert r.value == ss;
  }

  /** The decimal text of an integer. */
  function DecimalText(n: int): string
    decreases if n < 0 then 1 - n else n
  {
    if n < 0 then "-" + DecimalText(-n)
    else if n < 10 then ["0123456789"[n]]
    else DecimalText(n / 10) + ["0123456789"[n % 10]]
  }

  /** The JSON default a server would send for a parameter. An integer
      carries its decimal text; a double's literal text is left empty,
      since the only readers of a default number are getAsInt and
      getAsDouble (AsInt, AsDouble), which read its value and never its
      text. */
  function DefaultJson(x: Param): Json
    requires !x.TitleParam?
  {
    match x
    case BoolParam(_, _, b, _) => JBool(b)
    case IntParam(_, _, n, _, _) => JNum(DecimalText(n), n as real)
    case DoubleParam(_, _, v, _, _) => JNum("", v)
    case StringParam(_, _, s, _) => JStr(s)
    case ChoiceParam(_, _, c, _, _) => JStr(c)
  }

  /** The unit a parameter carries, if its kind has one. */
  function UnitOf(x: Param): Option<string> {
    if x.IntParam? || x.DoubleParam? then x.unit else None
  }

  /** Every well-formed parameter is rebuilt exactly from its own default
      and choice list: the switch loses nothing. */
  lemma MakeParamRoundTrip(x: Param, m: Members, choicesKey: string)
    requires WellFormed(x)
    requires x.ChoiceParam? ==> Get(m, choicesKey) == Some(JArr(Strings(x.choices)))
    ensures MakeParam(WidgetOf(x), x.key, x.prompt, Some(DefaultJson(x)), UnitOf(x), x.description, m, choicesKey) == Ok(x)
  {
    if x.ChoiceParam? {
      StringsRoundTrip(x.choices);
    } else if x.IntParam? {
      assert TruncateTowardZero(x.whole as real) == x.whole;
    }
  }

  /** Two entries stored under the same key of a ParameterList. A title
      entry is stored under a key the list generates for it, taken here to
      differ from every parameter's key. */
  predicate SameKey(a: Param, b: Param) {
    !a.TitleParam? && !b.TitleParam? && a.key == b.key
  }

  /** The keys of a ParameterList are distinct, as a map's are. */
  predicate DistinctParamKeys(list: seq<Param>) {
    forall i, j :: 0 <= i < j < |list| ==> !SameKey(list[i], list[j])
  }

  /** Where the entry with `x`'s key sits, or |list| when there is none. */
  function KeyIndex(list: seq<Param>, x: Param): (i: nat)
    ensures i <= |list|
    ensures forall j :: 0 <= j < i ==> !SameKey(list[j], x)
    ensures i < |list| ==> SameKey(list[i], x)
  {
    if list == [] then 0
    else if SameKey(list[0], x) then 0
    else 1 + KeyIndex(list[1..], x)
  }

  /** One `add` call on a ParameterList, whose entries live in a
      LinkedHashMap: a new key goes last, an existing key keeps its place
      and takes the new entry. Every other entry is kept, and the keys
      stay distinct. */
  function PutParam(list: seq<Param>, x: Param): (r: seq<Param>)
    ensures KeyIndex(list, x) == |list| ==> r == list + [x]
    ensures KeyIndex(list, x) < |list| ==> |r| == |list| && r[KeyIndex(list, x)] == x
    ensures forall i :: 0 <= i < |list| && i != KeyIndex(list, x) ==> r[i] == list[i]
    ensures DistinctParamKeys(list) ==> DistinctParamKeys(r)
  {
    var i := KeyIndex(list, x);
    if i == |list| then list + [x]
    else
      var r := list[..i] + [x] + list[i + 1..];
      assert forall j :: 0 <= j < |list| && j != i ==> r[j] == list[j];
      r
  }

  /** Successive `add` calls, in order. */
  function PutAll(list: seq<Param>, xs: seq<Param>): (r: seq<Param>)
    ensures |list| <= |r| <= |list| + |xs|
    ensures forall i :: 0 <= i < |r| ==> (i < |list| && r[i] == list[i]) || r[i] in xs
    ensures forall i :: 0 <= i < |list| && list[i].TitleParam? ==> r[i] == list[i]
    ensures DistinctParamKeys(list) ==> DistinctParamKeys(r)
    decreases |xs|
  {
    if xs == [] then list
    else
      var init := xs[..|xs| - 1];
      var prev := PutAll(list, init);
      assert forall y :: y in init ==> y in xs;
      PutParam(prev, xs[|xs| - 1])
  }

  /** The step of the `add` loop. */
  lemma PutAllSnoc(list: seq<Param>, xs: seq<Param>, x: Param)
    ensures PutAll(list, xs + [x]) == PutParam(PutAll(list, xs), x)
  {
    assert (xs + [x])[..|xs|] == xs;
  }

  /** When no two entries share a key, every `add` appends. */
  lemma {:induction false} PutAllDistinct(list: seq<Param>, xs: seq<Param>)
    requires DistinctParamKeys(list + xs)
    ensures PutAll(list, xs) == list + xs
    decreases |xs|
  {
    if xs != [] {
      var n := |xs| - 1;
      var init := xs[..n];
      assert (list + xs)[..|list| + n] == list + init;
      assert DistinctParamKeys(list + init);
      PutAllDistinct(list, init);
      var x := xs[n];
      forall j | 0 <= j < |list| + n
        ensures !SameKey((list + init)[j], x)
      {
        assert (list + xs)[j] == (list + init)[j];
        assert (list + xs)[|list| + n] == x;
      }
    }
  }

  /** A repeated key keeps one entry: the later parameter replaces the
      earlier one in the earlier one's place. */
  lemma RepeatedKeyReplaces(list: seq<Param>, x: Param, y: Param)
    requires DistinctParamKeys(list + [x])
    requires SameKey(x, y)
    ensures PutAll(list, [x, y]) == list + [y]
  {
    var l := list + [x];
    PutAllDistinct(list, [x]);
    PutAllSnoc(list, [x], y);
    assert [x] + [y] == [x, y];
    forall j | 0 <= j < |list|
      ensures !SameKey(l[j], y)
    {
      assert !SameKey(l[j], l[|list|]);
    }
    assert SameKey(l[|list|], y);
    assert l[..|list|] + [y] + l[|list| + 1..] == list + [y];
  }
}
