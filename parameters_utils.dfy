/** ParametersUtils.createParameterList: a list of parameter descriptions,
    each a JSON object with "name", "display_name", "default_value",
    "type" (bool, int, float, string or list), and optionally "unit" and
    "description", becomes a ParameterList, headed by a title when one is
    given. */
module ParametersUtils {
  import opened Wrappers
  import opened Json
  import opened Parameters
  import opened Streams

  /** The type names the switch recognises. */
  function TypeWidget(name: string): Option<Widget> {
    if name == "bool" then Some(BoolWidget)
    else if name == "int" then Some(IntWidget)
    else if name == "float" then Some(FloatWidget)
    else if name == "string" then Some(StringWidget)
    else if name == "list" then Some(ChoiceWidget)
    else None
  }

  /** The type name a server writes for each kind of parameter. */
  function TypeName(w: Widget): (name: string)
    ensures TypeWidget(name) == Some(w)
  {
    match w
    case BoolWidget => "bool"
    case IntWidget => "int"
    case FloatWidget => "float"
    case StringWidget => "string"
    case ChoiceWidget => "list"
  }

  /** One description read in the order the source reads it: name,
      display_name, unit, description, then the type that selects the
      case. Ok(None) is a description whose type no case matches. */
  function ParseParameter(p: Members): (r: Result<Option<Param>>)
    ensures "name" !in Keys(p) ==> r == Err(NullPointer)
    ensures RequiredString(p, "name").Ok? && "display_name" !in Keys(p) ==> r == Err(NullPointer)
    ensures "type" !in Keys(p) ==> r.Err?
    ensures r.Ok? ==> RequiredString(p, "type").Ok?
    ensures r.Ok? ==> (r.value.None? <==> TypeWidget(RequiredString(p, "type").value).None?)
    ensures (&& RequiredString(p, "name").Ok? && RequiredString(p, "display_name").Ok?
             && OptionalString(p, "unit").Ok? && OptionalString(p, "description").Ok?
             && RequiredString(p, "type").Ok? && TypeWidget(RequiredString(p, "type").value).None?)
            ==> r == Ok(None)
    ensures (&& RequiredString(p, "type").Ok? && TypeWidget(RequiredString(p, "type").value).Some?
             && TypeWidget(RequiredString(p, "type").value).value != ChoiceWidget
             && "default_value" !in Keys(p)) ==> r.Err?
    ensures r.Ok? && r.value.Some? ==>
      var x := r.value.value;
      && WellFormed(x)
      && TypeWidget(RequiredString(p, "type").value) == Some(WidgetOf(x))
      && RequiredString(p, "name") == Ok(x.key)
      && RequiredString(p, "display_name") == Ok(x.prompt)
      && OptionalString(p, "description") == Ok(x.description)
      && (x.IntParam? || x.DoubleParam? ==> OptionalString(p, "unit") == Ok(x.unit))
  {
    var key :- RequiredString(p, "name");
    var prompt :- RequiredString(p, "display_name");
    var unit :- OptionalString(p, "unit");
    var description :- OptionalString(p, "description");
    var typeName :- RequiredString(p, "type");
    match TypeWidget(typeName)
    case None => Ok(None)
    case Some(w) =>
      var x :- MakeParam(w, key, prompt, Get(p, "default_value"), unit, description, p, "values");
      Ok(Some(x))
  }

  /** The loop over the descriptions. */
  function ParseAll(ps: seq<Members>): (r: Result<seq<Param>>)
  {
    Collect(ParseParameter, ps)
  }

  /** A description whose type no case matches is skipped without trace:
      the list is what it would be without it. */
  lemma UnknownTypeSkipped(a: seq<Members>, p: Members, b: seq<Members>)
    requires ParseParameter(p) == Ok(None)
    ensures ParseAll(a + [p] + b) == ParseAll(a + b)
  {
    CollectSkips(ParseParameter, a, p, b);
  }

  /** When every description is recognised, the list holds one parameter
      per description, at the same position. */
  lemma OnePerDescription(ps: seq<Members>)
    requires forall i :: 0 <= i < |ps| ==> ParseParameter(ps[i]).Ok? && ParseParameter(ps[i]).value.Some?
    ensures ParseAll(ps).Ok? && |ParseAll(ps).value| == |ps|
    ensures forall i :: 0 <= i < |ps| ==> ParseAll(ps).value[i] == ParseParameter(ps[i]).value.value
  {
    CollectAll(ParseParameter, ps);
  }

  /** The first description that raises an exception decides the
      outcome: the loop completes only when every description reads. */
  lemma FailsIffSomeFails(ps: seq<Members>)
    ensures ParseAll(ps).Ok? <==> forall i :: 0 <= i < |ps| ==> ParseParameter(ps[i]).Ok?
  {
    var r := Collect(ParseParameter, ps);
  }

  /** The title entry a non-null title adds. */
  function Heading(title: Option<string>): seq<Param> {
    if title.Some? then [TitleParam(title.value)] else []
  }

  /** createParameterList: nothing at all (not even the title) for a null
      or empty list, otherwise the title first, then each parameter added
      under its name. The list holds at most one entry per name. */
  function ParameterListOf(parameters: Option<seq<Members>>, title: Option<string>): (r: Result<seq<Param>>)
    ensures parameters.None? || parameters.value == [] ==> r == Ok([])
    ensures r.Ok? && parameters.Some? && parameters.value != [] && title.Some? ==>
      |r.value| > 0 && r.value[0] == TitleParam(title.value)
    ensures r.Ok? ==> DistinctParamKeys(r.value)
  {
    if parameters.None? || parameters.value == [] then Ok([])
    else
      var body :- ParseAll(parameters.value);
      Ok(PutAll(Heading(title), body))
  }

  /** Apart from the title, every entry of the list is a well-formed
      parameter: ints fit a Java int, choice lists are non-empty and
      default to their first entry. */
  lemma ParameterListWellFormed(parameters: Option<seq<Members>>, title: Option<string>)
    requires ParameterListOf(parameters, title).Ok?
    ensures var r := ParameterListOf(parameters, title).value;
      forall k :: |Heading(title)| <= k < |r| ==> WellFormed(r[k])
  {
    if parameters.Some? && parameters.value != [] {
      var body := ParseAll(parameters.value).value;
      CollectKeeps(ParseParameter, parameters.value, WellFormed);
      assert forall y :: y in body ==> WellFormed(y);
    }
  }

  /** The body of the loop for one description: the fields are read in
      the source's order, and the matching case adds one parameter. */
  method ReadParameter(p: Members) returns (r: Result<Option<Param>>)
    ensures r == ParseParameter(p)
  {
    var key := RequiredString(p, "name");
    if key.Err? {
      return Err(key.error);
    }
    var prompt := RequiredString(p, "display_name");
    if prompt.Err? {
      return Err(prompt.error);
    }
    var unit := OptionalString(p, "unit");
    if unit.Err? {
      return Err(unit.error);
    }
    var description := OptionalString(p, "description");
    if description.Err? {
      return Err(description.error);
    }
    var typeName := RequiredString(p, "type");
    if typeName.Err? {
      return Err(typeName.error);
    }
    var w := TypeWidget(typeName.value);
    if w.None? {
      return Ok(None);
    }
    var x := AddParam(w.value, key.value, prompt.value, Get(p, "default_value"),
                      unit.value, description.value, p, "values");
    if x.Err? {
      return Err(x.error);
    }
    return Ok(Some(x.value));
  }

  /** createParameterList as the source runs it: successive `add` calls on
      a growing list. */
  method CreateParameterList(parameters: Option<seq<Members>>, title: Option<string>)
    returns (r: Result<seq<Param>>)
    ensures r == ParameterListOf(parameters, title)
  {
    var params: seq<Param> := [];
    if parameters.None? || parameters.value == [] {
      return Ok(params);
    }
    if title.Some? {
      params := params + [TitleParam(title.value)];
    }
    assert params == Heading(title);
    r := AddEach(params, parameters.value);
  }

  /** The loop of createParameterList: one `add` per recognised
      description, put into what the list already holds. */
  method AddEach(params0: seq<Param>, ps: seq<Members>) returns (r: Result<seq<Param>>)
    ensures ParseAll(ps).Err? ==> r == Err(ParseAll(ps).error)
    ensures ParseAll(ps).Ok? ==> r == Ok(PutAll(params0, ParseAll(ps).value))
  {
    var params := params0;
    ghost var acc: seq<Param> := [];
    for i := 0 to |ps|
      invariant Collect(ParseParameter, ps[..i]) == Ok(acc)
      invariant params == PutAll(params0, acc)
    {
      var x := ReadParameter(ps[i]);
      if x.Err? {
        CollectFailsAt(ParseParameter, ps, i);
        return Err(x.error);
      }
      CollectExtends(ParseParameter, ps, i, acc);
      if x.value.Some? {
        PutAllSnoc(params0, acc, x.value.value);
        params := PutParam(params, x.value.value);
      } else {
        assert acc + Kept(x.value) == acc;
      }
      acc := acc + Kept(x.value);
    }
    assert ps[..|ps|] == ps;
    return Ok(params);
  }

  /** The description a server would send for a parameter. */
  function Describe(x: Param): Members
    requires WellFormed(x)
  {
    [("name", JStr(x.key)), ("display_name", JStr(x.prompt)),
     ("default_value", DefaultJson(x)), ("type", JStr(TypeName(WidgetOf(x))))]
    + (OptionalMember("unit", UnitOf(x))
       + (OptionalMember("description", x.description)
          + (if x.ChoiceParam? then [("values", JArr(Strings(x.choices)))] else [])))
  }

  /** Looking up a key past four leading members. */
  lemma GetPastFour(e0: (string, Json), e1: (string, Json), e2: (string, Json), e3: (string, Json),
                    rest: Members, key: string)
    ensures Get([e0, e1, e2, e3] + rest, key) ==
      if e0.0 == key then Some(e0.1)
      else if e1.0 == key then Some(e1.1)
      else if e2.0 == key then Some(e2.1)
      else if e3.0 == key then Some(e3.1)
      else Get(rest, key)
  {
    assert [e0, e1, e2, e3] + rest == [e0] + ([e1] + ([e2] + ([e3] + rest)));
    GetCons(e0, [e1] + ([e2] + ([e3] + rest)), key);
    GetCons(e1, [e2] + ([e3] + rest), key);
    GetCons(e2, [e3] + rest, key);
    GetCons(e3, rest, key);
  }

  /** Where the four members every description has are found. */
  lemma GetHead(name: Json, prompt: Json, default: Json, typeName: Json, rest: Members)
    ensures var m := [("name", name), ("display_name", prompt), ("default_value", default), ("type", typeName)] + rest;
      && Get(m, "name") == Some(name)
      && Get(m, "display_name") == Some(prompt)
      && Get(m, "default_value") == Some(default)
      && Get(m, "type") == Some(typeName)
      && Get(m, "unit") == Get(rest, "unit")
      && Get(m, "description") == Get(rest, "description")
      && Get(m, "values") == Get(rest, "values")
  {
    var e0, e1, e2, e3 := ("name", name), ("display_name", prompt), ("default_value", default), ("type", typeName);
    GetPastFour(e0, e1, e2, e3, rest, "name");
    GetPastFour(e0, e1, e2, e3, rest, "display_name");
    GetPastFour(e0, e1, e2, e3, rest, "default_value");
    GetPastFour(e0, e1, e2, e3, rest, "type");
    GetPastFour(e0, e1, e2, e3, rest, "unit");
    GetPastFour(e0, e1, e2, e3, rest, "description");
    GetPastFour(e0, e1, e2, e3, rest, "values");
  }

  /** Where the optional members are found. */
  lemma GetTail(unit: Option<string>, description: Option<string>, values: Members)
    requires Keys(values) == [] || Keys(values) == ["values"]
    ensures var m := OptionalMember("unit", unit) + (OptionalMember("description", description) + values);
      && Get(m, "unit") == (if unit.Some? then Some(JStr(unit.value)) else None)
      && Get(m, "description") == (if description.Some? then Some(JStr(description.value)) else None)
      && Get(m, "values") == Get(values, "values")
  {
    var u := OptionalMember("unit", unit);
    var d := OptionalMember("description", description);
    GetAppend(u, d + values, "unit");
    GetAppend(u, d + values, "description");
    GetAppend(u, d + values, "values");
    GetAppend(d, values, "unit");
    GetAppend(d, values, "description");
    GetAppend(d, values, "values");
  }

  lemma GetDescribe(x: Param)
    requires WellFormed(x)
    ensures Get(Describe(x), "name") == Some(JStr(x.key))
    ensures Get(Describe(x), "display_name") == Some(JStr(x.prompt))
    ensures Get(Describe(x), "default_value") == Some(DefaultJson(x))
    ensures Get(Describe(x), "type") == Some(JStr(TypeName(WidgetOf(x))))
    ensures Get(Describe(x), "unit") == if UnitOf(x).Some? then Some(JStr(UnitOf(x).value)) else None
    ensures Get(Describe(x), "description") == if x.description.Some? then Some(JStr(x.description.value)) else None
    ensures x.ChoiceParam? ==> Get(Describe(x), "values") == Some(JArr(Strings(x.choices)))
  {
    var v: Members := if x.ChoiceParam? then [("values", JArr(Strings(x.choices)))] else [];
    var rest := OptionalMember("unit", UnitOf(x)) + (OptionalMember("description", x.description) + v);
    GetHead(JStr(x.key), JStr(x.prompt), DefaultJson(x), JStr(TypeName(WidgetOf(x))), rest);
    GetTail(UnitOf(x), x.description, v);
  }

  /** Every well-formed parameter survives being described and read back:
      the reader loses nothing a description can carry. */
  lemma ParseDescribe(x: Param)
    requires WellFormed(x)
    ensures ParseParameter(Describe(x)) == Ok(Some(x))
  {
    var d := Describe(x);
    GetDescribe(x);
    MakeParamRoundTrip(x, d, "values");
    assert RequiredString(d, "name") == Ok(x.key);
    assert RequiredString(d, "display_name") == Ok(x.prompt);
    assert OptionalString(d, "unit") == Ok(UnitOf(x));
    assert OptionalString(d, "description") == Ok(x.description);
    assert RequiredString(d, "type") == Ok(TypeName(WidgetOf(x)));
  }

  function DescribeAll(xs: seq<Param>): (ps: seq<Members>)
    requires forall k :: 0 <= k < |xs| ==> WellFormed(xs[k])
    ensures |ps| == |xs|
    ensures forall i :: 0 <= i < |xs| ==> ps[i] == Describe(xs[i])
  {
    seq(|xs|, i requires 0 <= i < |xs| && WellFormed(xs[i]) => Describe(xs[i]))
  }

  /** Well-formed parameters, described and read back by the loop, are
      the same parameters in the same order. */
  lemma ParseDescribeAll(xs: seq<Param>)
    requires forall k :: 0 <= k < |xs| ==> WellFormed(xs[k])
    ensures ParseAll(DescribeAll(xs)) == Ok(xs)
  {
    var ps := DescribeAll(xs);
    forall i | 0 <= i < |ps|
      ensures ParseParameter(ps[i]) == Ok(Some(xs[i]))
    {
      ParseDescribe(xs[i]);
    }
    OnePerDescription(ps);
    assert ParseAll(ps).value == xs;
  }

  /** A non-empty list of well-formed parameters with distinct names,
      described and read back, gives the title (when there is one)
      followed by the same parameters in the same order. */
  lemma CreateRoundTrip(xs: seq<Param>, title: Option<string>)
    requires xs != []
    requires forall k :: 0 <= k < |xs| ==> WellFormed(xs[k])
    requires DistinctParamKeys(xs)
    ensures ParameterListOf(Some(DescribeAll(xs)), title) == Ok(Heading(title) + xs)
  {
    ParseDescribeAll(xs);
    HeadingDistinct(title, xs);
    PutAllDistinct(Heading(title), xs);
  }

  /** The title entry never shares a key with a parameter. */
  lemma HeadingDistinct(title: Option<string>, xs: seq<Param>)
    requires DistinctParamKeys(xs)
    ensures DistinctParamKeys(Heading(title) + xs)
  {
    var l := Heading(title) + xs;
    var n := |Heading(title)|;
    forall i, j | 0 <= i < j < |l|
      ensures !SameKey(l[i], l[j])
    {
      if i >= n {
        assert l[i] == xs[i - n] && l[j] == xs[j - n];
      }
    }
  }

  /** Two descriptions with the same name leave one entry: the later
      parameter, in the place the earlier one took. */
  lemma RepeatedNameReplaces(x: Param, y: Param, title: Option<string>)
    requires WellFormed(x) && WellFormed(y) && x.key == y.key
    ensures ParameterListOf(Some(DescribeAll([x, y])), title) == Ok(Heading(title) + [y])
  {
    ParseDescribeAll([x, y]);
    RepeatedEntryReplaces(DescribeAll([x, y]), title, x, y);
  }

  /** Two entries read back as parameters with the same name leave the
      later one, after the title. */
  lemma RepeatedEntryReplaces(ps: seq<Members>, title: Option<string>, x: Param, y: Param)
    requires !x.TitleParam? && !y.TitleParam? && x.key == y.key
    requires ParseAll(ps) == Ok([x, y])
    ensures ParameterListOf(Some(ps), title) == Ok(Heading(title) + [y])
  {
    var h := Heading(title);
    assert DistinctParamKeys(h + [x]) by {
      assert h + [x] == if title.Some? then [TitleParam(title.value), x] else [x];
    }
    RepeatedKeyReplaces(h, x, y);
  }
}
