/** The two decisions the server-kit menu makes before any request is
    sent: whether the "Connect..." action tries to connect at all, and what
    choosing an algorithm does with the parameter schema the server
    publishes (a JSON object whose members are parameter names, each
    described by "title", "widget_type", "default", optionally
    "description", and "enum" for dropdowns). */
module ServerKitUI {
  import opened Wrappers
  import opened Json
  import opened Parameters
  import opened Streams
  import opened Connection

  /** What the "Connect..." action ends with. */
  datatype ConnectOutcome =
    | Cancelled        // the dialog was dismissed
    | NoAddress        // the address field was null or empty
    | InvalidUrl       // MalformedURLException: "Invalid URL" message
    | CouldNotConnect  // IOException: "Could not connect" notification
    | ConnectedTo      // success notification; the algorithm menu is then rebuilt

  /** setOnConnect: a dismissed dialog or a null or empty address leaves
      the client alone; otherwise the client is launched on the address
      and the outcome reports how that went. */
  method SetOnConnect(client: ClientState, confirm: bool, text: Option<string>,
                      isValidUrl: string -> bool, probe: Probe)
    returns (outcome: ConnectOutcome)
    modifies client
    ensures !confirm ==> outcome == Cancelled && client.apiUrl == old(client.apiUrl)
    ensures confirm && (text.None? || text.value == "") ==>
              outcome == NoAddress && client.apiUrl == old(client.apiUrl)
    ensures confirm && text.Some? && text.value != "" ==>
              var url := NormaliseAddress(text.value);
              && (!isValidUrl(url) ==> outcome == InvalidUrl && client.apiUrl == old(client.apiUrl))
              && (isValidUrl(url) ==> client.apiUrl == Some(url)
                                      && (outcome == ConnectedTo <==> IsConnected(probe))
                                      && (outcome != ConnectedTo ==> outcome == CouldNotConnect))
  {
    if !confirm {
      return Cancelled;
    }
    if text.None? || text.value == "" {
      return NoAddress;
    }
    var r := client.LaunchHttpClient(text.value, isValidUrl, StatusOnly, probe);
    if r.Err? {
      outcome := if r.error == MalformedUrl then InvalidUrl else CouldNotConnect;
    } else {
      outcome := ConnectedTo;
    }
  }

  /** The widget names the schema switch recognises. */
  function WidgetType(name: string): Option<Widget> {
    if name == "bool" then Some(BoolWidget)
    else if name == "int" then Some(IntWidget)
    else if name == "float" then Some(FloatWidget)
    else if name == "str" then Some(StringWidget)
    else if name == "dropdown" then Some(ChoiceWidget)
    else None
  }

  /** The widget name a schema uses for each kind of parameter. */
  function WidgetName(w: Widget): (name: string)
    ensures WidgetType(name) == Some(w)
  {
    match w
    case BoolWidget => "bool"
    case IntWidget => "int"
    case FloatWidget => "float"
    case StringWidget => "str"
    case ChoiceWidget => "dropdown"
  }

  /** One schema entry, read in the source's order: the entry's value as
      an object, its title, its optional description, its optional
      default, then the widget type that selects the case. The entry's
      name is the parameter's key; ints and floats get no unit. */
  function ParseEntry(entry: (string, Json)): (r: Result<Option<Param>>)
    ensures !entry.1.JObj? ==> r == Err(IllegalState)
    ensures entry.1.JObj? && "title" !in Keys(entry.1.members) ==> r == Err(NullPointer)
    ensures entry.1.JObj? && "widget_type" !in Keys(entry.1.members) ==> r.Err?
    ensures r.Ok? ==> entry.1.JObj? && RequiredString(entry.1.members, "widget_type").Ok?
    ensures r.Ok? ==> (r.value.None? <==> WidgetType(RequiredString(entry.1.members, "widget_type").value).None?)
    ensures r.Ok? && r.value.Some? ==>
      var x := r.value.value;
      var m := entry.1.members;
      && WellFormed(x)
      && UnitOf(x) == None
      && x.key == entry.0
      && WidgetType(RequiredString(m, "widget_type").value) == Some(WidgetOf(x))
      && RequiredString(m, "title") == Ok(x.prompt)
      && OptionalString(m, "description") == Ok(x.description)
  {
    var values :- AsObject(entry.1);
    var prompt :- RequiredString(values, "title");
    var description :- OptionalString(values, "description");
    var widgetName :- RequiredString(values, "widget_type");
    match WidgetType(widgetName)
    case None => Ok(None)
    case Some(w) =>
      var x :- MakeParam(w, entry.0, prompt, Get(values, "default"), None, description, values, "enum");
      Ok(Some(x))
  }

  /** The loop over the schema's entries, in the object's member order,
      each recognised entry added to a fresh ParameterList under its key. */
  function SchemaParameters(schema: Members): (r: Result<seq<Param>>)
    ensures r.Ok? ==> DistinctParamKeys(r.value)
  {
    var body :- Collect(ParseEntry, schema);
    Ok(PutAll([], body))
  }

  /** An entry whose widget type no case matches adds nothing and raises
      nothing. */
  lemma UnknownWidgetSkipped(a: Members, entry: (string, Json), b: Members)
    requires ParseEntry(entry) == Ok(None)
    ensures SchemaParameters(a + [entry] + b) == SchemaParameters(a + b)
  {
    CollectSkips(ParseEntry, a, entry, b);
  }

  /** Every parameter the schema gives is well-formed and has no unit. */
  lemma SchemaParametersWellFormed(schema: Members)
    requires SchemaParameters(schema).Ok?
    ensures forall k :: 0 <= k < |SchemaParameters(schema).value| ==>
              WellFormed(SchemaParameters(schema).value[k]) && UnitOf(SchemaParameters(schema).value[k]) == None
  {
    var body := Collect(ParseEntry, schema).value;
    CollectKeeps(ParseEntry, schema, (x: Param) => WellFormed(x) && UnitOf(x) == None);
    assert forall y :: y in body ==> WellFormed(y) && UnitOf(y) == None;
  }

  /** The body of the loop for one entry. */
  method ReadEntry(entry: (string, Json)) returns (r: Result<Option<Param>>)
    ensures r == ParseEntry(entry)
  {
    var values := AsObject(entry.1);
    if values.Err? {
      return Err(values.error);
    }
    var prompt := RequiredString(values.value, "title");
    if prompt.Err? {
      return Err(prompt.error);
    }
    var description := OptionalString(values.value, "description");
    if description.Err? {
      return Err(description.error);
    }
    var defaultValue := Get(values.value, "default");
    var widgetName := RequiredString(values.value, "widget_type");
    if widgetName.Err? {
      return Err(widgetName.error);
    }
    var w := WidgetType(widgetName.value);
    if w.None? {
      return Ok(None);
    }
    var x := AddParam(w.value, entry.0, prompt.value, defaultValue, None, description.value, values.value, "enum");
    if x.Err? {
      return Err(x.error);
    }
    return Ok(Some(x.value));
  }

  /** The schema loop of setOnAlgo: a fresh ParameterList filled entry by
      entry. */
  method FillParameterList(schema: Members) returns (r: Result<seq<Param>>)
    ensures r == SchemaParameters(schema)
  {
    var params: seq<Param> := [];
    ghost var acc: seq<Param> := [];
    for i := 0 to |schema|
      invariant Collect(ParseEntry, schema[..i]) == Ok(acc)
      invariant params == PutAll([], acc)
    {
      var x := ReadEntry(schema[i]);
      if x.Err? {
        CollectFailsAt(ParseEntry, schema, i);
        return Err(x.error);
      }
      CollectExtends(ParseEntry, schema, i, acc);
      if x.value.Some? {
        PutAllSnoc([], acc, x.value.value);
        params := PutParam(params, x.value.value);
      } else {
        assert acc + Kept(x.value) == acc;
      }
      acc := acc + Kept(x.value);
    }
    assert schema[..|schema|] == schema;
    return Ok(params);
  }

  /** getParameters: the reply body as an object, and the object under
      its "properties" member. A body that is not JSON is a syntax error,
      a missing member a NullPointerException, a wrong shape an
      IllegalStateException. */
  function ParametersSchema(body: Option<Json>): (r: Result<Members>)
    ensures body.None? ==> r == Err(JsonSyntax)
    ensures r.Ok? ==> body.Some? && body.value.JObj?
                      && Get(body.value.members, "properties") == Some(JObj(r.value))
  {
    if body.None? then Err(JsonSyntax)
    else
      var top :- AsObject(body.value);
      var props :- Require(top, "properties");
      AsObject(props)
  }

  /** What choosing an algorithm leads to. */
  datatype AlgoAction =
    | NotConnectedLogged          // the client is not connected: logged, nothing else
    | RunDirectly                 // run with a null parameter list, no dialog
    | OpenDialog(params: seq<Param>)
    | ErrorLogged(error: Exception)

  /** setOnAlgo: an empty schema runs the algorithm at once; a non-empty
      one opens a dialog on its parameters; any exception on the way is
      caught and logged. */
  function OnAlgo(connected: bool, schema: Result<Members>): (a: AlgoAction)
    ensures !connected <==> a == NotConnectedLogged
    ensures a == RunDirectly <==> connected && schema == Ok([])
    ensures a.OpenDialog? ==> schema.Ok? && schema.value != [] && SchemaParameters(schema.value) == Ok(a.params)
    ensures a.ErrorLogged? ==> schema.Err? || SchemaParameters(schema.value).Err?
  {
    if !connected then NotConnectedLogged
    else match schema
      case Err(e) => ErrorLogged(e)
      case Ok(m) =>
        if m == [] then RunDirectly
        else match SchemaParameters(m)
          case Err(e) => ErrorLogged(e)
          case Ok(params) => OpenDialog(params)
  }

  /** setOnAlgo as the source runs it. */
  method SetOnAlgo(connected: bool, schema: Result<Members>) returns (a: AlgoAction)
    ensures a == OnAlgo(connected, schema)
  {
    if !connected {
      return NotConnectedLogged;
    }
    if schema.Err? {
      return ErrorLogged(schema.error);
    }
    if schema.value == [] {
      return RunDirectly;
    }
    var params := FillParameterList(schema.value);
    if params.Err? {
      return ErrorLogged(params.error);
    }
    return OpenDialog(params.value);
  }

  /** The schema entry a server would publish for a parameter. */
  function DescribeEntry(x: Param): (string, Json)
    requires WellFormed(x)
  {
    (x.key, JObj([("title", JStr(x.prompt)), ("default", DefaultJson(x)), ("widget_type", JStr(WidgetName(WidgetOf(x))))]
                 + (OptionalMember("description", x.description)
                    + (if x.ChoiceParam? then [("enum", JArr(Strings(x.choices)))] else []))))
  }

  /** Looking up a key past three leading members. */
  lemma GetPastThree(e0: (string, Json), e1: (string, Json), e2: (string, Json), rest: Members, key: string)
    ensures Get([e0, e1, e2] + rest, key) ==
      if e0.0 == key then Some(e0.1)
      else if e1.0 == key then Some(e1.1)
      else if e2.0 == key then Some(e2.1)
      else Get(rest, key)
  {
    assert [e0, e1, e2] + rest == [e0] + ([e1] + ([e2] + rest));
    GetCons(e0, [e1] + ([e2] + rest), key);
    GetCons(e1, [e2] + rest, key);
    GetCons(e2, rest, key);
  }

  lemma GetDescribeEntry(x: Param)
    requires WellFormed(x)
    ensures var m := DescribeEntry(x).1.members;
      && Get(m, "title") == Some(JStr(x.prompt))
      && Get(m, "default") == Some(DefaultJson(x))
      && Get(m, "widget_type") == Some(JStr(WidgetName(WidgetOf(x))))
      && Get(m, "description") == (if x.description.Some? then Some(JStr(x.description.value)) else None)
      && (x.ChoiceParam? ==> Get(m, "enum") == Some(JArr(Strings(x.choices))))
  {
    var e0, e1, e2 := ("title", JStr(x.prompt)), ("default", DefaultJson(x)), ("widget_type", JStr(WidgetName(WidgetOf(x))));
    var d := OptionalMember("description", x.description);
    var v: Members := if x.ChoiceParam? then [("enum", JArr(Strings(x.choices)))] else [];
    GetPastThree(e0, e1, e2, d + v, "title");
    GetPastThree(e0, e1, e2, d + v, "default");
    GetPastThree(e0, e1, e2, d + v, "widget_type");
    GetPastThree(e0, e1, e2, d + v, "description");
    GetPastThree(e0, e1, e2, d + v, "enum");
    GetAppend(d, v, "description");
    GetAppend(d, v, "enum");
  }

  /** An entry whose members hold a parameter's title, default, widget
      type, description and (for a dropdown) choices is read back as that
      parameter. */
  lemma ParseEntryOf(x: Param, m: Members)
    requires WellFormed(x) && UnitOf(x) == None
    requires Get(m, "title") == Some(JStr(x.prompt))
    requires Get(m, "default") == Some(DefaultJson(x))
    requires Get(m, "widget_type") == Some(JStr(WidgetName(WidgetOf(x))))
    requires Get(m, "description") == (if x.description.Some? then Some(JStr(x.description.value)) else None)
    requires x.ChoiceParam? ==> Get(m, "enum") == Some(JArr(Strings(x.choices)))
    ensures ParseEntry((x.key, JObj(m))) == Ok(Some(x))
  {
    MakeParamRoundTrip(x, m, "enum");
    assert RequiredString(m, "title") == Ok(x.prompt);
    assert OptionalString(m, "description") == Ok(x.description);
    assert RequiredString(m, "widget_type") == Ok(WidgetName(WidgetOf(x)));
    assert WidgetType(WidgetName(WidgetOf(x))) == Some(WidgetOf(x));
  }

  /** Every well-formed parameter without a unit survives being published
      as a schema entry and read back. */
  lemma ParseDescribeEntry(x: Param)
    requires WellFormed(x) && UnitOf(x) == None
    ensures ParseEntry(DescribeEntry(x)) == Ok(Some(x))
  {
    GetDescribeEntry(x);
    ParseEntryOf(x, DescribeEntry(x).1.members);
    assert DescribeEntry(x) == (x.key, JObj(DescribeEntry(x).1.members));
  }

  function DescribeSchema(xs: seq<Param>): (schema: Members)
    requires forall k :: 0 <= k < |xs| ==> WellFormed(xs[k])
    ensures |schema| == |xs|
    ensures forall i :: 0 <= i < |xs| ==> schema[i] == DescribeEntry(xs[i])
  {
    seq(|xs|, i requires 0 <= i < |xs| && WellFormed(xs[i]) => DescribeEntry(xs[i]))
  }

  /** The entries of a published schema, read back by the loop, are the
      published parameters in the same order. */
  lemma ParseDescribeSchema(xs: seq<Param>)
    requires forall k :: 0 <= k < |xs| ==> WellFormed(xs[k]) && UnitOf(xs[k]) == None
    ensures Collect(ParseEntry, DescribeSchema(xs)) == Ok(xs)
  {
    var schema := DescribeSchema(xs);
    forall i | 0 <= i < |schema|
      ensures ParseEntry(schema[i]) == Ok(Some(xs[i]))
    {
      ParseDescribeEntry(xs[i]);
    }
    CollectAll(ParseEntry, schema);
    assert Collect(ParseEntry, schema).value == xs;
  }

  /** A schema published for a list of unit-less parameters with distinct
      names (the keys of one JSON object) is read back as the same
      parameters in the same order. */
  lemma SchemaRoundTrip(xs: seq<Param>)
    requires forall k :: 0 <= k < |xs| ==> WellFormed(xs[k]) && UnitOf(xs[k]) == None
    requires DistinctParamKeys(xs)
    ensures SchemaParameters(DescribeSchema(xs)) == Ok(xs)
  {
    ParseDescribeSchema(xs);
    assert [] + xs == xs;
    PutAllDistinct([], xs);
  }
}
