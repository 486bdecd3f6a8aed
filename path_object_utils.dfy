/** PathObjectUtils: reading path objects out of a GeoJSON-shaped reply. A
    FeatureCollection (section 3.3 of RFC 7946) is unwrapped to its
    `features` member; an array of Features gives one object per element
    that parses; a single Feature (section 3.2) gives at most one object. */
module PathObjectUtils {
  import opened Wrappers
  import opened Json
  import opened Geometry

  /** QuPath's own deserialisation of one JSON object into a path object
      (`gson.fromJson(obj, PathObject.class)`). It is host code, so it is a
      parameter: it yields an object, Java null (None), or an exception. */
  type ObjectDecoder = Json -> Result<Option<PathObject>>

  /** parsePathObject: null for every element that is not a JSON object,
      otherwise what the host decoder makes of it. */
  function ParsePathObject(decode: ObjectDecoder, e: Json): (r: Result<Option<PathObject>>)
    ensures !e.JObj? ==> r == Ok(None)
    ensures e.JObj? ==> r == decode(e)
  {
    if !e.JObj? then Ok(None) else decode(e)
  }

  /** One element of a decoding stream. The lenient form is
      parsePathObject; the strict form calls `e.getAsJsonObject()` first,
      which raises IllegalStateException on a non-object. */
  function ParseElement(decode: ObjectDecoder, e: Json, strict: bool): (r: Result<Option<PathObject>>)
    ensures !e.JObj? && !strict ==> r == Ok(None)
    ensures !e.JObj? && strict ==> r == Err(IllegalState)
    ensures e.JObj? ==> r == decode(e)
  {
    if e.JObj? then decode(e)
    else if strict then Err(IllegalState)
    else Ok(None)
  }

  /** The object an element contributes to a successful decoding. */
  function Contribution(x: Option<PathObject>): seq<PathObject> {
    if x.Some? then [x.value] else []
  }

  /** `items.stream().map(parse).filter(Objects::nonNull).toList()`: the
      first exception stops the stream, nulls are dropped, order is kept. */
  function ParseElements(decode: ObjectDecoder, items: seq<Json>, strict: bool): (r: Result<seq<PathObject>>)
    ensures r.Ok? ==> |r.value| <= |items|
    decreases |items|
  {
    if items == [] then Ok([])
    else
      var prev :- ParseElements(decode, items[..|items| - 1], strict);
      var x :- ParseElement(decode, items[|items| - 1], strict);
      Ok(prev + Contribution(x))
  }

  /** A decoding succeeds exactly when every element is read without an
      exception. */
  lemma {:induction false} ParseElementsOk(decode: ObjectDecoder, items: seq<Json>, strict: bool)
    ensures ParseElements(decode, items, strict).Ok? <==>
            forall i :: 0 <= i < |items| ==> ParseElement(decode, items[i], strict).Ok?
    decreases |items|
  {
    if items != [] {
      var init := items[..|items| - 1];
      assert forall i :: 0 <= i < |init| ==> init[i] == items[i];
      ParseElementsOk(decode, init, strict);
    }
  }

  /** Decoding a concatenation decodes each part in turn: the order of the
      input is the order of the output, and the first failure wins. */
  lemma {:induction false} ParseElementsAppend(decode: ObjectDecoder, a: seq<Json>, b: seq<Json>, strict: bool)
    ensures ParseElements(decode, a + b, strict) ==
      match ParseElements(decode, a, strict)
      case Err(e) => Err(e)
      case Ok(ra) =>
        match ParseElements(decode, b, strict)
        case Err(e) => Err(e)
        case Ok(rb) => Ok(ra + rb)
    decreases |b|
  {
    if b == [] {
      assert a + b == a;
      if ParseElements(decode, a, strict).Ok? {
        assert ParseElements(decode, a, strict).value + [] == ParseElements(decode, a, strict).value;
      }
    } else {
      var b' := b[..|b| - 1];
      assert (a + b)[..|a + b| - 1] == a + b';
      assert (a + b)[|a + b| - 1] == b[|b| - 1];
      ParseElementsAppend(decode, a, b', strict);
      var ra := ParseElements(decode, a, strict);
      var rb' := ParseElements(decode, b', strict);
      var x := ParseElement(decode, b[|b| - 1], strict);
      if ra.Ok? && rb'.Ok? && x.Ok? {
        assert ra.value + (rb'.value + Contribution(x.value)) == (ra.value + rb'.value) + Contribution(x.value);
      }
    }
  }

  /** Tails read alike read alike behind the same prefix. */
  lemma ParseElementsSameTail(decode: ObjectDecoder, a: seq<Json>, b1: seq<Json>, b2: seq<Json>, strict: bool)
    requires ParseElements(decode, b1, strict) == ParseElements(decode, b2, strict)
    ensures ParseElements(decode, a + b1, strict) == ParseElements(decode, a + b2, strict)
  {
    ParseElementsAppend(decode, a, b1, strict);
    ParseElementsAppend(decode, a, b2, strict);
  }

  /** A single element decodes to what ParseElement makes of it. */
  lemma ParseElementsSingle(decode: ObjectDecoder, e: Json, strict: bool)
    ensures ParseElements(decode, [e], strict) ==
      match ParseElement(decode, e, strict)
      case Err(err) => Err(err)
      case Ok(x) => Ok(Contribution(x))
  {
    assert [e][..0] == [];
    assert ParseElements(decode, [], strict) == Ok([]);
    var p := ParseElement(decode, e, strict);
    if p.Ok? {
      assert [] + Contribution(p.value) == Contribution(p.value);
    }
  }

  /** In a lenient stream, elements that are not objects never fail and
      never contribute. */
  lemma {:induction false} LenientSkipsNonObjects(decode: ObjectDecoder, items: seq<Json>)
    requires forall i :: 0 <= i < |items| ==> !items[i].JObj?
    ensures ParseElements(decode, items, false) == Ok([])
    decreases |items|
  {
    if items != [] {
      LenientSkipsNonObjects(decode, items[..|items| - 1]);
    }
  }

  /** In a strict stream, the first element that is not an object fails
      the whole reading with IllegalStateException, unless an earlier
      element already failed. */
  lemma StrictRejectsNonObject(decode: ObjectDecoder, items: seq<Json>, k: nat)
    requires k < |items| && !items[k].JObj?
    requires forall i :: 0 <= i < k ==> ParseElement(decode, items[i], true).Ok?
    ensures ParseElements(decode, items, true) == Err(IllegalState)
  {
    var a, b := items[..k], items[k..];
    assert items == a + b;
    assert forall i :: 0 <= i < k ==> a[i] == items[i];
    ParseElementsOk(decode, a, true);
    ParseElementsAppend(decode, a, b, true);
    ParseElementsAppend(decode, [b[0]], b[1..], true);
    assert b == [b[0]] + b[1..];
    ParseElementsSingle(decode, b[0], true);
  }

  /** In a lenient stream, an element that is not an object is dropped:
      the reading is the reading of the others. */
  lemma LenientDropsNonObject(decode: ObjectDecoder, items: seq<Json>, k: nat)
    requires k < |items| && !items[k].JObj?
    ensures ParseElements(decode, items, false) == ParseElements(decode, items[..k] + items[k + 1..], false)
  {
    var a, x, b := items[..k], items[k], items[k + 1..];
    assert items[k..] == [x] + b;
    assert items == a + items[k..];
    assert ParseElements(decode, [x], false) == Ok([]) by {
      ParseElementsSingle(decode, x, false);
    }
    assert ParseElements(decode, [x] + b, false) == ParseElements(decode, b, false) by {
      ParseElementsAppend(decode, [x], b, false);
      var rb := ParseElements(decode, b, false);
      if rb.Ok? {
        assert [] + rb.value == rb.value;
      }
    }
    ParseElementsSameTail(decode, a, [x] + b, b, false);
  }

  /** Elements that are all objects the host decodes give those objects,
      one each, in input order, in both forms of reading. */
  lemma {:induction false} ParseElementsAllObjects(decode: ObjectDecoder, items: seq<Json>, strict: bool)
    requires forall i :: 0 <= i < |items| ==> items[i].JObj? && decode(items[i]).Ok? && decode(items[i]).value.Some?
    ensures ParseElements(decode, items, strict).Ok?
    ensures var objs := ParseElements(decode, items, strict).value;
      && |objs| == |items|
      && forall i :: 0 <= i < |items| ==> objs[i] == decode(items[i]).value.value
    decreases |items|
  {
    if items != [] {
      var n := |items| - 1;
      var init := items[..n];
      assert forall i :: 0 <= i < n ==> init[i] == items[i];
      ParseElementsAllObjects(decode, init, strict);
    }
  }

  /** The shape dispatch of parsePathObjects once a FeatureCollection has
      been unwrapped: an array is decoded element by element, a single
      object gives a list of at most one, anything else gives an empty
      list (never null). */
  function ParseShape(decode: ObjectDecoder, element: Json): (r: Result<seq<PathObject>>)
    ensures element.JArr? ==> r == ParseElements(decode, element.items, false)
    ensures element.JObj? ==> match decode(element)
                               case Err(e) => r == Err(e)
                               case Ok(x) => r == Ok(Contribution(x))
    ensures !element.JArr? && !element.JObj? ==> r == Ok([])
  {
    if element.JArr? then ParseElements(decode, element.items, false)
    else if element.JObj? then
      var x :- ParsePathObject(decode, element);
      Ok(Contribution(x))
    else Ok([])
  }

  /** The element parsePathObjects dispatches on: an object with a
      `features` member is replaced by that member's value. */
  function Unwrapped(j: Json): (e: Json)
    ensures j.JObj? && Has(j.members, "features") ==> (("features", e) in j.members)
    ensures !(j.JObj? && Has(j.members, "features")) ==> e == j
  {
    if j.JObj? && Has(j.members, "features") then Get(j.members, "features").value else j
  }

  /** parsePathObjects over a body that Gson has already read. */
  function ParsePathObjects(decode: ObjectDecoder, j: Json): (r: Result<seq<PathObject>>)
    ensures r == ParseShape(decode, Unwrapped(j))
    ensures r.Ok? && Unwrapped(j).JArr? ==> |r.value| <= |Unwrapped(j).items|
    ensures r.Ok? && !Unwrapped(j).JArr? ==> |r.value| <= 1
  {
    ParseShape(decode, Unwrapped(j))
  }
}
