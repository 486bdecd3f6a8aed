/** updateClassifications, the same in all three clients: after results
    are shown, the base classes of the classified result objects, sorted
    and followed by the standard "Ignore*" class, are merged into the
    host's list of available classes. The list is only ever appended to. */
module Classifications {
  import opened Wrappers
  import opened Geometry

  /** PathClass.StandardPathClasses.IGNORE */
  const Ignore: PathClass := Named("Ignore*", [])

  /** String.compareTo's order: the first differing character decides,
      and a proper prefix comes first. */
  predicate Below(a: string, b: string) {
    if a == [] then b != []
    else if b == [] then false
    else if a[0] != b[0] then a[0] < b[0]
    else Below(a[1..], b[1..])
  }

  lemma {:induction false} BelowIrreflexive(a: string)
    ensures !Below(a, a)
  {
    if a != [] {
      BelowIrreflexive(a[1..]);
    }
  }

  lemma {:induction false} BelowTransitive(a: string, b: string, c: string)
    requires Below(a, b) && Below(b, c)
    ensures Below(a, c)
  {
    if a != [] && b != [] && c != [] && a[0] == b[0] && b[0] == c[0] {
      BelowTransitive(a[1..], b[1..], c[1..]);
    }
  }

  lemma {:induction false} BelowTotal(a: string, b: string)
    requires a != b
    ensures Below(a, b) || Below(b, a)
  {
    if a != [] && b != [] && a[0] == b[0] {
      assert a == [a[0]] + a[1..] && b == [b[0]] + b[1..];
      BelowTotal(a[1..], b[1..]);
    }
  }

  /** Strictly increasing names: sorted, and no name twice. */
  predicate StrictlySorted(s: seq<string>) {
    forall i, j :: 0 <= i < j < |s| ==> Below(s[i], s[j])
  }

  /** `x` put in its place in a strictly sorted list (nothing changes when
      it is already there). */
  function Insert(s: seq<string>, x: string): (r: seq<string>)
    requires StrictlySorted(s)
    ensures StrictlySorted(r)
    ensures forall y :: y in r <==> y in s || y == x
    decreases |s|
  {
    if s == [] then [x]
    else if x == s[0] then s
    else if Below(x, s[0]) then
      assert forall j :: 0 < j < |s| ==> Below(x, s[j]) by {
        forall j | 0 < j < |s| ensures Below(x, s[j]) {
          BelowTransitive(x, s[0], s[j]);
        }
      }
      [x] + s
    else
      BelowTotal(x, s[0]);
      var rest := Insert(s[1..], x);
      assert forall y :: y in rest ==> Below(s[0], y) by {
        forall y | y in rest ensures Below(s[0], y) {
          if y != x {
            var j :| 0 <= j < |s[1..]| && s[1..][j] == y;
            assert s[1 + j] == y;
          }
        }
      }
      [s[0]] + rest
  }

  /** The base name of an object's classification, when it has one that
      is neither Java null nor the null class. */
  function BaseName(o: PathObject): Option<string> {
    match o.pathClass
    case None => None
    case Some(c) => if c.NullClass? then None else Some(c.base)
  }

  /** The set of represented base classes, as names. */
  function Represented(objs: seq<PathObject>): set<string> {
    set i | 0 <= i < |objs| && BaseName(objs[i]).Some? :: BaseName(objs[i]).value
  }

  /** The represented base classes, sorted (`Collections.sort`). */
  function SortedNames(objs: seq<PathObject>): (r: seq<string>)
    ensures StrictlySorted(r)
    ensures forall y :: y in r <==> y in Represented(objs)
    decreases |objs|
  {
    if objs == [] then []
    else
      var init := objs[..|objs| - 1];
      var prev := SortedNames(init);
      var o := objs[|objs| - 1];
      assert forall i :: 0 <= i < |init| ==> init[i] == objs[i];
      assert forall y :: y in Represented(objs) <==> y in Represented(init) || Some(y) == BaseName(o) by {
        forall y ensures y in Represented(objs) <==> y in Represented(init) || Some(y) == BaseName(o) {
          if y in Represented(objs) {
            var i :| 0 <= i < |objs| && BaseName(objs[i]) == Some(y);
            if i < |init| {
              assert y in Represented(init);
            }
          }
          if y in Represented(init) {
            var i :| 0 <= i < |init| && BaseName(init[i]) == Some(y);
            assert BaseName(objs[i]) == Some(y);
          }
          if Some(y) == BaseName(o) {
            assert BaseName(objs[|objs| - 1]) == Some(y);
          }
        }
      }
      match BaseName(o)
      case None => prev
      case Some(name) => Insert(prev, name)
  }

  /** `newClasses` before IGNORE is added: one base class per name. */
  function AsClasses(names: seq<string>): (cs: seq<Option<PathClass>>)
    ensures |cs| == |names|
    ensures forall i :: 0 <= i < |names| ==> cs[i] == Some(ClassFromName(names[i]))
  {
    seq(|names|, i requires 0 <= i < |names| => Some(ClassFromName(names[i])))
  }

  /** `newClasses` once IGNORE is added. */
  function NewClasses(objs: seq<PathObject>): seq<Option<PathClass>> {
    AsClasses(SortedNames(objs)) + [Some(Ignore)]
  }

  /** List.remove(null): the first null goes, nothing else. */
  function RemoveFirstNull(s: seq<Option<PathClass>>): (r: seq<Option<PathClass>>)
    ensures None !in s ==> r == s
    ensures None in s ==> |r| == |s| - 1
    ensures forall c :: c in r ==> c in s
    ensures forall c :: c != None ==> (c in r <==> c in s)
  {
    if s == [] then []
    else if s[0] == None then
      assert forall c :: c in s <==> c == s[0] || c in s[1..];
      s[1..]
    else
      assert forall c :: c in s <==> c == s[0] || c in s[1..];
      [s[0]] + RemoveFirstNull(s[1..])
  }

  /** List.removeAll: every element that `other` contains goes. */
  function RemoveAll(s: seq<Option<PathClass>>, other: seq<Option<PathClass>>): (r: seq<Option<PathClass>>)
    ensures forall c :: c in r <==> c in s && c !in other
    ensures |r| <= |s|
  {
    if s == [] then []
    else if s[0] in other then RemoveAll(s[1..], other)
    else [s[0]] + RemoveAll(s[1..], other)
  }

  /** What updateClassifications leaves in the list of available
      classes. */
  function Updated(available: seq<Option<PathClass>>, objs: seq<PathObject>): seq<Option<PathClass>> {
    if SortedNames(objs) == [] then available
    else if RemoveFirstNull(available) == NewClasses(objs) then available
    else available + RemoveAll(NewClasses(objs), available)
  }

  /** The host's list of available classes, which the merge edits in
      place (Java null entries included). */
  class AvailableClasses {
    var classes: seq<Option<PathClass>>

    constructor (initial: seq<Option<PathClass>>)
      ensures classes == initial
    {
      classes := initial;
    }

    method UpdateClassifications(objs: seq<PathObject>)
      modifies this
      ensures classes == Updated(old(classes), objs)
    {
      var newClasses := AsClasses(SortedNames(objs));
      if newClasses == [] {
        return;
      }
      newClasses := newClasses + [Some(Ignore)];
      var currentClasses := RemoveFirstNull(classes);
      if currentClasses == newClasses {
        return;
      }
      newClasses := RemoveAll(newClasses, classes);
      classes := classes + newClasses;
    }
  }

  /** Existing entries keep their places: the old list is a prefix of the
      new one. */
  lemma UpdatePreservesPrefix(available: seq<Option<PathClass>>, objs: seq<PathObject>)
    ensures |available| <= |Updated(available, objs)|
    ensures Updated(available, objs)[..|available|] == available
  {
  }

  /** Only classes the list lacked are appended, and only classes that
      are represented or IGNORE. */
  lemma AppendsOnlyMissing(available: seq<Option<PathClass>>, objs: seq<PathObject>)
    ensures var added := Updated(available, objs)[|available|..];
      forall c :: c in added ==>
        && c !in available
        && c.Some?
        && (c.value == Ignore || (c.value.Named? && c.value.derived == [] && c.value.base in Represented(objs)))
  {
    var added := Updated(available, objs)[|available|..];
    if SortedNames(objs) != [] && RemoveFirstNull(available) != NewClasses(objs) {
      assert added == RemoveAll(NewClasses(objs), available);
      forall c | c in added
        ensures c.Some? && (c.value == Ignore || (c.value.Named? && c.value.derived == [] && c.value.base in Represented(objs)))
      {
        assert c in NewClasses(objs);
        if c != Some(Ignore) {
          var names := SortedNames(objs);
          assert c in AsClasses(names);
          var i :| 0 <= i < |names| && AsClasses(names)[i] == c;
          assert names[i] in names;
        }
      }
    }
  }

  /** A non-empty list has a first element. */
  lemma HeadIn<T>(s: seq<T>)
    ensures |s| > 0 ==> s[0] in s
  {
  }

  /** With no classified object, nothing changes. */
  lemma UnclassifiedLeavesList(available: seq<Option<PathClass>>, objs: seq<PathObject>)
    requires forall i :: 0 <= i < |objs| ==> BaseName(objs[i]).None?
    ensures Updated(available, objs) == available
  {
    var names := SortedNames(objs);
    HeadIn(names);
  }

  /** After the merge, every represented base class and IGNORE is
      available (when anything was classified). */
  lemma UpdateCovers(available: seq<Option<PathClass>>, objs: seq<PathObject>)
    requires Represented(objs) != {}
    ensures Some(Ignore) in Updated(available, objs)
    ensures forall name :: name in Represented(objs) ==> Some(ClassFromName(name)) in Updated(available, objs)
  {
    var names := SortedNames(objs);
    var y :| y in Represented(objs);
    assert y in names;
    var u := Updated(available, objs);
    var nc := NewClasses(objs);
    forall c | c in nc
      ensures c in u
    {
      if RemoveFirstNull(available) == nc {
      } else if c !in available {
        assert c in RemoveAll(nc, available);
        assert u == available + RemoveAll(nc, available);
      }
    }
    assert Some(Ignore) == nc[|nc| - 1];
    forall name | name in Represented(objs)
      ensures Some(ClassFromName(name)) in u
    {
      var i :| 0 <= i < |names| && names[i] == name;
      assert nc[i] == Some(ClassFromName(name));
    }
  }

  /** The early return is only a shortcut: when the list minus its first
      null already equals the new classes, the general branch would have
      appended nothing either. */
  lemma ShortcutAgrees(available: seq<Option<PathClass>>, objs: seq<PathObject>)
    requires RemoveFirstNull(available) == NewClasses(objs)
    ensures RemoveAll(NewClasses(objs), available) == []
  {
    var r := RemoveAll(NewClasses(objs), available);
    HeadIn(r);
  }

  /** Merging the same results twice changes nothing the second time. */
  lemma UpdateIdempotent(available: seq<Option<PathClass>>, objs: seq<PathObject>)
    ensures Updated(Updated(available, objs), objs) == Updated(available, objs)
  {
    var u := Updated(available, objs);
    if SortedNames(objs) != [] && RemoveFirstNull(u) != NewClasses(objs) {
      var y := SortedNames(objs)[0];
      assert y in Represented(objs);
      UpdateCovers(available, objs);
      var nc := NewClasses(objs);
      forall c | c in nc
        ensures c in u
      {
        if c == Some(Ignore) {
        } else {
          var names := SortedNames(objs);
          var i :| 0 <= i < |names| && AsClasses(names)[i] == c;
          assert names[i] in Represented(objs);
        }
      }
      var r := RemoveAll(nc, u);
      HeadIn(r);
      assert u + [] == u;
    }
  }

  /** A strictly sorted list holding exactly one name is that name. */
  lemma {:induction false} SortedSingleton(names: seq<string>, x: string)
    requires StrictlySorted(names)
    requires forall y :: y in names <==> y == x
    ensures names == [x]
  {
    assert x in names;
    if |names| > 1 {
      assert names[0] in names && names[1] in names;
      BelowIrreflexive(x);
    }
  }

  /** When the only classification among the results is "Ignore*" itself
      and the list lacks it, IGNORE is appended twice: once as the base
      class of the results and once as the class added at the end. */
  lemma IgnoreAppendedTwice(available: seq<Option<PathClass>>, objs: seq<PathObject>)
    requires Some(Ignore) !in available
    requires Represented(objs) == {Ignore.base}
    ensures Updated(available, objs) == available + [Some(Ignore), Some(Ignore)]
  {
    var names := SortedNames(objs);
    SortedSingleton(names, Ignore.base);
    assert NewClasses(objs) == [Some(Ignore), Some(Ignore)];
    assert Some(Ignore) !in RemoveFirstNull(available);
    var r := RemoveAll(NewClasses(objs), available);
    assert r == [Some(Ignore)] + RemoveAll([Some(Ignore)], available);
  }
}
