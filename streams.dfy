/** The loop shape the schema readers share: each input element is read in
    turn into an entry, Java null (an element no case matches), or an
    exception; the first exception ends the loop, nulls add nothing, and
    entries are kept in input order. */
module Streams {
  import opened Wrappers

  /** What one element adds to the output. */
  function Kept<U>(x: Option<U>): (s: seq<U>)
    ensures x.None? ==> s == []
    ensures x.Some? ==> s == [x.value]
  {
    if x.Some? then [x.value] else []
  }

  function Collect<T, U>(f: T -> Result<Option<U>>, xs: seq<T>): (r: Result<seq<U>>)
    ensures r.Ok? <==> forall i :: 0 <= i < |xs| ==> f(xs[i]).Ok?
    ensures r.Ok? ==> |r.value| <= |xs|
    decreases |xs|
  {
    if xs == [] then Ok([])
    else
      var prev :- Collect(f, xs[..|xs| - 1]);
      var x :- f(xs[|xs| - 1]);
      Ok(prev + Kept(x))
  }

  /** The step the loop takes at element i. */
  lemma CollectStep<T, U>(f: T -> Result<Option<U>>, xs: seq<T>, i: nat)
    requires i < |xs|
    ensures Collect(f, xs[..i + 1]) ==
      match Collect(f, xs[..i])
      case Err(e) => Err(e)
      case Ok(prev) =>
        match f(xs[i])
        case Err(e) => Err(e)
        case Ok(x) => Ok(prev + Kept(x))
  {
    assert xs[..i + 1][..i] == xs[..i];
  }

  /** The first exception is the loop's exception: once a prefix fails,
      the whole loop fails the same way. */
  lemma {:induction false} CollectStops<T, U>(f: T -> Result<Option<U>>, xs: seq<T>, k: nat)
    requires k <= |xs|
    requires Collect(f, xs[..k]).Err?
    ensures Collect(f, xs) == Collect(f, xs[..k])
    decreases |xs| - k
  {
    if k < |xs| {
      CollectStep(f, xs, k);
      CollectStops(f, xs, k + 1);
    } else {
      assert xs[..k] == xs;
    }
  }

  /** A loop step that reads an element: the output grows by what it
      yields. */
  lemma CollectExtends<T, U>(f: T -> Result<Option<U>>, xs: seq<T>, i: nat, acc: seq<U>)
    requires i < |xs| && Collect(f, xs[..i]) == Ok(acc) && f(xs[i]).Ok?
    ensures Collect(f, xs[..i + 1]) == Ok(acc + Kept(f(xs[i]).value))
  {
    CollectStep(f, xs, i);
  }

  /** A loop step that throws: the exception is the whole loop's. */
  lemma CollectFailsAt<T, U>(f: T -> Result<Option<U>>, xs: seq<T>, i: nat)
    requires i < |xs| && Collect(f, xs[..i]).Ok? && f(xs[i]).Err?
    ensures Collect(f, xs) == Err(f(xs[i]).error)
  {
    CollectStep(f, xs, i);
    CollectStops(f, xs, i + 1);
  }

  /** An element that reads as null leaves no trace: the output is what it
      would be without that element. */
  lemma {:induction false} CollectSkips<T, U>(f: T -> Result<Option<U>>, a: seq<T>, x: T, b: seq<T>)
    requires f(x) == Ok(None)
    ensures Collect(f, a + [x] + b) == Collect(f, a + b)
    decreases |b|
  {
    if b == [] {
      assert (a + [x] + b)[..|a + [x] + b| - 1] == a;
      assert a + b == a;
      var ra := Collect(f, a);
      if ra.Ok? {
        assert ra.value + Kept<U>(None) == ra.value;
      }
    } else {
      var b' := b[..|b| - 1];
      assert (a + [x] + b)[..|a + [x] + b| - 1] == a + [x] + b';
      assert (a + b)[..|a + b| - 1] == a + b';
      assert (a + [x] + b)[|a + [x] + b| - 1] == b[|b| - 1];
      assert (a + b)[|a + b| - 1] == b[|b| - 1];
      CollectSkips(f, a, x, b');
    }
  }

  /** When every element reads as an entry, the output has one entry per
      element, at the same position. */
  lemma {:induction false} CollectAll<T, U>(f: T -> Result<Option<U>>, xs: seq<T>)
    requires forall i :: 0 <= i < |xs| ==> f(xs[i]).Ok? && f(xs[i]).value.Some?
    ensures Collect(f, xs).Ok?
    ensures |Collect(f, xs).value| == |xs|
    ensures forall i :: 0 <= i < |xs| ==> Collect(f, xs).value[i] == f(xs[i]).value.value
    decreases |xs|
  {
    if xs != [] {
      var n := |xs| - 1;
      var init := xs[..n];
      assert forall i :: 0 <= i < n ==> init[i] == xs[i];
      CollectAll(f, init);
      var prev := Collect(f, init).value;
      var last := f(xs[n]).value.value;
      assert Collect(f, xs) == Ok(prev + [last]);
      forall i | 0 <= i < |xs|
        ensures Collect(f, xs).value[i] == f(xs[i]).value.value
      {
        if i < n {
          assert init[i] == xs[i];
        }
      }
    }
  }

  /** A property every entry the reader yields has, every entry of the
      output has. */
  lemma {:induction false} CollectKeeps<T, U>(f: T -> Result<Option<U>>, xs: seq<T>, P: U -> bool)
    requires forall x :: f(x).Ok? && f(x).value.Some? ==> P(f(x).value.value)
    requires Collect(f, xs).Ok?
    ensures forall k :: 0 <= k < |Collect(f, xs).value| ==> P(Collect(f, xs).value[k])
    decreases |xs|
  {
    if xs != [] {
      CollectKeeps(f, xs[..|xs| - 1], P);
    }
  }

  /** A reading that must succeed for every element: the first exception
      ends it, otherwise there is one output per input, in input order. */
  function MapAll<T, U>(f: T -> Result<U>, xs: seq<T>): (r: Result<seq<U>>)
    ensures r.Ok? <==> forall i :: 0 <= i < |xs| ==> f(xs[i]).Ok?
    ensures r.Ok? ==> |r.value| == |xs|
    ensures r.Ok? ==> forall i :: 0 <= i < |xs| ==> r.value[i] == f(xs[i]).value
    decreases |xs|
  {
    if xs == [] then Ok([])
    else
      var init := xs[..|xs| - 1];
      assert forall i :: 0 <= i < |init| ==> init[i] == xs[i];
      var prev :- MapAll(f, init);
      var x :- f(xs[|xs| - 1]);
      Ok(prev + [x])
  }

  /** The step the loop takes at element i. */
  lemma MapAllStep<T, U>(f: T -> Result<U>, xs: seq<T>, i: nat)
    requires i < |xs|
    ensures MapAll(f, xs[..i + 1]) ==
      match MapAll(f, xs[..i])
      case Err(e) => Err(e)
      case Ok(prev) =>
        match f(xs[i])
        case Err(e) => Err(e)
        case Ok(x) => Ok(prev + [x])
  {
    assert xs[..i + 1][..i] == xs[..i];
  }

  /** The exception of the first element that fails is the exception of
      the whole reading. */
  lemma {:induction false} MapAllFirstError<T, U>(f: T -> Result<U>, xs: seq<T>, k: nat)
    requires k < |xs|
    requires forall i :: 0 <= i < k ==> f(xs[i]).Ok?
    requires f(xs[k]).Err?
    ensures MapAll(f, xs) == Err(f(xs[k]).error)
    decreases |xs|
  {
    var init := xs[..|xs| - 1];
    if k < |xs| - 1 {
      assert forall i :: 0 <= i <= k ==> init[i] == xs[i];
      MapAllFirstError(f, init, k);
    } else {
      assert forall i :: 0 <= i < |init| ==> init[i] == xs[i];
    }
  }

  /** How far a loop with side effects got: the outputs of the elements it
      finished, and the exception that stopped it, if any. */
  datatype Partial<U> = Partial(done: seq<U>, failure: Option<Exception>)

  /** A loop that acts on each element as soon as it is read: the elements
      before the first failing one are all finished, in order, and the
      failing one's exception ends the loop. */
  function Steps<T, U>(f: T -> Result<U>, xs: seq<T>): (p: Partial<U>)
    ensures |p.done| <= |xs|
    ensures forall i :: 0 <= i < |p.done| ==> f(xs[i]) == Ok(p.done[i])
    ensures p.failure.None? ==> |p.done| == |xs|
    ensures p.failure.Some? ==> |p.done| < |xs| && f(xs[|p.done|]) == Err(p.failure.value)
    decreases |xs|
  {
    if xs == [] then Partial([], None)
    else
      var init := xs[..|xs| - 1];
      assert forall i :: 0 <= i < |init| ==> init[i] == xs[i];
      var prev := Steps(f, init);
      if prev.failure.Some? then prev
      else
        match f(xs[|xs| - 1])
        case Err(e) => Partial(prev.done, Some(e))
        case Ok(x) => Partial(prev.done + [x], None)
  }

  /** The step the loop takes at element i. */
  lemma StepsStep<T, U>(f: T -> Result<U>, xs: seq<T>, i: nat)
    requires i < |xs|
    ensures Steps(f, xs[..i + 1]) ==
      var prev := Steps(f, xs[..i]);
      if prev.failure.Some? then prev
      else
        match f(xs[i])
        case Err(e) => Partial(prev.done, Some(e))
        case Ok(x) => Partial(prev.done + [x], None)
  {
    assert xs[..i + 1][..i] == xs[..i];
  }

  /** Once a prefix has failed, the loop has stopped: the rest of the
      input is never looked at. */
  lemma {:induction false} StepsStops<T, U>(f: T -> Result<U>, xs: seq<T>, k: nat)
    requires k <= |xs|
    requires Steps(f, xs[..k]).failure.Some?
    ensures Steps(f, xs) == Steps(f, xs[..k])
    decreases |xs| - k
  {
    if k < |xs| {
      StepsStep(f, xs, k);
      StepsStops(f, xs, k + 1);
    } else {
      assert xs[..k] == xs;
    }
  }

  /** A loop step that finishes an element: it joins the finished ones. */
  lemma StepsExtends<T, U>(f: T -> Result<U>, xs: seq<T>, i: nat, done: seq<U>)
    requires i < |xs| && Steps(f, xs[..i]) == Partial(done, None) && f(xs[i]).Ok?
    ensures Steps(f, xs[..i + 1]) == Partial(done + [f(xs[i]).value], None)
  {
    StepsStep(f, xs, i);
  }

  /** A loop step that throws: the loop ends there with that exception. */
  lemma StepsFailsAt<T, U>(f: T -> Result<U>, xs: seq<T>, i: nat, done: seq<U>)
    requires i < |xs| && Steps(f, xs[..i]) == Partial(done, None) && f(xs[i]).Err?
    ensures Steps(f, xs) == Partial(done, Some(f(xs[i]).error))
  {
    StepsStep(f, xs, i);
    StepsStops(f, xs, i + 1);
  }
}
