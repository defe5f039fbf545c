/** Small building blocks shared by the model: optional values, the outcome
    of a call that may throw, JavaScript's `Array.prototype.findIndex`, and
    the decimal printing of numbers inside template strings. */
module Base {

  /** A value that may be absent (`undefined` or `null` in the source). */
  datatype Option<+T> = None | Some(value: T) {

    /** `x ?? fallback`: the present value, or the fallback. */
    function GetOr(fallback: T): T {
      if Some? then value else fallback
    }
  }

  /** A call that returns a value, or throws the given message. */
  datatype Result<+T> = Ok(value: T) | Thrown(message: string)

  /** A call that returns nothing, or throws the given message. */
  datatype Outcome = Done | Threw(message: string)

  /** `s.findIndex(p)`: the index of the first element that satisfies `p`,
      or -1 when none does. `s.find(p)` is the element at that index. */
  function FindIndex<T>(s: seq<T>, p: T -> bool): (k: int)
    ensures -1 <= k < |s|
    ensures 0 <= k ==> p(s[k])
    ensures forall j :: 0 <= j < |s| && (k < 0 || j < k) ==> !p(s[j])
  {
    if |s| == 0 then -1
    else if p(s[0]) then 0
    else
      var k := FindIndex(s[1..], p);
      if k < 0 then -1 else k + 1
  }

  /** A loop that pushes `f(x)` for every `x` of `xs` in order: all the
      results, or the message of the first call that throws. */
  function MapResult<A, B>(xs: seq<A>, f: A -> Result<B>): (r: Result<seq<B>>)
    ensures r.Ok? ==> |r.value| == |xs|
  {
    if xs == [] then Ok([])
    else
      match MapResult(xs[..|xs| - 1], f)
      case Thrown(m) => Thrown(m)
      case Ok(prefix) =>
        match f(xs[|xs| - 1])
        case Thrown(m) => Thrown(m)
        case Ok(y) => Ok(prefix + [y])
  }

  /** The loop completes exactly when no call throws. */
  lemma {:induction false} MapResultSucceeds<A, B>(xs: seq<A>, f: A -> Result<B>)
    ensures MapResult(xs, f).Ok? <==> forall i :: 0 <= i < |xs| ==> f(xs[i]).Ok?
  {
    if xs != [] {
      var init := xs[..|xs| - 1];
      MapResultSucceeds(init, f);
      assert forall i :: 0 <= i < |init| ==> init[i] == xs[i];
    }
  }

  /** A completed loop holds the i-th call's result at position i. */
  lemma {:induction false} MapResultInOrder<A, B>(xs: seq<A>, f: A -> Result<B>)
    requires MapResult(xs, f).Ok?
    ensures forall i :: 0 <= i < |xs| ==> f(xs[i]) == Ok(MapResult(xs, f).value[i])
  {
    if xs != [] {
      var init := xs[..|xs| - 1];
      MapResultInOrder(init, f);
      assert forall i :: 0 <= i < |init| ==> init[i] == xs[i];
    }
  }

  /** A loop that throws, throws the message of the first call that does. */
  lemma {:induction false} MapResultThrowsFirst<A, B>(xs: seq<A>, f: A -> Result<B>)
    requires MapResult(xs, f).Thrown?
    ensures exists i :: (&& 0 <= i < |xs|
      && f(xs[i]) == Thrown(MapResult(xs, f).message)
      && (forall j :: 0 <= j < i ==> f(xs[j]).Ok?))
  {
    var init := xs[..|xs| - 1];
    assert forall i :: 0 <= i < |init| ==> init[i] == xs[i];
    if MapResult(init, f).Thrown? {
      MapResultThrowsFirst(init, f);
      var i :| && 0 <= i < |init|
        && f(init[i]) == Thrown(MapResult(init, f).message)
        && (forall j :: 0 <= j < i ==> f(init[j]).Ok?);
      assert f(xs[i]) == Thrown(MapResult(xs, f).message);
    } else {
      MapResultSucceeds(init, f);
      assert f(xs[|xs| - 1]) == Thrown(MapResult(xs, f).message);
    }
  }

  /** Once a prefix throws, the whole loop throws the same message. */
  lemma {:induction false} MapResultStopsAtThrow<A, B>(xs: seq<A>, n: nat, f: A -> Result<B>)
    requires n <= |xs|
    requires MapResult(xs[..n], f).Thrown?
    ensures MapResult(xs, f) == MapResult(xs[..n], f)
    decreases |xs| - n
  {
    if n == |xs| {
      assert xs[..n] == xs;
    } else {
      var init := xs[..|xs| - 1];
      assert init[..n] == xs[..n];
      MapResultStopsAtThrow(init, n, f);
    }
  }

  /** One more iteration: the next result is pushed, or its throw ends the whole loop. */
  lemma MapResultStep<A, B>(xs: seq<A>, i: nat, f: A -> Result<B>, done: seq<B>)
    requires i < |xs|
    requires MapResult(xs[..i], f) == Ok(done)
    ensures f(xs[i]).Ok? ==> MapResult(xs[..i + 1], f) == Ok(done + [f(xs[i]).value])
    ensures f(xs[i]).Thrown? ==> MapResult(xs, f) == Thrown(f(xs[i]).message)
  {
    assert xs[..i + 1][..i] == xs[..i];
    if f(xs[i]).Thrown? {
      MapResultStopsAtThrow(xs, i + 1, f);
    }
  }

  /** The decimal digits of `n`, as a template string prints a whole number. */
  function NatToString(n: nat): string
  {
    var digit := "0123456789"[n % 10];
    if n < 10 then [digit] else NatToString(n / 10) + [digit]
  }

  /** The decimal text of a whole number, with a leading minus sign when negative. */
  function IntToString(n: int): string
  {
    if n < 0 then "-" + NatToString(-n) else NatToString(n)
  }
}
