/** Success and failure values, and the two list traversals every component shares. */
module Results {

  datatype Option<+T> = None | Some(value: T)

  datatype Result<+T, +E> = Ok(value: T) | Err(error: E) {
    predicate IsFailure() {
      Err?
    }

    function PropagateFailure<U>(): Result<U, E>
      requires Err?
    {
      Err(error)
    }

    function Extract(): T
      requires Ok?
    {
      value
    }
  }

  /** The outcome of an operation that returns nothing, `Result<(), E>` in the source. */
  datatype Outcome<+E> = Pass | Fail(error: E) {
    predicate IsFailure() {
      Fail?
    }

    function PropagateFailure(): Outcome<E>
      requires Fail?
    {
      this
    }
  }

  /** Applies `f` from left to right and stops at the first failure. */
  function Traverse<A, B, E>(f: A -> Result<B, E>, xs: seq<A>): (r: Result<seq<B>, E>)
    ensures r.Ok? ==> |r.value| == |xs| && forall i :: 0 <= i < |xs| ==> f(xs[i]) == Ok(r.value[i])
  {
    if xs == [] then Ok([])
    else
      var init :- Traverse(f, xs[..|xs| - 1]);
      var last :- f(xs[|xs| - 1]);
      Ok(init + [last])
  }

  predicate Distinct<A(==)>(xs: seq<A>) {
    forall i, j :: 0 <= i < j < |xs| ==> xs[i] != xs[j]
  }

  /** The elements satisfying `p`, in their original order. */
  function Keep<A>(p: A -> bool, xs: seq<A>): seq<A> {
    if xs == [] then []
    else Keep(p, xs[..|xs| - 1]) + if p(xs[|xs| - 1]) then [xs[|xs| - 1]] else []
  }

  /** `iter().find(p)`. */
  function FindFirst<A(!new)>(p: A -> bool, xs: seq<A>): (r: Option<A>)
    ensures r.Some? <==> exists x :: x in xs && p(x)
    ensures r.Some? ==> r.value in xs && p(r.value)
  {
    if xs == [] then None else if p(xs[0]) then Some(xs[0]) else FindFirst(p, xs[1..])
  }

  lemma {:induction false} FoundIsFirst<A(!new)>(p: A -> bool, xs: seq<A>) returns (i: nat)
    requires FindFirst(p, xs).Some?
    ensures i < |xs| && xs[i] == FindFirst(p, xs).value && p(xs[i]) && forall j :: 0 <= j < i ==> !p(xs[j])
  {
    if p(xs[0]) {
      i := 0;
    } else {
      i := FoundIsFirst(p, xs[1..]);
      i := i + 1;
    }
  }

  lemma {:induction false} KeepMembers<A(!new)>(p: A -> bool, xs: seq<A>)
    ensures forall x :: x in Keep(p, xs) <==> x in xs && p(x)
  {
    if xs != [] {
      KeepMembers(p, xs[..|xs| - 1]);
      assert xs == xs[..|xs| - 1] + [xs[|xs| - 1]];
    }
  }

  lemma {:induction false} KeepConcat<A>(p: A -> bool, xs: seq<A>, ys: seq<A>)
    ensures Keep(p, xs + ys) == Keep(p, xs) + Keep(p, ys)
  {
    if ys == [] {
      assert xs + ys == xs;
    } else {
      KeepConcat(p, xs, ys[..|ys| - 1]);
      assert (xs + ys)[..|xs + ys| - 1] == xs + ys[..|ys| - 1];
    }
  }

  lemma KeepOfNone<A>(p: A -> bool)
    ensures Keep(p, []) == []
  {
  }

  lemma KeepAppend<A>(p: A -> bool, xs: seq<A>, x: A)
    ensures Keep(p, xs + [x]) == Keep(p, xs) + if p(x) then [x] else []
  {
    assert (xs + [x])[..|xs + [x]| - 1] == xs;
  }

  lemma TraverseAppend<A, B, E>(f: A -> Result<B, E>, xs: seq<A>, x: A)
    requires Traverse(f, xs).Ok?
    ensures Traverse(f, xs + [x]) ==
            if f(x).Ok? then Ok(Traverse(f, xs).value + [f(x).value]) else Err(f(x).error)
  {
    assert (xs + [x])[..|xs + [x]| - 1] == xs;
  }

  /** A failure inside a prefix is the failure of the whole list. */
  lemma {:induction false} TraverseStopsEarly<A, B, E>(f: A -> Result<B, E>, xs: seq<A>, ys: seq<A>)
    requires Traverse(f, xs).Err?
    ensures Traverse(f, xs + ys) == Traverse(f, xs)
  {
    if ys == [] {
      assert xs + ys == xs;
    } else {
      TraverseStopsEarly(f, xs, ys[..|ys| - 1]);
      assert (xs + ys)[..|xs + ys| - 1] == xs + ys[..|ys| - 1];
    }
  }

  /** Two functions that agree on a list traverse it alike. */
  lemma {:induction false} TraverseAgrees<A, B, E>(f: A -> Result<B, E>, g: A -> Result<B, E>, xs: seq<A>)
    requires forall x :: x in xs ==> f(x) == g(x)
    ensures Traverse(f, xs) == Traverse(g, xs)
  {
    if xs != [] {
      TraverseAgrees(f, g, xs[..|xs| - 1]);
    }
  }

  /** One turn of the loop below at index `i`. */
  lemma SelectStep<A, B, E>(p: A -> bool, f: A -> Result<B, E>, xs: seq<A>, i: nat)
    requires i < |xs| && Traverse(f, Keep(p, xs[..i])).Ok?
    ensures !p(xs[i]) ==> Keep(p, xs[..i + 1]) == Keep(p, xs[..i])
    ensures p(xs[i]) && f(xs[i]).Ok? ==>
              Traverse(f, Keep(p, xs[..i + 1])) == Ok(Traverse(f, Keep(p, xs[..i])).value + [f(xs[i]).value])
    ensures p(xs[i]) && f(xs[i]).Err? ==> Traverse(f, Keep(p, xs)) == Err(f(xs[i]).error)
  {
    hide *;
    assert xs[..i + 1] == xs[..i] + [xs[i]];
    KeepAppend(p, xs[..i], xs[i]);
    if p(xs[i]) {
      TraverseAppend(f, Keep(p, xs[..i]), xs[i]);
      if f(xs[i]).Err? {
        assert xs == xs[..i + 1] + xs[i + 1..];
        KeepConcat(p, xs[..i + 1], xs[i + 1..]);
        TraverseStopsEarly(f, Keep(p, xs[..i + 1]), Keep(p, xs[i + 1..]));
      }
    }
  }

  /** The loop `for x in xs { if p(x) { out.push(f(x)?) } }`. */
  method SelectEach<A, B, E>(p: A -> bool, f: A -> Result<B, E>, xs: seq<A>) returns (r: Result<seq<B>, E>)
    ensures r == Traverse(f, Keep(p, xs))
  {
    var out: seq<B> := [];
    for i := 0 to |xs|
      invariant Traverse(f, Keep(p, xs[..i])) == Ok(out)
    {
      SelectStep(p, f, xs, i);
      if p(xs[i]) {
        var b := f(xs[i]);
        if b.Err? {
          return Err(b.error);
        }
        out := out + [b.value];
      }
    }
    assert xs[..|xs|] == xs;
    return Ok(out);
  }

  /** The loop `for x in xs { *x = f(x)? }`. */
  method BindEach<A, B, E>(f: A -> Result<B, E>, xs: seq<A>) returns (r: Result<seq<B>, E>)
    ensures r == Traverse(f, xs)
  {
    var out: seq<B> := [];
    for i := 0 to |xs|
      invariant Traverse(f, xs[..i]) == Ok(out)
    {
      assert xs[..i + 1] == xs[..i] + [xs[i]];
      TraverseAppend(f, xs[..i], xs[i]);
      var b := f(xs[i]);
      if b.Err? {
        assert xs == xs[..i + 1] + xs[i + 1..];
        TraverseStopsEarly(f, xs[..i + 1], xs[i + 1..]);
        return Err(b.error);
      }
      out := out + [b.value];
    }
    assert xs[..|xs|] == xs;
    return Ok(out);
  }
}
