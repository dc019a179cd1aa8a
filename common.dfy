/** Shared vocabulary: optional values, Python exceptions as values, sums and
    Python-style indexing. */
module Common {

  datatype Option<+T> = None | Some(value: T)

  /** The Python exception classes that the modelled code can raise. */
  datatype Error =
    | KeyError
    | TypeError
    | IndexError
    | ValueError
    | AttributeError
    | ZeroDivisionError
    | RuntimeError
    | FileNotFoundError

  /** A computation that either returns a value or raises. */
  datatype Result<+T> = Ok(value: T) | Err(error: Error) {
    predicate IsFailure() { Err? }

    function PropagateFailure<U>(): Result<U>
      requires Err?
    {
      Err(error)
    }

    function Extract(): T
      requires Ok?
    {
      value
    }
  }

  /** A computation that returns nothing or raises. */
  datatype Outcome = Pass | Fail(error: Error) {
    predicate IsFailure() { Fail? }

    function PropagateFailure(): Outcome
      requires Fail?
    {
      this
    }
  }

  /** The levels a logger callback is called with. */
  datatype Level = InfoLevel | WarnLevel | ErrorLevel

  /** One call of a logger callback. Messages whose text interpolates floats
      are kept as their values rather than as rendered text; `Raised` is a
      message made of a prefix and `str(e)`, the exception kept as its
      class. */
  datatype LogEntry =
    | Message(level: Level, text: string)
    | StageTimed(stage: string, start: real, end: real, timeStep: real)
    | ExceptionLogged(error: Error)
    | Raised(level: Level, prefix: string, error: Error)

  /** Seconds in one hour, the factor behind seconds_to_hours / hours_to_seconds. */
  const SECONDS_PER_HOUR: real := 3600.0

  function Min(a: int, b: int): int
  {
    if a <= b then a else b
  }

  function Max(a: int, b: int): int
  {
    if a >= b then a else b
  }

  function Abs(x: real): real
  {
    if x < 0.0 then -x else x
  }

  function Sum(xs: seq<real>): real
  {
    if xs == [] then 0.0 else Sum(xs[..|xs| - 1]) + xs[|xs| - 1]
  }

  function SumInt(xs: seq<int>): int
  {
    if xs == [] then 0 else SumInt(xs[..|xs| - 1]) + xs[|xs| - 1]
  }

  /** Flattening of a sequence of sequences, as repeated list.extend does. */
  function Flatten<T>(ss: seq<seq<T>>): seq<T>
  {
    if ss == [] then [] else Flatten(ss[..|ss| - 1]) + ss[|ss| - 1]
  }

  /** A loop that applies `f` to every element in order and stops at the
      first exception. */
  function Traverse<A, B>(f: A -> Result<B>, xs: seq<A>): (r: Result<seq<B>>)
    ensures r.Ok? ==> |r.value| == |xs|
  {
    if xs == [] then Ok([])
    else
      var init :- Traverse(f, xs[..|xs| - 1]);
      var last :- f(xs[|xs| - 1]);
      Ok(init + [last])
  }

  /** Element `k` of a successful traversal is `f` of element `k`. */
  lemma {:induction false} TraverseAt<A, B>(f: A -> Result<B>, xs: seq<A>, k: nat)
    requires Traverse(f, xs).Ok?
    requires k < |xs|
    ensures f(xs[k]) == Ok(Traverse(f, xs).value[k])
  {
    var init := xs[..|xs| - 1];
    if k < |init| {
      TraverseAt(f, init, k);
      assert xs[k] == init[k];
    }
  }

  lemma {:induction false} TraverseSnocOk<A, B>(f: A -> Result<B>, xs: seq<A>, i: nat, done: seq<B>, y: B)
    requires i < |xs|
    requires Traverse(f, xs[..i]) == Ok(done)
    requires f(xs[i]) == Ok(y)
    ensures Traverse(f, xs[..i + 1]) == Ok(done + [y])
  {
    assert xs[..i + 1][..i] == xs[..i];
  }

  lemma {:induction false} TraverseFailureSticks<A, B>(f: A -> Result<B>, xs: seq<A>, i: nat)
    requires i <= |xs|
    requires Traverse(f, xs[..i]).Err?
    ensures Traverse(f, xs) == Traverse(f, xs[..i])
  {
    if i < |xs| {
      assert xs[..|xs| - 1][..i] == xs[..i];
      TraverseFailureSticks(f, xs[..|xs| - 1], i);
    } else {
      assert xs[..i] == xs;
    }
  }

  /** The first element that raises decides the exception of the traversal. */
  lemma {:induction false} TraverseSnocErr<A, B>(f: A -> Result<B>, xs: seq<A>, i: nat)
    requires i < |xs|
    requires Traverse(f, xs[..i]).Ok?
    requires f(xs[i]).Err?
    ensures Traverse(f, xs) == Err(f(xs[i]).error)
  {
    assert xs[..i + 1][..i] == xs[..i];
    TraverseFailureSticks(f, xs, i + 1);
  }

  /** Python's `xs[i]`: negative indices count from the end; anything else out
      of range raises IndexError. */
  function PyIndex<T>(xs: seq<T>, i: int): (r: Result<T>)
    ensures r.Ok? <==> -|xs| <= i < |xs|
    ensures 0 <= i < |xs| ==> r == Ok(xs[i])
    ensures -|xs| <= i < 0 ==> r == Ok(xs[|xs| + i])
  {
    if 0 <= i < |xs| then Ok(xs[i])
    else if -|xs| <= i < 0 then Ok(xs[|xs| + i])
    else Err(IndexError)
  }

  /** The position Python's `xs[i] = v` writes to, when it exists. */
  function PyPosition(n: nat, i: int): (r: Option<nat>)
    ensures r.Some? <==> 0 <= i + n && i < n
    ensures r.Some? ==> r.value < n
  {
    if 0 <= i < n then Some(i) else if 0 <= i + n && i < 0 then Some(n + i) else None
  }

  /** Decimal rendering of a natural number, as f"{n}" does. */
  function NatToString(n: nat): (s: string)
    ensures |s| > 0
    ensures forall k :: 0 <= k < |s| ==> '0' <= s[k] <= '9'
  {
    if n < 10 then [DigitChar(n)] else NatToString(n / 10) + [DigitChar(n % 10)]
  }

  function DigitChar(d: nat): (c: char)
    requires d < 10
    ensures '0' <= c <= '9'
  {
    ['0', '1', '2', '3', '4', '5', '6', '7', '8', '9'][d]
  }

}
